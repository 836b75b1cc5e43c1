/** The navigation chain as a whole: each launched request is delivered to a
    fresh instance of its target, whose stress-mode callback decides the next
    request. `MainActivity.onCreate` reads none of the stress extras, so a
    request for Main ends the chain; `StressTestActivity` only records the
    completion in `onNewIntent`. */
module NavigationChain {
  import opened Int32
  import opened Optional
  import opened Intents
  import opened StressTest
  import opened SecondScreen
  import opened ThirdScreen

  /** What the screen that receives `intent` does with it. */
  function Deliver(intent: Intent, isTestRunning: bool): (r: Reaction)
    ensures intent.target == MainActivity || intent.target == StressTestActivity ==> r == Reaction([], isTestRunning)
    ensures !isTestRunning ==> !r.isTestRunning
  {
    var stressMode := GetBooleanExtra(intent, ExtraStressTestMode, false);
    match intent.target
    case MainActivity => Reaction([], isTestRunning)
    case SecondActivity => if stressMode then SecondCallback(intent, isTestRunning) else Reaction([], isTestRunning)
    case ThirdActivity => if stressMode then ThirdCallback(intent, isTestRunning) else Reaction([], isTestRunning)
    case StressTestActivity => Reaction([], isTestRunning)
  }

  /** The request a reaction passes on, if any: a stress-mode callback makes
      its one launch before it finishes. */
  function Launched(r: Reaction): Option<Intent> {
    if |r.actions| > 0 && r.actions[0].StartActivity? then Some(r.actions[0].intent) else None
  }

  /** Once the flag is down, no screen launches anything and the flag stays
      down: every pending step of the chain is a no-op apart from `finish()`. */
  lemma ClearedFlagStopsChain(intent: Intent)
    ensures Launched(Deliver(intent, false)).None?
    ensures !Deliver(intent, false).isTestRunning
  {
  }

  /** `startStressTest` asks for Main as step 0, and Main ignores the stress
      extras: the chain ends there with the flag still raised. */
  lemma StartedChainStopsAtMain(cycles: int32)
    ensures Deliver(ChainIntent(MainActivity, 1, cycles, 0), true) == Reaction([], true)
  {
  }

  /** Entered at Second as step 1 of a cycle that is not the last, the chain
      visits Third as step 2 and then asks for Main with the next cycle. */
  lemma SecondThirdThenNextCycle(cycle: int32, total: int32)
    requires cycle < total
    ensures var r1 := Deliver(ChainIntent(SecondActivity, cycle, total, 1), true);
            Launched(r1) == Some(ChainIntent(ThirdActivity, cycle, total, 2)) && r1.isTestRunning &&
            var r2 := Deliver(Launched(r1).value, true);
            Launched(r2) == Some(ChainIntent(MainActivity, cycle + 1, total, 0)) && r2.isTestRunning
  {
  }

  /** In the last cycle, Third reports completion and lowers the flag. */
  lemma ThirdCompletesLastCycle(cycle: int32, total: int32)
    requires total <= cycle && cycle as int < MAX
    ensures var r := Deliver(ChainIntent(ThirdActivity, cycle, total, 2), true);
            Launched(r) == Some(CompletionIntent(total)) && !r.isTestRunning
  {
  }

  /** Second reporting completion (entered at step 2 or later of the last
      cycle) leaves the flag raised, and `onNewIntent` does not lower it. */
  lemma SecondCompletionKeepsFlag(cycle: int32, total: int32, index: int32)
    requires total <= cycle && cycle as int < MAX && 2 <= index as int < MAX
    ensures var r := Deliver(ChainIntent(SecondActivity, cycle, total, index), true);
            Launched(r) == Some(CompletionIntent(total)) && r.isTestRunning
  {
  }

  /** Whatever request starts it, the chain makes at most two more launches:
      Second passes on to Third, Main or completion; Third to Main or
      completion; and Main and completion pass on nothing. */
  lemma {:induction false} AtMostTwoHops(intent: Intent, isTestRunning: bool)
    ensures var r1 := Deliver(intent, isTestRunning);
            Launched(r1).Some? ==>
              var r2 := Deliver(Launched(r1).value, r1.isTestRunning);
              Launched(r2).Some? ==>
                Launched(Deliver(Launched(r2).value, r2.isTestRunning)).None?
  {
    var r1 := Deliver(intent, isTestRunning);
    if Launched(r1).Some? {
      var i2 := Launched(r1).value;
      assert i2.target != SecondActivity by { NeverLaunchesSecond(intent, isTestRunning); }
      var r2 := Deliver(i2, r1.isTestRunning);
      if Launched(r2).Some? {
        assert i2.target == ThirdActivity;
        var i3 := Launched(r2).value;
        assert i3.target == MainActivity || i3.target == StressTestActivity;
      }
    }
  }

  /** No screen of the chain ever asks for Second. */
  lemma NeverLaunchesSecond(intent: Intent, isTestRunning: bool)
    ensures Launched(Deliver(intent, isTestRunning)).Some? ==>
              Launched(Deliver(intent, isTestRunning)).value.target != SecondActivity
  {
  }
  /** Entered anywhere in the chain, Second launches exactly the request its
      step decides, and keeps the flag. */
  lemma SecondDeliversNext(cycle: int32, total: int32, index: int32)
    ensures var r := Deliver(ChainIntent(SecondActivity, cycle, total, index), true);
            Launched(r) == NextIntent(SecondNext(index, cycle, total, true), total) && r.isTestRunning
  {
  }

  /** Entered anywhere in the chain, Third launches exactly the request its
      step decides, and keeps the flag unless it reports completion. */
  lemma ThirdDeliversNext(cycle: int32, total: int32, index: int32)
    ensures var r := Deliver(ChainIntent(ThirdActivity, cycle, total, index), true);
            Launched(r) == NextIntent(ThirdNext(cycle, total, true), total) &&
            (r.isTestRunning <==> !ThirdNext(cycle, total, true).Complete?)
  {
  }

  /** A request that carries only the stress-mode flag: the missing cycle,
      total and index all read as 0. Second then goes on to Third as step 1
      of cycle 0; Third finds cycle 1 above total 0 and reports completion
      of 0 cycles, lowering the flag. */
  lemma MissingExtrasReadAsZero()
    ensures var bare := map[ExtraStressTestMode := BoolExtra(true)];
            var r2 := Deliver(Intent(SecondActivity, bare, false), true);
            var r3 := Deliver(Intent(ThirdActivity, bare, false), true);
            Launched(r2) == Some(ChainIntent(ThirdActivity, 0, 0, 1)) && r2.isTestRunning &&
            Launched(r3) == Some(CompletionIntent(0)) && !r3.isTestRunning
  {
  }
}
