/** `ThirdActivity` in stress-test mode: the last screen of a cycle. It reads
    no activity index. */
module ThirdScreen {
  import opened Int32
  import opened Intents
  import opened StressTest

  /** The step's decision: start the next cycle at Main, or report completion. */
  function ThirdNext(cycle: int32, total: int32, isTestRunning: bool): (r: Next)
    ensures r.Abort? <==> !isTestRunning
    ensures r.GoTo? ==> r.screen == MainActivity && r.index == 0 && r.cycle == Plus(cycle, 1)
    ensures isTestRunning && cycle as int < MAX ==> (r.Complete? <==> cycle >= total)
    ensures r.GoTo? && cycle as int < MAX ==> r.cycle > cycle
    ensures r.Complete? ==> r.total == total
  {
    if !isTestRunning then Abort
    else
      var nextCycle := Plus(cycle, 1);
      if nextCycle <= total then GoTo(MainActivity, nextCycle, 0) else Complete(total)
  }

  /** The posted callback of `handleStressTestMode`: at most one launch, then
      `finish()`; completion also clears the flag. */
  function ThirdCallback(intent: Intent, isTestRunning: bool): (r: Reaction)
    ensures |r.actions| == (if isTestRunning then 2 else 1)
    ensures r.actions[|r.actions| - 1] == Finish(ThirdActivity)
    ensures isTestRunning ==> r.actions[0].StartActivity?
    ensures r.isTestRunning <==> isTestRunning && r.actions[0].intent.target == MainActivity
  {
    var cycle := GetIntExtra(intent, ExtraCurrentCycle, 0);
    var total := GetIntExtra(intent, ExtraTotalCycles, 0);
    var next := ThirdNext(cycle, total, isTestRunning);
    Reaction(Launches(NextIntent(next, total)) + [Finish(ThirdActivity)], isTestRunning && !next.Complete?)
  }

  /** The step as the activity runs it against the process-wide state. */
  method HandleStressTestMode(host: Host, intent: Intent)
    modifies host
    ensures host.actions == old(host.actions) + ThirdCallback(intent, old(host.isTestRunning)).actions
    ensures host.isTestRunning == ThirdCallback(intent, old(host.isTestRunning)).isTestRunning
  {
    var cycle := GetIntExtra(intent, ExtraCurrentCycle, 0);
    var total := GetIntExtra(intent, ExtraTotalCycles, 0);
    if !host.isTestRunning {
      host.actions := host.actions + [Finish(ThirdActivity)];
      return;
    }
    var nextCycle := Plus(cycle, 1);
    if nextCycle <= total {
      host.actions := host.actions + [StartActivity(ChainIntent(MainActivity, nextCycle, total, 0))];
    } else {
      host.isTestRunning := false;
      host.actions := host.actions + [StartActivity(CompletionIntent(total))];
    }
    host.actions := host.actions + [Finish(ThirdActivity)];
  }

  /** At cycle 2^31-1 the next cycle wraps to -2^31, which is never above the
      total: the step starts another cycle instead of completing. */
  lemma CycleWrapsAtIntMax(total: int32)
    ensures ThirdNext(MAX as int32, total, true) == GoTo(MainActivity, MIN as int32, 0)
  {
  }
}
