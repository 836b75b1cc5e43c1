/** `SecondActivity` in stress-test mode: one step of the chain, taken 200 ms
    after creation (the delay is only ordering here). */
module SecondScreen {
  import opened Int32
  import opened Intents
  import opened StressTest

  /** The step's decision: go on to Third within a cycle, start the next
      cycle at Main, or report completion. */
  function SecondNext(index: int32, cycle: int32, total: int32, isTestRunning: bool): (r: Next)
    ensures r.Abort? <==> !isTestRunning
    ensures r.GoTo? ==> r.screen == ThirdActivity || r.screen == MainActivity
    ensures r.GoTo? && r.screen == ThirdActivity ==> r.cycle == cycle && r.index == Plus(index, 1)
    ensures r.GoTo? && r.screen == MainActivity ==> r.cycle == Plus(cycle, 1) && r.index == 0
    ensures index as int < MAX ==> (r.GoTo? && r.screen == ThirdActivity <==> isTestRunning && index < 2)
    ensures isTestRunning && 2 <= index as int < MAX && cycle as int < MAX ==> (r.Complete? <==> cycle >= total)
    ensures r.Complete? ==> r.total == total
    ensures r.GoTo? && r.screen == MainActivity && cycle as int < MAX ==> r.cycle as int == cycle as int + 1
  {
    if !isTestRunning then Abort
    else
      var nextActivityIndex := Plus(index, 1);
      if nextActivityIndex < 3 then GoTo(ThirdActivity, cycle, nextActivityIndex)
      else
        var nextCycle := Plus(cycle, 1);
        if nextCycle <= total then GoTo(MainActivity, nextCycle, 0) else Complete(total)
  }

  /** The posted callback of `handleStressTestMode`, with missing extras read
      as 0: at most one launch, then `finish()`; the flag is never written. */
  function SecondCallback(intent: Intent, isTestRunning: bool): (r: Reaction)
    ensures r.isTestRunning == isTestRunning
    ensures |r.actions| == (if isTestRunning then 2 else 1)
    ensures r.actions[|r.actions| - 1] == Finish(SecondActivity)
    ensures isTestRunning ==> r.actions[0].StartActivity?
  {
    var cycle := GetIntExtra(intent, ExtraCurrentCycle, 0);
    var total := GetIntExtra(intent, ExtraTotalCycles, 0);
    var activityIndex := GetIntExtra(intent, ExtraActivityIndex, 0);
    var next := SecondNext(activityIndex, cycle, total, isTestRunning);
    Reaction(Launches(NextIntent(next, total)) + [Finish(SecondActivity)], isTestRunning)
  }

  /** The step as the activity runs it against the process-wide state. */
  method HandleStressTestMode(host: Host, intent: Intent)
    modifies host
    ensures host.actions == old(host.actions) + SecondCallback(intent, old(host.isTestRunning)).actions
    ensures host.isTestRunning == old(host.isTestRunning)
  {
    var cycle := GetIntExtra(intent, ExtraCurrentCycle, 0);
    var total := GetIntExtra(intent, ExtraTotalCycles, 0);
    var activityIndex := GetIntExtra(intent, ExtraActivityIndex, 0);
    if !host.isTestRunning {
      host.actions := host.actions + [Finish(SecondActivity)];
      return;
    }
    var nextActivityIndex := Plus(activityIndex, 1);
    if nextActivityIndex < 3 {
      host.actions := host.actions + [StartActivity(ChainIntent(ThirdActivity, cycle, total, nextActivityIndex))];
    } else {
      var nextCycle := Plus(cycle, 1);
      if nextCycle <= total {
        host.actions := host.actions + [StartActivity(ChainIntent(MainActivity, nextCycle, total, 0))];
      } else {
        host.actions := host.actions + [StartActivity(CompletionIntent(total))];
      }
    }
    host.actions := host.actions + [Finish(SecondActivity)];
  }
}
