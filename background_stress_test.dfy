/** `BackgroundStressTestActivity`: sends the app to the background and brings
    it back, `totalCycles` times. Handler callbacks are a queue of pending
    continuations; the host may run any of them next, so the 500/1000/2000 ms
    delays become ordering only. `moveTaskToBack` and the reorder-to-front
    `startActivity` are recorded as host requests, and the host's
    `onResume`/`onStop` are explicit events. */
module BackgroundCycle {
  import opened Int32

  const DefaultCycles: int32 := 20

  /** The three callbacks the activity posts. */
  datatype Callback =
    | AfterStart        // posted by startBackgroundTest: go to background
    | AfterBackground   // posted by goToBackground: bring to foreground
    | AfterForeground   // posted by onResume: count the cycle, go on or complete

  datatype HostRequest = MoveTaskToBack | ReorderToFront

  /** The activity's fields, the companion's `isTestRunning`, the handler's
      queue and the requests made of the host so far. */
  datatype State = State(
    currentCycle: int32,
    totalCycles: int32,
    isRunning: bool,
    isInBackground: bool,
    isTestRunning: bool,
    pending: seq<Callback>,
    requests: seq<HostRequest>)

  /** `startBackgroundTest(cycles)`: the queue is not cleared, one callback is
      added. */
  function Start(s: State, cycles: int32): (r: State)
    ensures r.currentCycle == 1 && r.totalCycles == cycles && r.isRunning && r.isTestRunning
    ensures r.pending == s.pending + [AfterStart]
    ensures r.isInBackground == s.isInBackground && r.requests == s.requests
  {
    s.(currentCycle := 1, totalCycles := cycles, isRunning := true, isTestRunning := true,
       pending := s.pending + [AfterStart])
  }

  /** `goToBackground()`: guarded by `isRunning`. */
  function GoToBackground(s: State): (r: State)
    ensures !s.isRunning ==> r == s
    ensures s.isRunning ==> r == s.(isInBackground := true, pending := s.pending + [AfterBackground],
                                    requests := s.requests + [MoveTaskToBack])
  {
    if !s.isRunning then s
    else s.(isInBackground := true, pending := s.pending + [AfterBackground], requests := s.requests + [MoveTaskToBack])
  }

  /** `bringToForeground()`: guarded by `isRunning`; only asks the host. */
  function BringToForeground(s: State): (r: State)
    ensures !s.isRunning ==> r == s
    ensures s.isRunning ==> r == s.(requests := s.requests + [ReorderToFront])
  {
    if !s.isRunning then s else s.(requests := s.requests + [ReorderToFront])
  }

  /** `onResume()`: acts only when running and back from the background. */
  function OnResume(s: State): (r: State)
    ensures !(s.isRunning && s.isInBackground) ==> r == s
    ensures s.isRunning && s.isInBackground ==> r == s.(isInBackground := false, pending := s.pending + [AfterForeground])
  {
    if s.isRunning && s.isInBackground then s.(isInBackground := false, pending := s.pending + [AfterForeground]) else s
  }

  /** `onStop()`: notes an unexpected trip to the background. */
  function OnStop(s: State): (r: State)
    ensures r == s.(isInBackground := s.isInBackground || s.isRunning)
  {
    if s.isRunning && !s.isInBackground then s.(isInBackground := true) else s
  }

  /** `onDestroy()`: drops the queue and lowers the companion flag, but leaves
      `isRunning` as it is. */
  function OnDestroy(s: State): (r: State)
    ensures r == s.(pending := [], isTestRunning := false)
  {
    s.(pending := [], isTestRunning := false)
  }

  /** `completeTest()`. */
  function CompleteTest(s: State): (r: State)
    ensures r == s.(isRunning := false, isTestRunning := false)
  {
    s.(isRunning := false, isTestRunning := false)
  }

  /** `stopTest()`: drops the queue and lowers every flag. */
  function StopTest(s: State): (r: State)
    ensures r == s.(pending := [], isRunning := false, isTestRunning := false, isInBackground := false)
  {
    s.(pending := [], isRunning := false, isTestRunning := false, isInBackground := false)
  }

  /** The body of a callback when it runs. Each one first re-checks
      `isRunning`, so a stale callback changes nothing. */
  function Run(s: State, callback: Callback): (r: State)
    ensures !s.isRunning ==> r == s
    ensures r.totalCycles == s.totalCycles
    ensures r.isRunning ==> s.isRunning && r.isTestRunning == s.isTestRunning
    ensures s.isRunning && !r.isRunning ==> !r.isTestRunning
    ensures r.pending == s.pending || r.pending == s.pending + [AfterBackground]
  {
    if !s.isRunning then s
    else match callback
      case AfterStart => GoToBackground(s)
      case AfterBackground => BringToForeground(s)
      case AfterForeground =>
        var t := s.(currentCycle := Plus(s.currentCycle, 1));
        if t.currentCycle <= t.totalCycles then GoToBackground(t) else CompleteTest(t)
  }

  function Remove(q: seq<Callback>, i: nat): (r: seq<Callback>)
    requires i < |q|
    ensures |r| == |q| - 1
  {
    q[..i] + q[i + 1..]
  }

  /** The handler runs the `i`-th pending callback, removing it from the queue. */
  function Fire(s: State, i: nat): (r: State)
    requires i < |s.pending|
    ensures !s.isRunning ==> r == s.(pending := Remove(s.pending, i))
    ensures r.totalCycles == s.totalCycles
  {
    Run(s.(pending := Remove(s.pending, i)), s.pending[i])
  }

  /** Every callback still queued after the test stopped, run in order. */
  function Drain(s: State): State
    requires !s.isRunning
    decreases |s.pending|
  {
    if s.pending == [] then s else Drain(Fire(s, 0))
  }

  /** Callbacks left over after stop or completion all fire without effect:
      running the whole queue only empties it. */
  lemma {:induction false} StaleCallbacksDrain(s: State)
    requires !s.isRunning
    ensures Drain(s) == s.(pending := [])
    decreases |s.pending|
  {
    if s.pending != [] {
      StaleCallbacksDrain(Fire(s, 0));
    }
  }

  /** Once stopped, nothing is pending, and neither lifecycle events nor the
      guarded steps change anything. */
  lemma {:induction false} StoppedStaysStopped(s: State)
    ensures var t := StopTest(s);
            t.pending == [] && OnResume(t) == t && OnStop(t) == t && GoToBackground(t) == t && BringToForeground(t) == t
  {
  }

  /** Stopping twice is stopping once. */
  lemma StopIdempotent(s: State)
    ensures StopTest(StopTest(s)) == StopTest(s)
  {
  }

  /** Running the next pending callback, if there is one. */
  function FireFirst(s: State): (r: State)
    ensures s.pending == [] ==> r == s
  {
    if s.pending == [] then s else Fire(s, 0)
  }

  /** One well-behaved host round from the background: the dwell callback asks
      for the foreground, the host resumes the activity, the foreground
      callback counts the cycle, and the host reports the stop that follows a
      new trip to the background. */
  function Round(s: State): State {
    OnStop(FireFirst(OnResume(FireFirst(s))))
  }

  function Rounds(s: State, m: nat): State
    decreases m
  {
    if m == 0 then s else Rounds(Round(s), m - 1)
  }

  /** In the background during cycle `k` of `n`, waiting for the dwell callback. */
  predicate Backgrounded(s: State, k: int, n: int) {
    s.isRunning && s.isInBackground && s.isTestRunning && s.pending == [AfterBackground] &&
    s.currentCycle as int == k && s.totalCycles as int == n
  }

  /** Completed by `completeTest` with the counter at `c`, out of `n`. */
  predicate Finished(s: State, c: int, n: int) {
    !s.isRunning && !s.isInBackground && !s.isTestRunning && s.pending == [] &&
    s.currentCycle as int == c && s.totalCycles as int == n
  }

  /** Completed after `n` cycles: the counter ends one past the total. */
  predicate Completed(s: State, n: int) {
    Finished(s, n + 1, n)
  }

  /** The host requests of `m` full cycles: to the back, then to the front. */
  function Alternating(m: nat): (r: seq<HostRequest>)
    ensures |r| == 2 * m
  {
    if m == 0 then [] else [MoveTaskToBack, ReorderToFront] + Alternating(m - 1)
  }

  /** The requests made from the background in cycle `k` of `n` until completion. */
  function Remaining(j: nat): seq<HostRequest> {
    if j == 0 then [ReorderToFront] else [ReorderToFront, MoveTaskToBack] + Remaining(j - 1)
  }

  lemma {:induction false} AlternatingSplit(j: nat)
    ensures [MoveTaskToBack] + Remaining(j) == Alternating(j + 1)
  {
    if j > 0 {
      AlternatingSplit(j - 1);
      calc {
        [MoveTaskToBack] + Remaining(j);
        [MoveTaskToBack, ReorderToFront] + ([MoveTaskToBack] + Remaining(j - 1));
        [MoveTaskToBack, ReorderToFront] + Alternating(j);
      }
    }
  }

  /** One round moves cycle `k` on to `k + 1`, or completes when `k` was the
      last cycle. */
  lemma RoundStep(s: State, k: int, n: int)
    requires Backgrounded(s, k, n) && k < MAX
    ensures k + 1 <= n ==> Backgrounded(Round(s), k + 1, n) &&
                           Round(s).requests == s.requests + [ReorderToFront, MoveTaskToBack]
    ensures n < k + 1 ==> Finished(Round(s), k + 1, n) && Round(s).requests == s.requests + [ReorderToFront]
  {
    var s1 := FireFirst(s);
    assert s1 == s.(pending := [], requests := s.requests + [ReorderToFront]);
    var s2 := OnResume(s1);
    assert s2.pending == [AfterForeground];
    var s3 := FireFirst(s2);
    assert s3.currentCycle as int == k + 1;
  }

  /** From the background in cycle `k`, the remaining `n - k + 1` rounds
      complete the test. */
  lemma {:induction false} RoundsComplete(s: State, k: int, n: int)
    requires Backgrounded(s, k, n) && 1 <= k <= n < MAX
    ensures Completed(Rounds(s, n - k + 1), n)
    ensures Rounds(s, n - k + 1).requests == s.requests + Remaining(n - k)
    decreases n - k
  {
    RoundStep(s, k, n);
    var next := Round(s);
    if k == n {
      assert Rounds(s, 1) == Rounds(next, 0) == next;
    } else {
      RoundsComplete(next, k + 1, n);
      assert Rounds(s, n - k + 1) == Rounds(next, n - k);
      assert next.requests == s.requests + [ReorderToFront, MoveTaskToBack];
      assert Remaining(n - k) == [ReorderToFront, MoveTaskToBack] + Remaining(n - k - 1);
    }
  }

  /** The start step: the start callback sends the app to the background in
      cycle 1. */
  function Launch(s: State, n: int32): State {
    OnStop(FireFirst(Start(s, n)))
  }

  /** A test of `n` cycles started with an empty queue, on a host that resumes
      the activity once per trip to the background, ends completed with
      `currentCycle == n + 1`, after exactly `n` trips to the background and
      `n` returns to the foreground, alternating. */
  lemma RunToCompletion(s: State, n: int32)
    requires s.pending == [] && 1 <= n as int < MAX
    ensures Completed(Rounds(Launch(s, n), n as nat), n as int)
    ensures Rounds(Launch(s, n), n as nat).requests == s.requests + Alternating(n as nat)
  {
    var b := Launch(s, n);
    assert Start(s, n).pending == [AfterStart];
    assert Backgrounded(b, 1, n as int) && b.requests == s.requests + [MoveTaskToBack];
    RoundsComplete(b, 1, n as int);
    AlternatingSplit(n as nat - 1);
  }

  /** With `totalCycles == 2^31-1` the counter wraps from 2^31-1 to -2^31,
      which is never above the total: the test never completes. */
  lemma CounterWrapsAtIntMax(s: State)
    requires Backgrounded(s, MAX, MAX)
    ensures Backgrounded(Round(s), MIN, MAX)
  {
    var s2 := OnResume(FireFirst(s));
    assert s2.pending == [AfterForeground];
  }

  /** A test started with zero or fewer cycles still goes to the background
      once: nothing checks the total before the first trip. */
  lemma NonPositiveTotalRunsOnce(s: State, n: int32)
    requires s.pending == [] && n <= 0
    ensures Backgrounded(Launch(s, n), 1, n as int)
    ensures Finished(Round(Launch(s, n)), 2, n as int)
  {
    var b := Launch(s, n);
    assert Start(s, n).pending == [AfterStart];
    RoundStep(b, 1, n as int);
  }
}

/** The activity itself: its fields and handler queue, updated in place, each
    method proved against the matching step of `BackgroundCycle`. */
module BackgroundStressTest {
  import opened Int32
  import Cycle = BackgroundCycle

  class BackgroundStressTestActivity {
    var currentCycle: int32
    var totalCycles: int32
    var isRunning: bool
    var isInBackground: bool
    /** The companion object's `isTestRunning`; nothing else in the app reads it. */
    var isTestRunning: bool
    /** The handler's pending callbacks. */
    var pending: seq<Cycle.Callback>
    /** The requests made of the host, in order. */
    var requests: seq<Cycle.HostRequest>

    function Snapshot(): Cycle.State
      reads this
    {
      Cycle.State(currentCycle, totalCycles, isRunning, isInBackground, isTestRunning, pending, requests)
    }

    /** The field initialisers; the companion flag keeps its process-wide value. */
    constructor (isTestRunning: bool)
      ensures Snapshot() == Cycle.State(0, Cycle.DefaultCycles, false, false, isTestRunning, [], [])
    {
      currentCycle := 0;
      totalCycles := Cycle.DefaultCycles;
      isRunning := false;
      isInBackground := false;
      this.isTestRunning := isTestRunning;
      pending := [];
      requests := [];
    }

    method StartBackgroundTest(cycles: int32)
      modifies this
      ensures Snapshot() == Cycle.Start(old(Snapshot()), cycles)
    {
      currentCycle := 1;
      totalCycles := cycles;
      isRunning := true;
      isTestRunning := true;
      pending := pending + [Cycle.AfterStart];
    }

    method GoToBackground()
      modifies this
      ensures Snapshot() == Cycle.GoToBackground(old(Snapshot()))
    {
      if !isRunning {
        return;
      }
      isInBackground := true;
      requests := requests + [Cycle.MoveTaskToBack];
      pending := pending + [Cycle.AfterBackground];
    }

    method BringToForeground()
      modifies this
      ensures Snapshot() == Cycle.BringToForeground(old(Snapshot()))
    {
      if !isRunning {
        return;
      }
      requests := requests + [Cycle.ReorderToFront];
    }

    method OnResume()
      modifies this
      ensures Snapshot() == Cycle.OnResume(old(Snapshot()))
    {
      if isRunning && isInBackground {
        isInBackground := false;
        pending := pending + [Cycle.AfterForeground];
      }
    }

    method OnStop()
      modifies this
      ensures Snapshot() == Cycle.OnStop(old(Snapshot()))
    {
      if isRunning && !isInBackground {
        isInBackground := true;
      }
    }

    method OnDestroy()
      modifies this
      ensures Snapshot() == Cycle.OnDestroy(old(Snapshot()))
    {
      pending := [];
      isTestRunning := false;
    }

    method CompleteTest()
      modifies this
      ensures Snapshot() == Cycle.CompleteTest(old(Snapshot()))
    {
      isRunning := false;
      isTestRunning := false;
    }

    method StopTest()
      modifies this
      ensures Snapshot() == Cycle.StopTest(old(Snapshot()))
    {
      pending := [];
      isRunning := false;
      isTestRunning := false;
      isInBackground := false;
    }

    /** The handler runs the `i`-th pending callback. */
    method FireCallback(i: nat)
      requires i < |pending|
      modifies this
      ensures Snapshot() == Cycle.Fire(old(Snapshot()), i)
    {
      var callback := pending[i];
      pending := pending[..i] + pending[i + 1..];
      if !isRunning {
        return;
      }
      match callback
      case AfterStart =>
        GoToBackground();
      case AfterBackground =>
        BringToForeground();
      case AfterForeground =>
        currentCycle := Plus(currentCycle, 1);
        if currentCycle <= totalCycles {
          GoToBackground();
        } else {
          CompleteTest();
        }
    }
  }
}
