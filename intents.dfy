/** The Android host's navigation requests: an `Intent` names the activity to
    start and carries a small map of typed extras. */
module Intents {
  import opened Int32

  datatype ActivityClass = MainActivity | SecondActivity | ThirdActivity | StressTestActivity

  datatype Extra = BoolExtra(b: bool) | IntExtra(i: int32)

  /** `clearTop` is `Intent.FLAG_ACTIVITY_CLEAR_TOP`. */
  datatype Intent = Intent(target: ActivityClass, extras: map<string, Extra>, clearTop: bool)

  /** What a screen asks of the host: start an activity, or finish itself. */
  datatype HostAction = StartActivity(intent: Intent) | Finish(screen: ActivityClass)

  /** `intent.getIntExtra(key, default)`: the stored Int, else the default
      (also when the key holds a value of another type). */
  function GetIntExtra(intent: Intent, key: string, default: int32): (v: int32)
    ensures key !in intent.extras ==> v == default
    ensures key in intent.extras && intent.extras[key].IntExtra? ==> v == intent.extras[key].i
    ensures key in intent.extras && !intent.extras[key].IntExtra? ==> v == default
  {
    if key in intent.extras && intent.extras[key].IntExtra? then intent.extras[key].i else default
  }

  /** `intent.getBooleanExtra(key, default)`. */
  function GetBooleanExtra(intent: Intent, key: string, default: bool): (v: bool)
    ensures key !in intent.extras ==> v == default
    ensures key in intent.extras && intent.extras[key].BoolExtra? ==> v == intent.extras[key].b
    ensures key in intent.extras && !intent.extras[key].BoolExtra? ==> v == default
  {
    if key in intent.extras && intent.extras[key].BoolExtra? then intent.extras[key].b else default
  }
}
