/** The app's preference store: one string entry, `last_activity`, holding the
    name of the screen shown last. The DataStore is a `map<string, string>`. */
module Preferences {
  import opened Optional

  datatype ActivityTag = MAIN | SECOND | THIRD

  const LastActivityKey: string := "last_activity"

  /** Kotlin's `ActivityTag.name`. */
  function Name(tag: ActivityTag): string {
    match tag
    case MAIN => "MAIN"
    case SECOND => "SECOND"
    case THIRD => "THIRD"
  }

  /** Kotlin's `ActivityTag.valueOf`: the tag whose name is exactly `s`, or the
      `IllegalArgumentException` it throws, as `None`. */
  function ValueOf(s: string): (r: Option<ActivityTag>)
    ensures r.Some? ==> Name(r.value) == s
    ensures forall tag :: Name(tag) == s ==> r == Some(tag)
  {
    if s == "MAIN" then Some(MAIN)
    else if s == "SECOND" then Some(SECOND)
    else if s == "THIRD" then Some(THIRD)
    else None
  }

  /** One element of `lastActivityFlow`: a missing entry reads as `MAIN`'s
      name, and a name that is not a tag falls back to `MAIN`. */
  function LastActivity(store: map<string, string>): (r: ActivityTag)
    ensures LastActivityKey !in store ==> r == MAIN
    ensures LastActivityKey in store && ValueOf(store[LastActivityKey]).None? ==> r == MAIN
    ensures LastActivityKey in store && r != MAIN ==> store[LastActivityKey] == Name(r)
    ensures LastActivityKey in store && ValueOf(store[LastActivityKey]).Some? ==>
              r == ValueOf(store[LastActivityKey]).value
  {
    var name := if LastActivityKey in store then store[LastActivityKey] else Name(MAIN);
    ValueOf(name).OrElse(MAIN)
  }

  /** The store after `setLastActivity(tag)`'s edit. */
  function WithLastActivity(store: map<string, string>, tag: ActivityTag): (r: map<string, string>)
    ensures LastActivityKey in r && r[LastActivityKey] == Name(tag)
    ensures r.Keys == store.Keys + {LastActivityKey}
    ensures forall k :: k in store && k != LastActivityKey ==> r[k] == store[k]
  {
    store[LastActivityKey := Name(tag)]
  }

  /** Round trip: what `setLastActivity` writes, `lastActivityFlow` reads back. */
  lemma SetThenGet(store: map<string, string>, tag: ActivityTag)
    ensures LastActivity(WithLastActivity(store, tag)) == tag
  {
    assert ValueOf(Name(tag)) == Some(tag);
  }

  /** Writing the same tag twice leaves the store as writing it once. */
  lemma SetIdempotent(store: map<string, string>, tag: ActivityTag)
    ensures WithLastActivity(WithLastActivity(store, tag), tag) == WithLastActivity(store, tag)
  {
  }

  /** A later write wins over an earlier one. */
  lemma LastWriteWins(store: map<string, string>, first: ActivityTag, second: ActivityTag)
    ensures WithLastActivity(WithLastActivity(store, first), second) == WithLastActivity(store, second)
  {
  }

  /** `AppPreferences`: the DataStore it edits in place. */
  class AppPreferences {
    var store: map<string, string>

    constructor (initial: map<string, string>)
      ensures store == initial
    {
      store := initial;
    }

    /** `getLastActivity()`: the first value of `lastActivityFlow`. */
    function GetLastActivity(): (r: ActivityTag)
      reads this
      ensures LastActivityKey !in store ==> r == MAIN
      ensures LastActivityKey in store && ValueOf(store[LastActivityKey]).None? ==> r == MAIN
      ensures LastActivityKey in store && ValueOf(store[LastActivityKey]).Some? ==>
                r == ValueOf(store[LastActivityKey]).value
    {
      LastActivity(store)
    }

    /** `setLastActivity(tag)`: writes the tag's name under `last_activity`. */
    method SetLastActivity(tag: ActivityTag)
      modifies this
      ensures store == WithLastActivity(old(store), tag)
      ensures GetLastActivity() == tag
    {
      store := store[LastActivityKey := Name(tag)];
      SetThenGet(old(store), tag);
    }
  }
}
