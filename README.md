# BrazeMemoryLeak stress-test drivers and data glue, in Dafny

This project models the sequencing logic of the BrazeMemoryLeak demo Android
app, and the small pure transformations around its image galleries.

* **Navigation-chain driver.** `StressTestActivity` starts a chain of screens
  Main → Second → Third. The chain's state (cycle, total, activity index)
  travels in intent extras, and the process-wide flag
  `StressTestActivity.isTestRunning` cancels it. Each screen's
  `handleStressTestMode` is a pure step (`SecondScreen.SecondNext`,
  `ThirdScreen.ThirdNext`) returning `Abort`, `GoTo(screen, cycle, index)` or
  `Complete(total)`. A `Host` object holds the flag and the ordered log of
  `startActivity`/`finish` requests. `NavigationChain.Deliver` says what the
  receiving screen does with a request, and the lemmas there follow the chain.
  Three quirks of the code are kept as written:
  - `MainActivity` never reads the stress extras, so the chain that
    `startStressTest` starts stops at Main (`StartedChainStopsAtMain`), and no
    chain makes more than two hops (`AtMostTwoHops`).
  - `ThirdActivity` lowers the flag on completion; `SecondActivity` does not.
  - `onNewIntent` never touches the flag.
* **Background/foreground driver.** `BackgroundCycle` is the activity's state
  machine over a value `State`: the fields, the companion's own
  `isTestRunning`, the handler's queue of pending callbacks, and the host
  requests made so far. `BackgroundStressTest.BackgroundStressTestActivity`
  is the class that updates those fields in place. Each of its methods is
  proved equal to the matching `BackgroundCycle` step. The host may run any
  pending callback next (`Fire(s, i)`), so the 500/1000/2000 ms delays only
  affect order. The host's `onResume` and `onStop` are explicit events.
  `RunToCompletion` proves a full run: on a host that resumes once per trip to
  the background, an `n`-cycle test ends completed with `currentCycle == n + 1`,
  after exactly `n` trips to the background and `n` trips back, alternating.
* **Pure transformations.**
  - The flattening in `SpaceXApiClient.getLaunches` (`SpaceXApi`).
  - The key arithmetic of both paging sources (`Paging`, `ImagePaging`,
    `SpaceXPaging`).
  - The response classification in `GraphQLApiClient` (`GraphQL`).
  - The last-screen preference (`Preferences`), with the DataStore as a
    `map<string, string>`.

Kotlin's `Int` is 32 bits wide. Every `+`, `-` and `*` on it goes through
`Int32.Wrap`, which wraps around. Contracts say what holds without overflow,
and lemmas show what the wrap does:
- At cycle 2^31-1 both drivers wrap to -2^31 and never complete
  (`ThirdScreen.CycleWrapsAtIntMax`, `BackgroundCycle.CounterWrapsAtIntMax`).
- Page arithmetic stays consistent modulo 2^32 (`SpaceXPaging.NextPageIsAdjacent`,
  `ImagePaging.RefreshRecoversPage`).

Facts of the code that the model keeps as they are:
- `StressTestActivity` has no stop action; only the flag cancels a chain.
- The background driver completes with `currentCycle == totalCycles + 1`.
- A navigation run stops at Main.
- The two activities have separate companion flags. Nothing reads
  `BackgroundStressTestActivity`'s, and its `onDestroy` lowers that flag but
  leaves `isRunning` set.

Apollo's `Error.message` is non-null, so once `hasErrors()` holds there is a
first error with a message. The `"Unknown GraphQL error"` default is therefore
never used (`GraphQL.Classify` states the failure message is the first error's).

## Model

| member | source | states |
|---|---|---|
| `Intents.GetIntExtra` | app/src/main/java/com/example/brazememoryleak/SecondActivity.kt:71-73 | a missing extra, or one of another type, reads as the caller's default; a stored Int reads back unchanged |
| `Intents.GetBooleanExtra` | app/src/main/java/com/example/brazememoryleak/SecondActivity.kt:34 | a missing or mistyped extra reads as the default; a stored Boolean reads back unchanged |
| `StressTest.ChainIntent` | app/src/main/java/com/example/brazememoryleak/StressTestActivity.kt:111-116 | a chain request carries `stress_test_mode=true` and reads back the given cycle, total and index whatever the reader's defaults; it carries no completion extras and no CLEAR_TOP |
| `StressTest.CompletionIntent` | app/src/main/java/com/example/brazememoryleak/SecondActivity.kt:105-109 | the completion request targets `StressTestActivity` with CLEAR_TOP, `test_completed=true` and reads back the given count; it carries no cycle, index or stress-mode extra |
| `StressTest.NextIntent` | app/src/main/java/com/example/brazememoryleak/SecondActivity.kt:81-111 | `Abort` launches nothing; `GoTo` launches the chain request for that screen, cycle and index with the total unchanged; `Complete(t)` launches the completion request with count `t` |
| `StressTest.ChainTarget` | app/src/main/java/com/example/brazememoryleak/StressTestActivity.kt:102-107 | index 0, 1, 2 map to Main, Second, Third (each an if-and-only-if); every other index maps to nothing; never to `StressTestActivity` |
| `StressTest.ChainLaunch` | app/src/main/java/com/example/brazememoryleak/StressTestActivity.kt:96-119 | a launch happens if and only if `isRunning`, `isTestRunning` and `0 <= index <= 2`; it is the chain request for that index's screen with cycle, total and index unchanged |
| `StressTest.Restores` | app/src/main/java/com/example/brazememoryleak/StressTestActivity.kt:57-61 | `onCreate` restores if and only if the flag is set and the request carries a non-negative Int cycle and a non-negative Int index |
| `StressTest.CompletedCycles` | app/src/main/java/com/example/brazememoryleak/StressTestActivity.kt:121-130 | a count is reported if and only if the completion flag is set; a missing count reads as 0 |
| `StressTest.CompletionRoundTrip` | app/src/main/java/com/example/brazememoryleak/StressTestActivity.kt:124-125 | `onNewIntent` reads back exactly the count the completion request was built with |
| `StressTest.CompletionNeverRestores` | app/src/main/java/com/example/brazememoryleak/StressTestActivity.kt:57-61 | a completion request never satisfies `onCreate`'s restore condition |
| `StressTest.Host.constructor` | app/src/main/java/com/example/brazememoryleak/StressTestActivity.kt:145-146 | the flag starts lowered and nothing has been requested of the host |
| `StressTest.StressTestActivity.constructor` | app/src/main/java/com/example/brazememoryleak/StressTestActivity.kt:48-50 | fields start at cycle 0, total 20, not running |
| `StressTest.StressTestActivity.OnCreate` | app/src/main/java/com/example/brazememoryleak/StressTestActivity.kt:57-66 | restores cycle, total and `isRunning=true` only when cycle >= 0, index >= 0 (missing reads as -1) and the flag is set; otherwise every field keeps its value |
| `StressTest.StressTestActivity.StartStressTest` | app/src/main/java/com/example/brazememoryleak/StressTestActivity.kt:84-94 | sets cycle 1, total `n`, both flags, and makes exactly one request: Main, cycle 1, total `n`, index 0 |
| `StressTest.StressTestActivity.LaunchActivityInChain` | app/src/main/java/com/example/brazememoryleak/StressTestActivity.kt:96-119 | appends exactly the launch `ChainLaunch` allows, and changes nothing else |
| `StressTest.StressTestActivity.OnNewIntent` | app/src/main/java/com/example/brazememoryleak/StressTestActivity.kt:121-130 | a completion request stops the test and sets the cycle to the reported count; any other request changes nothing; the flag is never touched |
| `SecondScreen.SecondNext` | app/src/main/java/com/example/brazememoryleak/SecondActivity.kt:76-111 | aborts if and only if the flag is down; goes to Third with the same cycle and `index+1` if and only if running with `index < 2`; otherwise goes to Main with `cycle+1` and index 0, or completes with the total, and (without overflow) completes if and only if `cycle >= total` |
| `SecondScreen.SecondCallback` | app/src/main/java/com/example/brazememoryleak/SecondActivity.kt:70-115 | a running step makes exactly one launch and then finishes, an aborted one only finishes; the flag is left as it was, completion included |
| `SecondScreen.HandleStressTestMode` | app/src/main/java/com/example/brazememoryleak/SecondActivity.kt:75-114 | the host log grows by exactly the callback's actions and the flag is unchanged |
| `ThirdScreen.ThirdNext` | app/src/main/java/com/example/brazememoryleak/ThirdActivity.kt:75-100 | aborts if and only if the flag is down; any launch is Main with index 0 and `cycle+1`, strictly above the received cycle without overflow; (without overflow) completes if and only if `cycle >= total`, reporting the total |
| `ThirdScreen.ThirdCallback` | app/src/main/java/com/example/brazememoryleak/ThirdActivity.kt:70-103 | a running step makes exactly one launch then finishes; the flag stays raised if and only if it was raised and the launch is Main, so completion lowers it |
| `ThirdScreen.HandleStressTestMode` | app/src/main/java/com/example/brazememoryleak/ThirdActivity.kt:74-102 | the host log grows by exactly the callback's actions and the flag becomes the callback's |
| `ThirdScreen.CycleWrapsAtIntMax` | app/src/main/java/com/example/brazememoryleak/ThirdActivity.kt:81-82 | at cycle 2^31-1 the next cycle wraps to -2^31 and the step starts another cycle whatever the total |
| `NavigationChain.Deliver` | app/src/main/java/com/example/brazememoryleak/MainActivity.kt:28-55 | Main and `StressTestActivity` do nothing with a chain request; a lowered flag is never raised again by any screen |
| `NavigationChain.ClearedFlagStopsChain` | app/src/main/java/com/example/brazememoryleak/SecondActivity.kt:76-79 | with the flag down, no screen launches anything and the flag stays down |
| `NavigationChain.StartedChainStopsAtMain` | app/src/main/java/com/example/brazememoryleak/MainActivity.kt:28-33 | the request `startStressTest` makes is answered by no launch, with the flag still raised |
| `NavigationChain.SecondThirdThenNextCycle` | app/src/main/java/com/example/brazememoryleak/SecondActivity.kt:81-90 | entered at Second as step 1 of a cycle below the total, the chain goes to Third as step 2 and then to Main with the next cycle, flag raised |
| `NavigationChain.ThirdCompletesLastCycle` | app/src/main/java/com/example/brazememoryleak/ThirdActivity.kt:91-99 | in the last cycle Third requests completion with the total and lowers the flag |
| `NavigationChain.SecondCompletionKeepsFlag` | app/src/main/java/com/example/brazememoryleak/SecondActivity.kt:103-111 | Second requesting completion leaves the flag raised |
| `NavigationChain.AtMostTwoHops` | app/src/main/java/com/example/brazememoryleak/SecondActivity.kt:81-111 | from any request and flag, the third request of a chain launches nothing |
| `NavigationChain.NeverLaunchesSecond` | app/src/main/java/com/example/brazememoryleak/ThirdActivity.kt:84-98 | no screen's step ever requests Second |
| `NavigationChain.SecondDeliversNext` | app/src/main/java/com/example/brazememoryleak/SecondActivity.kt:70-111 | for every cycle, total and index, Second launches exactly the request of `SecondNext` and keeps the flag |
| `NavigationChain.ThirdDeliversNext` | app/src/main/java/com/example/brazememoryleak/ThirdActivity.kt:70-100 | for every cycle and total, Third launches exactly the request of `ThirdNext`, and keeps the flag if and only if it does not complete |
| `NavigationChain.MissingExtrasReadAsZero` | app/src/main/java/com/example/brazememoryleak/SecondActivity.kt:71-73 | with only the stress-mode extra, cycle, total and index read as 0: Second goes to Third as step 1 of cycle 0, and Third reports 0 completed cycles and lowers the flag |
| `BackgroundCycle.Start` | app/src/main/java/com/example/brazememoryleak/BackgroundStressTestActivity.kt:110-124 | cycle 1, total `n`, `isRunning` and the flag raised, exactly one callback queued behind the existing ones, nothing else changed |
| `BackgroundCycle.GoToBackground` | app/src/main/java/com/example/brazememoryleak/BackgroundStressTestActivity.kt:126-142 | a no-op when not running; otherwise in background, one `moveTaskToBack` request and exactly one foreground callback queued |
| `BackgroundCycle.BringToForeground` | app/src/main/java/com/example/brazememoryleak/BackgroundStressTestActivity.kt:144-154 | a no-op when not running; otherwise exactly one reorder-to-front request |
| `BackgroundCycle.OnResume` | app/src/main/java/com/example/brazememoryleak/BackgroundStressTestActivity.kt:75-94 | acts only when running and in background: clears `isInBackground` and queues exactly one cycle callback |
| `BackgroundCycle.OnStop` | app/src/main/java/com/example/brazememoryleak/BackgroundStressTestActivity.kt:96-102 | sets `isInBackground` only when running; nothing else changes |
| `BackgroundCycle.OnDestroy` | app/src/main/java/com/example/brazememoryleak/BackgroundStressTestActivity.kt:104-108 | empties the queue and lowers the flag, leaving `isRunning` and all else unchanged |
| `BackgroundCycle.CompleteTest` | app/src/main/java/com/example/brazememoryleak/BackgroundStressTestActivity.kt:156-161 | lowers `isRunning` and the flag, nothing else |
| `BackgroundCycle.StopTest` | app/src/main/java/com/example/brazememoryleak/BackgroundStressTestActivity.kt:163-170 | empties the queue and lowers `isRunning`, the flag and `isInBackground`, nothing else |
| `BackgroundCycle.Run` | app/src/main/java/com/example/brazememoryleak/BackgroundStressTestActivity.kt:83-92 | a callback run when not running changes nothing; a callback never changes the total, queues at most one `AfterBackground` callback, keeps the flag while the run goes on, and lowers it when it ends the run |
| `BackgroundCycle.Fire` | app/src/main/java/com/example/brazememoryleak/BackgroundStressTestActivity.kt:83-141 | running any of the three posted callbacks (after start, after the background dwell, after resume) keeps the total, and when not running only removes the callback from the queue |
| `BackgroundCycle.StaleCallbacksDrain` | app/src/main/java/com/example/brazememoryleak/BackgroundStressTestActivity.kt:137-141 | after stop or completion, running every leftover callback in turn changes nothing but emptying the queue |
| `BackgroundCycle.StoppedStaysStopped` | app/src/main/java/com/example/brazememoryleak/BackgroundStressTestActivity.kt:163-170 | after `stopTest` nothing is pending and `onResume`, `onStop`, `goToBackground`, `bringToForeground` change nothing |
| `BackgroundCycle.StopIdempotent` | app/src/main/java/com/example/brazememoryleak/BackgroundStressTestActivity.kt:163-170 | stopping twice gives the same state as stopping once |
| `BackgroundCycle.RoundStep` | app/src/main/java/com/example/brazememoryleak/BackgroundStressTestActivity.kt:83-92 | one round from the background in cycle `k` goes back to the background in cycle `k+1` when `k+1 <= n`, or completes with the counter at `k+1` |
| `BackgroundCycle.RoundsComplete` | app/src/main/java/com/example/brazememoryleak/BackgroundStressTestActivity.kt:85-90 | from the background in cycle `k <= n`, `n-k+1` rounds complete the test with the counter at `n+1` and the expected host requests |
| `BackgroundCycle.RunToCompletion` | app/src/main/java/com/example/brazememoryleak/BackgroundStressTestActivity.kt:110-161 | a started `n`-cycle test completes with `currentCycle == n+1`, both flags down, empty queue, after exactly `n` background and `n` foreground requests, alternating |
| `BackgroundCycle.CounterWrapsAtIntMax` | app/src/main/java/com/example/brazememoryleak/BackgroundStressTestActivity.kt:85-86 | with total 2^31-1 the counter wraps to -2^31 and the test goes back to the background instead of completing |
| `BackgroundCycle.NonPositiveTotalRunsOnce` | app/src/main/java/com/example/brazememoryleak/BackgroundStressTestActivity.kt:110-124 | a test started with a total of 0 or less still makes one trip to the background and completes with the counter at 2 |
| `BackgroundStressTest.BackgroundStressTestActivity.constructor` | app/src/main/java/com/example/brazememoryleak/BackgroundStressTestActivity.kt:49-55 | fields start at cycle 0, total 20, not running, not in background, empty queue |
| `BackgroundStressTest.BackgroundStressTestActivity.StartBackgroundTest` | app/src/main/java/com/example/brazememoryleak/BackgroundStressTestActivity.kt:110-124 | the new state is `BackgroundCycle.Start` of the old |
| `BackgroundStressTest.BackgroundStressTestActivity.GoToBackground` | app/src/main/java/com/example/brazememoryleak/BackgroundStressTestActivity.kt:126-142 | the new state is `BackgroundCycle.GoToBackground` of the old |
| `BackgroundStressTest.BackgroundStressTestActivity.BringToForeground` | app/src/main/java/com/example/brazememoryleak/BackgroundStressTestActivity.kt:144-154 | the new state is `BackgroundCycle.BringToForeground` of the old |
| `BackgroundStressTest.BackgroundStressTestActivity.OnResume` | app/src/main/java/com/example/brazememoryleak/BackgroundStressTestActivity.kt:75-94 | the new state is `BackgroundCycle.OnResume` of the old |
| `BackgroundStressTest.BackgroundStressTestActivity.OnStop` | app/src/main/java/com/example/brazememoryleak/BackgroundStressTestActivity.kt:96-102 | the new state is `BackgroundCycle.OnStop` of the old |
| `BackgroundStressTest.BackgroundStressTestActivity.OnDestroy` | app/src/main/java/com/example/brazememoryleak/BackgroundStressTestActivity.kt:104-108 | the new state is `BackgroundCycle.OnDestroy` of the old |
| `BackgroundStressTest.BackgroundStressTestActivity.CompleteTest` | app/src/main/java/com/example/brazememoryleak/BackgroundStressTestActivity.kt:156-161 | the new state is `BackgroundCycle.CompleteTest` of the old |
| `BackgroundStressTest.BackgroundStressTestActivity.StopTest` | app/src/main/java/com/example/brazememoryleak/BackgroundStressTestActivity.kt:163-170 | the new state is `BackgroundCycle.StopTest` of the old |
| `BackgroundStressTest.BackgroundStressTestActivity.FireCallback` | app/src/main/java/com/example/brazememoryleak/BackgroundStressTestActivity.kt:83-141 | the new state is `BackgroundCycle.Fire` of the old, for whichever pending callback the handler runs |
| `SpaceXApi.Decimal` | app/src/main/java/com/example/brazememoryleak/api/SpaceXApiClient.kt:52 | an index prints as a non-empty string of decimal digits, at least two from 10 on, starting with 0 only for 0 itself |
| `SpaceXApi.DecimalInjective` | app/src/main/java/com/example/brazememoryleak/api/SpaceXApiClient.kt:52 | two indices that print the same are equal |
| `SpaceXApi.DecimalValue` | app/src/main/java/com/example/brazememoryleak/api/SpaceXApiClient.kt:52 | the printed index spells the index in base 10 |
| `SpaceXApi.FilterNotNull` | app/src/main/java/com/example/brazememoryleak/api/SpaceXApiClient.kt:31 | keeps exactly the non-null entries (membership both ways), is no longer than its input, and is empty if and only if every entry is null |
| `SpaceXApi.FilterNotNullSingleton` | app/src/main/java/com/example/brazememoryleak/api/SpaceXApiClient.kt:31 | a single entry is kept if and only if it is not null |
| `SpaceXApi.FilterNotNullAppend` | app/src/main/java/com/example/brazememoryleak/api/SpaceXApiClient.kt:31 | filtering a concatenation is the concatenation of the filtered parts, so the kept URLs stay in list order with their repetitions |
| `SpaceXApi.IdText` | app/src/main/java/com/example/brazememoryleak/api/SpaceXApiClient.kt:52 | a missing launch or id prints as "null"; a present id prints as itself |
| `SpaceXApi.MissionName` | app/src/main/java/com/example/brazememoryleak/api/SpaceXApiClient.kt:26 | a missing launch or name becomes "Unknown Mission"; a present name is kept |
| `SpaceXApi.LaunchDate` | app/src/main/java/com/example/brazememoryleak/api/SpaceXApiClient.kt:27 | a missing launch or date becomes ""; a present date is kept |
| `SpaceXApi.Details` | app/src/main/java/com/example/brazememoryleak/api/SpaceXApiClient.kt:28 | missing details become ""; present ones are kept |
| `SpaceXApi.FlickrImages` | app/src/main/java/com/example/brazememoryleak/api/SpaceXApiClient.kt:31 | a missing launch, links or list gives no URLs; otherwise the list without its nulls |
| `SpaceXApi.PatchUrl` | app/src/main/java/com/example/brazememoryleak/api/SpaceXApiClient.kt:35 | `mission_patch` is preferred, `mission_patch_small` is the fallback, no links gives none |
| `SpaceXApi.LaunchImages` | app/src/main/java/com/example/brazememoryleak/api/SpaceXApiClient.kt:26-59 | `k >= 1` flickr URLs give exactly `k` images with ids `<id>_0`…`<id>_{k-1}` and the URLs in order; else one `<id>_patch` image of the patch URL, else none; a null launch gives none; every image carries the launch's name, date and details |
| `SpaceXApi.FlatMap` | app/src/main/java/com/example/brazememoryleak/api/SpaceXApiClient.kt:25-60 | no launches give no images; the first launch's images come first |
| `SpaceXApi.GetLaunches` | app/src/main/java/com/example/brazememoryleak/api/SpaceXApiClient.kt:17-61 | a null `data` or null `launches` gives the empty list; otherwise the flattened list |
| `SpaceXApi.FlatMapSingleton` | app/src/main/java/com/example/brazememoryleak/api/SpaceXApiClient.kt:25-59 | one launch flattens to exactly its own images, each once, so with `FlatMapAppend` the list holds every launch's images once, in launch order |
| `SpaceXApi.FlatMapAppend` | app/src/main/java/com/example/brazememoryleak/api/SpaceXApiClient.kt:25 | the images of two launch lists joined are the images of the first followed by those of the second: output order is launch order |
| `SpaceXApi.ImagesComeFromLaunches` | app/src/main/java/com/example/brazememoryleak/api/SpaceXApiClient.kt:25-58 | every output image belongs to one launch of the list and carries that launch's name, date and details |
| `SpaceXApi.IdsDistinctWithinLaunch` | app/src/main/java/com/example/brazememoryleak/api/SpaceXApiClient.kt:39-53 | no two images of one launch share an id |
| `SpaceXApi.NullsDroppedBeforeNumbering` | app/src/main/java/com/example/brazememoryleak/api/SpaceXApiClient.kt:31-58 | `[null, a, null, b]` gives exactly `<id>_0` for `a` and `<id>_1` for `b` |
| `Paging.RefreshKey` | app/src/main/java/com/example/brazememoryleak/paging/ImagePagingSource.kt:12-17 | no anchor gives no key; otherwise `prevKey+1` is preferred, `nextKey-1` is the fallback, and a page without keys gives none (SpaceXPagingSource.kt:12-17 is the same code) |
| `Paging.RefreshFromNeighbours` | app/src/main/java/com/example/brazememoryleak/paging/SpaceXPagingSource.kt:12-17 | a page whose keys are `p-1` (or no previous and `p+1`) refreshes to `p`, wrap-around included |
| `ImagePaging.PageOf` | app/src/main/java/com/example/brazememoryleak/paging/ImagePagingSource.kt:20 | an absent key loads page 1; a present key is used as is |
| `ImagePaging.Load` | app/src/main/java/com/example/brazememoryleak/paging/ImagePagingSource.kt:19-34 | the service gets that page and `limit = loadSize`; it throws if and only if the result is `Error`, with that exception; data is returned unchanged; `prevKey` is absent if and only if page 1, else `page-1`; `nextKey` is absent if and only if the data is empty, else `page+1` |
| `ImagePaging.RefreshRecoversPage` | app/src/main/java/com/example/brazememoryleak/paging/ImagePagingSource.kt:12-29 | refreshing from a loaded page gives that page's key, unless it is an empty page 1 |
| `ImagePaging.EmptyFirstPageHasNoRefreshKey` | app/src/main/java/com/example/brazememoryleak/paging/ImagePagingSource.kt:12-29 | an empty page 1 has no refresh key |
| `SpaceXPaging.PageOf` | app/src/main/java/com/example/brazememoryleak/paging/SpaceXPagingSource.kt:20 | an absent key loads page 0 |
| `SpaceXPaging.Offset` | app/src/main/java/com/example/brazememoryleak/paging/SpaceXPagingSource.kt:21 | without overflow the offset is `page * loadSize` |
| `SpaceXPaging.Load` | app/src/main/java/com/example/brazememoryleak/paging/SpaceXPagingSource.kt:19-36 | the client gets `limit = loadSize` and that offset; it throws if and only if `Error`; `prevKey` absent if and only if page 0, else `page-1`; `nextKey` absent if and only if no launches, else `page+1` |
| `SpaceXPaging.NextPageIsAdjacent` | app/src/main/java/com/example/brazememoryleak/paging/SpaceXPagingSource.kt:21 | page `p+1` asks for the offset of page `p` plus `loadSize`, as 32-bit Ints |
| `SpaceXPaging.WindowsDisjoint` | app/src/main/java/com/example/brazememoryleak/paging/SpaceXPagingSource.kt:21-27 | without overflow, the windows of two different non-negative pages do not overlap |
| `SpaceXPaging.RefreshRecoversPage` | app/src/main/java/com/example/brazememoryleak/paging/SpaceXPagingSource.kt:12-31 | refreshing from a loaded page gives that page's key, unless it is an empty page 0 |
| `Preferences.ValueOf` | app/src/main/java/com/example/brazememoryleak/data/AppPreferences.kt:33 | a string decodes to a tag if and only if it is that tag's name |
| `Preferences.LastActivity` | app/src/main/java/com/example/brazememoryleak/data/AppPreferences.kt:30-37 | a missing entry or one that is not a tag name decodes to `MAIN`; a stored tag name decodes to that tag |
| `Preferences.WithLastActivity` | app/src/main/java/com/example/brazememoryleak/data/AppPreferences.kt:43-47 | writes the tag's name under `last_activity`, adds no other key and leaves every other entry unchanged |
| `Preferences.SetThenGet` | app/src/main/java/com/example/brazememoryleak/data/AppPreferences.kt:30-46 | after writing a tag, decoding gives that tag |
| `Preferences.SetIdempotent` | app/src/main/java/com/example/brazememoryleak/data/AppPreferences.kt:44-46 | writing the same tag twice gives the store of writing it once |
| `Preferences.LastWriteWins` | app/src/main/java/com/example/brazememoryleak/data/AppPreferences.kt:44-46 | a second write replaces the first entirely |
| `Preferences.AppPreferences.constructor` | app/src/main/java/com/example/brazememoryleak/data/AppPreferences.kt:24-28 | the object wraps the given store |
| `Preferences.AppPreferences.GetLastActivity` | app/src/main/java/com/example/brazememoryleak/data/AppPreferences.kt:39-41 | a missing or unknown stored name reads as `MAIN`; a stored tag name reads as that tag |
| `Preferences.AppPreferences.SetLastActivity` | app/src/main/java/com/example/brazememoryleak/data/AppPreferences.kt:43-47 | the store becomes `WithLastActivity` of the old one, and `getLastActivity()` then returns the tag |
| `GraphQL.HasErrors` | app/src/main/java/com/example/brazememoryleak/api/GraphQLApiClient.kt:30 | false exactly when the error list is absent or empty; when true the first error's message is the one reported |
| `GraphQL.FirstErrorMessage` | app/src/main/java/com/example/brazememoryleak/api/GraphQLApiClient.kt:31 | the first error's message, or "Unknown GraphQL error" when there is no error |
| `GraphQL.Classify` | app/src/main/java/com/example/brazememoryleak/api/GraphQLApiClient.kt:29-39 | success if and only if there are no errors and data is present, carrying exactly that data; with errors a failure with the first error's message; no errors and no data is a failure with "No data returned" |
| `GraphQL.Query` | app/src/main/java/com/example/brazememoryleak/api/GraphQLApiClient.kt:26-44 | a thrown exception becomes a failure carrying it; success if and only if a response has no errors and has data, carrying that data |
| `GraphQL.Mutate` | app/src/main/java/com/example/brazememoryleak/api/GraphQLApiClient.kt:50-68 | the same outcome conditions as `query` |
| `GraphQL.ErrorsWinOverData` | app/src/main/java/com/example/brazememoryleak/api/GraphQLApiClient.kt:29-33 | a response with both data and errors is a failure with the first error's message |
| `GraphQL.MutateMatchesQuery` | app/src/main/java/com/example/brazememoryleak/api/GraphQLApiClient.kt:50-68 | `mutate` classifies every execution exactly as `query` does |

## Left out

- Compose UI (`StressTestScreen`, `BackgroundStressTestScreen`, the gallery screens, the theme), the progress bar's float division, and the `statusMessage` texts and `Log` calls.
- Android host machinery: Handler/Looper, intent delivery, `moveTaskToBack`, `startActivity` and `finish` are recorded requests or explicit event methods. The delays are ordering only, and any pending background callback may fire next.
- `@Volatile`: everything runs on the main thread, so each flag is a plain field.
- `BackgroundStressTest.BackgroundStressTestActivity`: its companion `isTestRunning` is a field of the one modelled instance rather than a process-wide global, as only one instance is ever live.
- Second and Third's 200 ms post is modelled as the callback running; what the activity shows between `onCreate` and the callback is UI.
- The non-stress path of `onCreate` in Main, Second and Third (writing the preference, rendering the gallery), `LauncherActivity`, and `SampleApplication` (a foreign SDK's setup).
- Network and dependency-injection wiring, the Apollo/Retrofit/OkHttp clients, `ImageApiService.getResizedUrl`, and the ViewModels' pager configuration. The service calls are abstract function inputs, and Apollo's `execute` is an abstract outcome.
- DataStore persistence itself: the store is a `map<string, string>`.
- `Paging.RefreshKey`: `closestPageToPosition` is the paging library's and is taken as an input function.
- `GraphQL`: the caught exception's own contents are abstract (`Thrown(description)`), and a `CancellationException` is treated like any other exception.
