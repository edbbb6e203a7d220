# Feed demo: a Dafny model

This project models the core of a small Android feed screen written in Kotlin.
The screen shows an endless two-column grid of picture and video cards. It
supports pull-to-refresh, load-more near the end of the list and
long-press deletion. Video cards play a simulated ten-second countdown while
they are on screen.

The repository holds two parallel versions of this screen, and both are
modelled:

* **The modular app** (packages `repository`, `viewmodel`, `adapter`,
  `binders`, `util`):
  * `FeedRepository` builds pages of cards from random draws. It writes the
    first page to a snapshot store, and when page 1 fails it falls back to
    that snapshot.
  * `FeedViewModel` accumulates pages and publishes them.
  * `FeedAdapter` dispatches each card type to a registered binder.
  * `VideoCardBinder` owns the countdown of a video tile.
  * `LocalCacheManager` stores the snapshot as one JSON array under one
    preferences key.
* **The single-file version** (`MainActivity.kt`) has its own card record,
  generator, list controller and adapter. On top of them sits the activity,
  which tracks how much of each card is visible (NONE / PARTIAL / FULL). It
  starts and stops video countdowns by visibility, keeps a bounded on-screen
  log and triggers load-more.

| module | file | models |
|---|---|---|
| `FeedCard` | feed_card.dfy | the modular card record and its constants |
| `LocalCacheManager` | local_cache_manager.dfy | the snapshot store: save, load, the JSON shape |
| `FeedRepository` | feed_repository.dfy | the step-wise page generator, the snapshot write and the fallback |
| `FeedViewModel` | feed_view_model.dfy | `loadData`, split into its synchronous part and its coroutine, and `deleteItem` |
| `CountDownTimer` | count_down_timer.dfy | a holder's `timer` field and the timers it ever started |
| `VideoCardBinder` | video_card_binder.dfy | bind / start / stop / tick / finish of a video tile |
| `FeedAdapter` | feed_adapter.dfy | the binder registry, view types, item count, span sizes and dispatch |
| `ActivityCard`, `ActivityRepository`, `ActivityViewModel`, `ActivityAdapter` | activity_*.dfy | the single-file card, generator, controller and adapter |
| `MainActivity` | main_activity.dfy | the exposure state machine, its effects, the geometry of `checkExposure`, the log and load-more |
| `Nullable`, `Text` | nullable.dfy, text.dfy | `Option`, decimal rendering of numbers and `String.take` |

Objects whose fields the source updates are Dafny classes:
`CacheManager`, `Repository`, `ViewModel`, `VideoHolder`, `FeedViewHolder`,
`Adapter` and `Activity`. Each class has a `Snapshot()` function. Each method
states its new state as a pure function of the old one, and the lemmas
state the properties of those functions.

Randomness and the clock are inputs to the model:
* the failure roll, the per-step or per-card draws, and the UUIDs of new
  cards are parameters;
* the `HH:mm:ss` timestamp of a log line is a `clock` string parameter.

## Model

Source paths are relative to the repository root.

| member | source | states |
|---|---|---|
| Text.Take | MyApplication2/app/src/main/java/com/bytedance/myapplication/MainActivity.kt:388 | `take(n)` yields a prefix of at most n characters; the whole string when it is short enough, exactly n otherwise |
| Text.NatToStringInjective | MyApplication2/app/src/main/java/repository/FeedRepository.kt:55 | decimal rendering is injective, so the seed in a picture URL names one index |
| LocalCacheManager.ToRecord | MyApplication2/app/src/main/java/util/LocalCacheManager.kt:15-20 | the JSON object of a card carries its five fields unchanged |
| LocalCacheManager.FromRecord | MyApplication2/app/src/main/java/util/LocalCacheManager.kt:34-40 | rebuilding a card from a well-formed record and writing it back gives the same record (the id is kept, not regenerated) |
| LocalCacheManager.Serialize | MyApplication2/app/src/main/java/util/LocalCacheManager.kt:13-22 | one well-formed record per card |
| LocalCacheManager.DecodeEntries | MyApplication2/app/src/main/java/util/LocalCacheManager.kt:30-44 | the decoded cards are the records before the first malformed entry, in order; a parse error keeps what was read |
| LocalCacheManager.Load | MyApplication2/app/src/main/java/util/LocalCacheManager.kt:26-47 | a missing key, empty text or unparsable text loads as the empty list |
| LocalCacheManager.Save | MyApplication2/app/src/main/java/util/LocalCacheManager.kt:12-24 | the key now holds an array; every other key is untouched |
| LocalCacheManager.DecodeSerialize | MyApplication2/app/src/main/java/util/LocalCacheManager.kt:12-47 | decoding what was serialized gives back every card, field for field, in order |
| LocalCacheManager.LoadAfterSave | MyApplication2/app/src/main/java/util/LocalCacheManager.kt:12-47 | load after save returns exactly the saved list, whatever was stored before |
| LocalCacheManager.SaveOverwrites | MyApplication2/app/src/main/java/util/LocalCacheManager.kt:23 | a save overwrites: only the last save matters |
| LocalCacheManager.DecodeStopsAtMalformed | MyApplication2/app/src/main/java/util/LocalCacheManager.kt:32-44 | when entry i is the first malformed one, exactly the i records before it are loaded |
| LocalCacheManager.CacheManager.SaveCache | MyApplication2/app/src/main/java/util/LocalCacheManager.kt:12-24 | the loop builds the serialized array; the preferences become `Save(old, list)` |
| LocalCacheManager.CacheManager.LoadCache | MyApplication2/app/src/main/java/util/LocalCacheManager.kt:26-47 | the loop returns `Load(prefs)`, breaking at the first malformed entry |
| FeedRepository.CreateCard | MyApplication2/app/src/main/java/repository/FeedRepository.kt:49-59 | full-row exactly when single, video exactly when flagged; the title and URL carry page and index |
| FeedRepository.Plan | MyApplication2/app/src/main/java/repository/FeedRepository.kt:21-35 | the loop emits between 10-count and 11-count shapes from `count` on, nothing once 10 exist |
| FeedRepository.PageHasTenOrElevenCards | MyApplication2/app/src/main/java/repository/FeedRepository.kt:19-35 | a generated page has ten or eleven cards (the loop counts cards and a pair can overshoot) |
| FeedRepository.PageIndices | MyApplication2/app/src/main/java/repository/FeedRepository.kt:18-33 | card k of page p has index (p-1)*10+k in its title and URL, and the k-th fresh id |
| FeedRepository.VideosAreSingle | MyApplication2/app/src/main/java/repository/FeedRepository.kt:23-27 | every generated video card takes a whole row |
| FeedRepository.DoublesArePaired | MyApplication2/app/src/main/java/repository/FeedRepository.kt:26-34 | the page splits into full-row cards and adjacent pairs of half-row picture cards |
| FeedRepository.PageFillsRows | MyApplication2/app/src/main/java/repository/FeedRepository.kt:21-35 | the page fills whole grid rows, and every full-row card starts a new row |
| FeedRepository.GenerateCards | MyApplication2/app/src/main/java/repository/FeedRepository.kt:17-35 | the while loop emits the planned shapes, each built by the given constructor with consecutive indices |
| FeedRepository.FetchFeedSpec | MyApplication2/app/src/main/java/repository/FeedRepository.kt:10-47 | a failing page 1 returns the stored snapshot marked as cached when it is non-empty and fails with the failure message when it is empty; a page 1 that does not fail, and every other page, returns the generated page fresh; only a fresh page 1 writes the snapshot, and writes exactly that page |
| FeedRepository.FreshFirstPageIsCached | MyApplication2/app/src/main/java/repository/FeedRepository.kt:37 | after a fresh page 1 the snapshot loads back as exactly that page |
| FeedRepository.FallbackServesLastFirstPage | MyApplication2/app/src/main/java/repository/FeedRepository.kt:40-46 | a failed page 1 right after a fresh one serves that same page, marked as from cache |
| FeedRepository.Repository.FetchFeed | MyApplication2/app/src/main/java/repository/FeedRepository.kt:10-47 | outcome and new preferences equal `FetchFeedSpec` |
| FeedViewModel.Begin | MyApplication2/app/src/main/java/viewmodel/FeedViewModel.kt:24-30 | a call during a load changes nothing and launches nothing; otherwise the flag is raised and a refresh restarts from page 1 |
| FeedViewModel.Complete | MyApplication2/app/src/main/java/viewmodel/FeedViewModel.kt:30-50 | a failure posts the message only; a result replaces or extends the cards and publishes them; the page advances only on a fresh page; the status message follows the source's branches; the flag always drops |
| FeedViewModel.Delete | MyApplication2/app/src/main/java/viewmodel/FeedViewModel.kt:53-58 | a valid position removes exactly that card (contents as a multiset too) and republishes; any other position changes nothing |
| FeedViewModel.InitialConsistent | MyApplication2/app/src/main/java/viewmodel/FeedViewModel.kt:12-22 | the initial state is consistent and not loading |
| FeedViewModel.StepsKeepConsistent | MyApplication2/app/src/main/java/viewmodel/FeedViewModel.kt:24-58 | every step keeps the published list equal to the accumulated cards and the page at least 1 |
| FeedViewModel.LoadSpec | MyApplication2/app/src/main/java/viewmodel/FeedViewModel.kt:24-51 | a call while loading changes nothing; a finished load is no longer loading |
| FeedViewModel.RefreshShowsFirstPage | MyApplication2/app/src/main/java/viewmodel/FeedViewModel.kt:28-43 | a successful refresh shows the generated page 1, advances to page 2, reports success and caches the page |
| FeedViewModel.CacheFallbackRetriesFirstPage | MyApplication2/app/src/main/java/viewmodel/FeedViewModel.kt:34-43 | a cache fallback shows the snapshot, warns, and keeps page 1, so the next load-more asks for page 1 again |
| FeedViewModel.FailedRefreshKeepsData | MyApplication2/app/src/main/java/viewmodel/FeedViewModel.kt:45-49 | a failure with no snapshot keeps the cards, posts the error, and leaves page 1 |
| FeedViewModel.LoadMoreAppendsPage | MyApplication2/app/src/main/java/viewmodel/FeedViewModel.kt:40-43 | a load-more past page 1 appends the generated page and advances the counter |
| FeedViewModel.LoadMores | MyApplication2/app/src/main/java/viewmodel/FeedViewModel.kt:24-51 | a run of load-mores ends not loading, advances the page once per call and keeps the earlier cards in front |
| FeedViewModel.LoadMoresAccumulate | MyApplication2/app/src/main/java/viewmodel/FeedViewModel.kt:40-43 | n load-mores append the n pages in order and advance the counter by n |
| FeedViewModel.ViewModel.constructor | MyApplication2/app/src/main/java/viewmodel/FeedViewModel.kt:10-22 | the initial state: no cards, page 1, nothing published and no loading flag; the given repository |
| FeedViewModel.ViewModel.LoadData | MyApplication2/app/src/main/java/viewmodel/FeedViewModel.kt:24-51 | new state and preferences equal `LoadSpec` |
| FeedViewModel.ViewModel.DeleteItem | MyApplication2/app/src/main/java/viewmodel/FeedViewModel.kt:53-58 | new state equals `Delete` |
| CountDownTimer.Cancel | MyApplication2/app/src/main/java/binders/VideoCardBinder.kt:75 | only the timer the field names stops; a valid slot becomes silent |
| CountDownTimer.Restart | MyApplication2/app/src/main/java/binders/VideoCardBinder.kt:75-83 | the old timer stops and a new ten-second timer becomes the field |
| CountDownTimer.Release | MyApplication2/app/src/main/java/binders/VideoCardBinder.kt:91-92 | the timer stops and the field is cleared; nothing fires afterwards |
| CountDownTimer.Ticked | MyApplication2/app/src/main/java/binders/VideoCardBinder.kt:77-79 | a tick records the remaining time of that timer only |
| CountDownTimer.Finished | MyApplication2/app/src/main/java/binders/VideoCardBinder.kt:80-82 | a finished timer stops for good; the others are unchanged |
| CountDownTimer.RestartLeavesOneRunning | MyApplication2/app/src/main/java/binders/VideoCardBinder.kt:75-83 | after a restart exactly one timer fires: the new one |
| VideoCardBinder.Bound | MyApplication2/app/src/main/java/binders/VideoCardBinder.kt:42-66 | bind shows title, video tag and cover, hides the container, and leaves the timer and its text alone |
| VideoCardBinder.Start | MyApplication2/app/src/main/java/binders/VideoCardBinder.kt:68-84 | a playing tile is untouched; otherwise one line is logged, the container shows "loading" and a fresh countdown replaces the old one |
| VideoCardBinder.Stop | MyApplication2/app/src/main/java/binders/VideoCardBinder.kt:86-93 | a hidden tile is untouched; otherwise one line is logged, the container hides and the timer is released |
| VideoCardBinder.Tick | MyApplication2/app/src/main/java/binders/VideoCardBinder.kt:77-79 | a running timer's tick shows the whole seconds left; a stopped timer's tick changes nothing |
| VideoCardBinder.Finish | MyApplication2/app/src/main/java/binders/VideoCardBinder.kt:80-82 | a running timer's finish shows the end text; a stopped one changes nothing |
| VideoCardBinder.StartIdempotent | MyApplication2/app/src/main/java/binders/VideoCardBinder.kt:69 | starting twice is starting once, and the second start logs nothing |
| VideoCardBinder.StopIdempotent | MyApplication2/app/src/main/java/binders/VideoCardBinder.kt:87 | stopping twice is stopping once, and the second stop logs nothing |
| VideoCardBinder.StartRunsOneCountdown | MyApplication2/app/src/main/java/binders/VideoCardBinder.kt:68-84 | after a start exactly one countdown runs, the new ten-second one |
| VideoCardBinder.StopSilences | MyApplication2/app/src/main/java/binders/VideoCardBinder.kt:86-93 | after a stop no countdown fires and the field is null |
| VideoCardBinder.BoundHolderKeepsTicking | MyApplication2/app/src/main/java/binders/VideoCardBinder.kt:42-45 | rebinding a playing tile hides it, but its countdown still updates the text |
| VideoCardBinder.Ticks | MyApplication2/app/src/main/java/binders/VideoCardBinder.kt:77-79 | a run of ticks keeps the number of timers |
| VideoCardBinder.CountdownShowsLastTickThenEnd | MyApplication2/app/src/main/java/binders/VideoCardBinder.kt:76-83 | a running countdown shows its last tick, then the end text at finish; it never changes visibility |
| VideoCardBinder.StoppedCountdownIsInert | MyApplication2/app/src/main/java/binders/VideoCardBinder.kt:86-93 | after a stop, later ticks and finishes of any timer change nothing |
| VideoCardBinder.InertTicks | MyApplication2/app/src/main/java/binders/VideoCardBinder.kt:76-83 | ticks of a stopped timer change nothing |
| VideoCardBinder.VideoHolder.Bind | MyApplication2/app/src/main/java/binders/VideoCardBinder.kt:42-66 | new tile equals `Bound` |
| VideoCardBinder.VideoHolder.StartSimulation | MyApplication2/app/src/main/java/binders/VideoCardBinder.kt:68-84 | new tile and log equal `Start` |
| VideoCardBinder.VideoHolder.StopSimulation | MyApplication2/app/src/main/java/binders/VideoCardBinder.kt:86-93 | new tile and log equal `Stop` |
| VideoCardBinder.VideoHolder.OnTick | MyApplication2/app/src/main/java/binders/VideoCardBinder.kt:77-79 | new tile equals `Tick` |
| VideoCardBinder.VideoHolder.OnFinish | MyApplication2/app/src/main/java/binders/VideoCardBinder.kt:80-82 | new tile equals `Finish` |
| FeedAdapter.ItemAt | MyApplication2/app/src/main/java/adapter/FeedAdapter.kt:40 | a card exactly for an in-range position, and the card there |
| FeedAdapter.ViewType | MyApplication2/app/src/main/java/adapter/FeedAdapter.kt:42-44 | a card's own type inside the list, the footer type past it |
| FeedAdapter.ItemCount | MyApplication2/app/src/main/java/adapter/FeedAdapter.kt:46 | zero exactly for an empty list, else one more than the cards |
| FeedAdapter.SpanSize | MyApplication2/app/src/main/java/adapter/FeedAdapter.kt:73-78 | the footer takes two cells, a card its own span |
| FeedAdapter.BinderFor | MyApplication2/app/src/main/java/adapter/FeedAdapter.kt:49 | a binder exactly for a registered type |
| FeedAdapter.FooterIsLastSlot | MyApplication2/app/src/main/java/adapter/FeedAdapter.kt:42-51 | in a non-empty well-typed list, the footer type and the missing binder both mark exactly the last slot, which takes a whole row |
| FeedAdapter.UnknownTypeShownAsFooter | MyApplication2/app/src/main/java/adapter/FeedAdapter.kt:48-51 | a card of an unregistered type gets no binder, inside the list |
| FeedAdapter.GeneratedPageIsWellTyped | MyApplication2/app/src/main/java/adapter/FeedAdapter.kt:23-27 | every generated card has a registered type |
| FeedAdapter.Adapter.constructor | MyApplication2/app/src/main/java/adapter/FeedAdapter.kt:18-27 | no cards; the registry maps the picture type to the picture binder and the video type to the video binder |
| FeedAdapter.Adapter.RegisterBinder | MyApplication2/app/src/main/java/adapter/FeedAdapter.kt:29-32 | the registry maps the type to the binder; the list is untouched |
| FeedAdapter.Adapter.SubmitList | MyApplication2/app/src/main/java/adapter/FeedAdapter.kt:34-38 | the list is replaced; the registry is untouched |
| FeedAdapter.Adapter.OnCreateViewHolder | MyApplication2/app/src/main/java/adapter/FeedAdapter.kt:48-52 | the holder fits the binder registered for the type (footer otherwise); a new video tile is not playing |
| FeedAdapter.Adapter.OnBindViewHolder | MyApplication2/app/src/main/java/adapter/FeedAdapter.kt:54-61 | a video tile in range is bound to its card; the footer slot is never bound |
| FeedAdapter.Adapter.OnHolderActive | MyApplication2/app/src/main/java/adapter/FeedAdapter.kt:63-66 | a video tile starts; other tiles do nothing |
| FeedAdapter.Adapter.OnHolderInactive | MyApplication2/app/src/main/java/adapter/FeedAdapter.kt:68-71 | a video tile stops; other tiles do nothing |
| ActivityRepository.MakeCard | MyApplication2/app/src/main/java/com/bytedance/myapplication/MainActivity.kt:61-69 | full-row exactly by the coin, video exactly by the roll, never playing; title and URL carry page and index |
| ActivityRepository.Build | MyApplication2/app/src/main/java/com/bytedance/myapplication/MainActivity.kt:57-71 | ten cards, card i built for index (page-1)*10+i |
| ActivityRepository.AppendCards | MyApplication2/app/src/main/java/com/bytedance/myapplication/MainActivity.kt:57-70 | the for loop yields `Build` |
| ActivityRepository.FetchFeed | MyApplication2/app/src/main/java/com/bytedance/myapplication/MainActivity.kt:55-72 | the result is the page |
| ActivityRepository.PageCards | MyApplication2/app/src/main/java/com/bytedance/myapplication/MainActivity.kt:58-69 | card i has id i, index (page-1)*10+i, its width by its coin, its kind by its roll, and is not playing |
| ActivityRepository.VideoMayBeHalfRow | MyApplication2/app/src/main/java/com/bytedance/myapplication/MainActivity.kt:61-68 | a video can take half a row in this generator |
| ActivityViewModel.Begin | MyApplication2/app/src/main/java/com/bytedance/myapplication/MainActivity.kt:93-99 | a call while loading changes nothing; otherwise the flag is raised and a refresh restarts from page 1 |
| ActivityViewModel.Complete | MyApplication2/app/src/main/java/com/bytedance/myapplication/MainActivity.kt:99-113 | a thrown fetch only drops the flag; a result replaces or extends, publishes, and advances the page |
| ActivityViewModel.Delete | MyApplication2/app/src/main/java/com/bytedance/myapplication/MainActivity.kt:116-121 | a valid position removes exactly that card and republishes; any other changes nothing |
| ActivityViewModel.StepsKeepConsistent | MyApplication2/app/src/main/java/com/bytedance/myapplication/MainActivity.kt:80-121 | every step keeps the published list equal to the cards and the page at least 1 |
| ActivityViewModel.LoadSpec | MyApplication2/app/src/main/java/com/bytedance/myapplication/MainActivity.kt:93-114 | a call while loading changes nothing; a finished load is not loading |
| ActivityViewModel.CreationShowsFirstPage | MyApplication2/app/src/main/java/com/bytedance/myapplication/MainActivity.kt:89-91 | creation shows the ten cards of page 1 and leaves the counter at 2 |
| ActivityViewModel.LoadAddsTenCards | MyApplication2/app/src/main/java/com/bytedance/myapplication/MainActivity.kt:97-107 | every load that runs adds exactly ten cards behind the kept ones (none kept on refresh) |
| ActivityViewModel.LoadMores | MyApplication2/app/src/main/java/com/bytedance/myapplication/MainActivity.kt:93-114 | a run of load-mores ends not loading, advances the page once per call and keeps the earlier cards in front |
| ActivityViewModel.LoadMoresCount | MyApplication2/app/src/main/java/com/bytedance/myapplication/MainActivity.kt:102-107 | n load-mores of ten cards grow the list by 10n behind the old cards and the counter by n |
| ActivityViewModel.ViewModel.constructor | MyApplication2/app/src/main/java/com/bytedance/myapplication/MainActivity.kt:89-91 | creation runs a refresh |
| ActivityViewModel.ViewModel.LoadData | MyApplication2/app/src/main/java/com/bytedance/myapplication/MainActivity.kt:93-114 | new state equals `LoadSpec` |
| ActivityViewModel.ViewModel.DeleteItem | MyApplication2/app/src/main/java/com/bytedance/myapplication/MainActivity.kt:116-121 | new state equals `Delete` |
| ActivityAdapter.ViewType | MyApplication2/app/src/main/java/com/bytedance/myapplication/MainActivity.kt:144-146 | footer exactly past the list, item type otherwise |
| ActivityAdapter.ItemCount | MyApplication2/app/src/main/java/com/bytedance/myapplication/MainActivity.kt:167 | one more than the cards, even when empty |
| ActivityAdapter.SpanSize | MyApplication2/app/src/main/java/com/bytedance/myapplication/MainActivity.kt:170-175 | footer two cells, a card its own span |
| ActivityAdapter.FooterAlwaysLast | MyApplication2/app/src/main/java/com/bytedance/myapplication/MainActivity.kt:144-175 | the footer is exactly the last slot and takes a whole row |
| ActivityAdapter.Bound | MyApplication2/app/src/main/java/com/bytedance/myapplication/MainActivity.kt:185-216 | title, cover, cover ratio by span, tag by kind; the countdown shows exactly for a video flagged as playing; the timer is left alone |
| ActivityAdapter.Start | MyApplication2/app/src/main/java/com/bytedance/myapplication/MainActivity.kt:218-232 | a visible countdown is untouched; otherwise one line, visible, and a fresh timer |
| ActivityAdapter.Stop | MyApplication2/app/src/main/java/com/bytedance/myapplication/MainActivity.kt:234-239 | a hidden countdown is untouched; otherwise hidden, the timer cancelled but still referenced, one line |
| ActivityAdapter.Tick | MyApplication2/app/src/main/java/com/bytedance/myapplication/MainActivity.kt:225-227 | a running timer shows the seconds left; a stopped one changes nothing |
| ActivityAdapter.Finish | MyApplication2/app/src/main/java/com/bytedance/myapplication/MainActivity.kt:228-230 | a running timer shows the end text; a stopped one changes nothing |
| ActivityAdapter.StartIdempotent | MyApplication2/app/src/main/java/com/bytedance/myapplication/MainActivity.kt:219 | starting twice is starting once |
| ActivityAdapter.StopIdempotent | MyApplication2/app/src/main/java/com/bytedance/myapplication/MainActivity.kt:235 | stopping twice is stopping once |
| ActivityAdapter.StopThenStart | MyApplication2/app/src/main/java/com/bytedance/myapplication/MainActivity.kt:218-239 | a stop silences every timer but keeps the field; a restart then runs exactly the new timer |
| ActivityAdapter.BindHidesGeneratedCards | MyApplication2/app/src/main/java/com/bytedance/myapplication/MainActivity.kt:209-215 | no generated card binds with a visible countdown, since none is flagged as playing |
| ActivityAdapter.FeedViewHolder.Bind | MyApplication2/app/src/main/java/com/bytedance/myapplication/MainActivity.kt:185-216 | new tile equals `Bound` |
| ActivityAdapter.FeedViewHolder.StartVideoSimulation | MyApplication2/app/src/main/java/com/bytedance/myapplication/MainActivity.kt:218-232 | new tile and log equal `Start` |
| ActivityAdapter.FeedViewHolder.StopVideoSimulation | MyApplication2/app/src/main/java/com/bytedance/myapplication/MainActivity.kt:234-239 | new tile and log equal `Stop` |
| ActivityAdapter.FeedViewHolder.OnTick | MyApplication2/app/src/main/java/com/bytedance/myapplication/MainActivity.kt:225-227 | new tile equals `Tick` |
| ActivityAdapter.FeedViewHolder.OnFinish | MyApplication2/app/src/main/java/com/bytedance/myapplication/MainActivity.kt:228-230 | new tile equals `Finish` |
| ActivityAdapter.Adapter.SubmitList | MyApplication2/app/src/main/java/com/bytedance/myapplication/MainActivity.kt:138-142 | the list is replaced |
| ActivityAdapter.Adapter.OnCreateViewHolder | MyApplication2/app/src/main/java/com/bytedance/myapplication/MainActivity.kt:148-159 | a card tile exactly for the item type, new and not playing |
| ActivityAdapter.Adapter.OnBindViewHolder | MyApplication2/app/src/main/java/com/bytedance/myapplication/MainActivity.kt:161-165 | a card tile in range is bound to its card; otherwise nothing changes |
| MainActivity.AppendLog | MyApplication2/app/src/main/java/com/bytedance/myapplication/MainActivity.kt:384-389 | the new line goes in front of the old text and the result is cut to 2000 characters: never longer, and a prefix of the new text |
| MainActivity.OlderLogShifts | MyApplication2/app/src/main/java/com/bytedance/myapplication/MainActivity.kt:387-388 | older text moves behind the new line and survives as far as the limit allows |
| MainActivity.AppendLines | MyApplication2/app/src/main/java/com/bytedance/myapplication/MainActivity.kt:384-389 | any non-empty run of log lines leaves at most 2000 characters |
| MainActivity.NextState | MyApplication2/app/src/main/java/com/bytedance/myapplication/MainActivity.kt:355-382 | NONE exactly when out of sight; FULL exactly when in sight and either already FULL or seen whole |
| MainActivity.NeverDowngradedInSight | MyApplication2/app/src/main/java/com/bytedance/myapplication/MainActivity.kt:367-378 | while in sight the state never moves down, and leaves NONE |
| MainActivity.UpdateStates | MyApplication2/app/src/main/java/com/bytedance/myapplication/MainActivity.kt:356-377 | the card's entry becomes the next state, written only on change; other cards untouched |
| MainActivity.ExposureTrace | MyApplication2/app/src/main/java/com/bytedance/myapplication/MainActivity.kt:355-382 | over any run of events, NONE exactly when the last event hid the card; FULL exactly when it was seen whole and stayed in sight since |
| MainActivity.Effects | MyApplication2/app/src/main/java/com/bytedance/myapplication/MainActivity.kt:355-382 | a start exactly for a video at 50% or more; a stop exactly for a video below 50%, or hidden after being seen; nothing for a hidden unseen card |
| MainActivity.LogsMarkChanges | MyApplication2/app/src/main/java/com/bytedance/myapplication/MainActivity.kt:358-378 | an event logs exactly when the state changes; two lines exactly for a first sight that is already whole; never more than two |
| MainActivity.Apply | MyApplication2/app/src/main/java/com/bytedance/myapplication/MainActivity.kt:360-380 | a log step keeps the tile and the log bound |
| MainActivity.ShownThenPlay | MyApplication2/app/src/main/java/com/bytedance/myapplication/MainActivity.kt:367-381 | an in-sight event first logs the first sight, then runs the play block |
| MainActivity.RunWithoutVideo | MyApplication2/app/src/main/java/com/bytedance/myapplication/MainActivity.kt:360-376 | log-only effects never touch the tile |
| MainActivity.RunBounded | MyApplication2/app/src/main/java/com/bytedance/myapplication/MainActivity.kt:388 | running effects keeps the log within 2000 characters |
| MainActivity.RunVideoTail | MyApplication2/app/src/main/java/com/bytedance/myapplication/MainActivity.kt:372-381 | the last start or stop decides whether the tile plays |
| MainActivity.PlaybackFollowsExposure | MyApplication2/app/src/main/java/com/bytedance/myapplication/MainActivity.kt:355-382 | a picture tile is never touched; a video plays at 50% or more and stops below; a hidden unseen card changes nothing; the log stays bounded |
| MainActivity.Intersect | MyApplication2/app/src/main/java/com/bytedance/myapplication/MainActivity.kt:342 | overlap exactly for strictly overlapping rectangles; the result lies inside both and is non-empty when both are |
| MainActivity.IntersectCommutes | MyApplication2/app/src/main/java/com/bytedance/myapplication/MainActivity.kt:342 | the overlap does not depend on argument order |
| MainActivity.IntersectIsLargest | MyApplication2/app/src/main/java/com/bytedance/myapplication/MainActivity.kt:342 | every rectangle inside both lies inside the overlap |
| MainActivity.RatioWithinBounds | MyApplication2/app/src/main/java/com/bytedance/myapplication/MainActivity.kt:342-345 | for non-empty rectangles within the view's size the visible area is positive and at most the view's area, so the ratio is in (0, 1] |
| MainActivity.EvalAt | MyApplication2/app/src/main/java/com/bytedance/myapplication/MainActivity.kt:333-351 | a missing view, holder or card, or no overlap, skips the position; an invisible view reports ratio 0; a visible overlap reports a ratio in (0, 1] |
| MainActivity.Evaluations | MyApplication2/app/src/main/java/com/bytedance/myapplication/MainActivity.kt:332-352 | the events are for positions in range, in increasing order, each with a positive total area |
| MainActivity.FoldKeepsOthers | MyApplication2/app/src/main/java/com/bytedance/myapplication/MainActivity.kt:332-352 | a pass leaves the state of every card it did not see |
| MainActivity.FoldAppend | MyApplication2/app/src/main/java/com/bytedance/myapplication/MainActivity.kt:332-352 | folding two runs of events is folding them one after the other |
| MainActivity.Step | MyApplication2/app/src/main/java/com/bytedance/myapplication/MainActivity.kt:355-382 | one event updates the card's state; only its own holder's tile can change, and only for a video; a video in sight plays exactly when at least half of it shows; the log stays bounded |
| MainActivity.Pass | MyApplication2/app/src/main/java/com/bytedance/myapplication/MainActivity.kt:332-352 | a pass over events updates the states as their fold, keeps the set of tiles and keeps the log bounded |
| MainActivity.PassAppend | MyApplication2/app/src/main/java/com/bytedance/myapplication/MainActivity.kt:332-352 | a pass over two runs of events is a pass over one and then the other |
| MainActivity.PassKeepsOtherTiles | MyApplication2/app/src/main/java/com/bytedance/myapplication/MainActivity.kt:332-352 | a holder no event names keeps its tile |
| MainActivity.PassPlaybackFollowsLast | MyApplication2/app/src/main/java/com/bytedance/myapplication/MainActivity.kt:332-382 | after a pass a video holder plays exactly when the last event for it showed at least half of the card |
| MainActivity.PassStep | MyApplication2/app/src/main/java/com/bytedance/myapplication/MainActivity.kt:332 | one more loop position extends the pass by that position's event |
| MainActivity.LoadMoreAtLastCard | MyApplication2/app/src/main/java/com/bytedance/myapplication/MainActivity.kt:315 | load-more fires exactly when the last visible position reaches the last card (or on an empty list) |
| MainActivity.Activity.constructor | MyApplication2/app/src/main/java/com/bytedance/myapplication/MainActivity.kt:253 | no exposure states and an empty log |
| MainActivity.Activity.LogToConsole | MyApplication2/app/src/main/java/com/bytedance/myapplication/MainActivity.kt:384-389 | the log becomes `AppendLog` of the old log |
| MainActivity.Activity.LogLines | MyApplication2/app/src/main/java/com/bytedance/myapplication/MainActivity.kt:384-389 | the log becomes `AppendLines` of the old log |
| MainActivity.Activity.HandleExposureEvent | MyApplication2/app/src/main/java/com/bytedance/myapplication/MainActivity.kt:355-382 | the states become `UpdateStates`, and the log and tile become the run of `Effects`; the log stays bounded |
| MainActivity.Activity.Vanish | MyApplication2/app/src/main/java/com/bytedance/myapplication/MainActivity.kt:358-365 | the hidden branch: the run of `GoneEffects`, and NONE is written for a seen card |
| MainActivity.Activity.Play | MyApplication2/app/src/main/java/com/bytedance/myapplication/MainActivity.kt:372-381 | the 50% block: the run of `PlayEffects`, and FULL is written on a first full view |
| MainActivity.Activity.ExposeAt | MyApplication2/app/src/main/java/com/bytedance/myapplication/MainActivity.kt:333-351 | the exposure map, the log and every laid-out tile become the screen after that position's event (unchanged when the position has no holder, no card or no overlap with the list); every holder keeps its position |
| MainActivity.Activity.ExposeHolder | MyApplication2/app/src/main/java/com/bytedance/myapplication/MainActivity.kt:337-350 | one event changes the screen by exactly `Step` |
| MainActivity.Activity.CheckExposure | MyApplication2/app/src/main/java/com/bytedance/myapplication/MainActivity.kt:322-353 | with no visible position nothing changes; otherwise the exposure map, the log and every laid-out tile become the `Pass` over every position's event, first to last, so the states are their fold; every holder keeps its position; the log stays bounded |
| MainActivity.Activity.OnScrolled | MyApplication2/app/src/main/java/com/bytedance/myapplication/MainActivity.kt:311-319 | a load-more runs exactly when the last visible position is within two of the item count |
| MainActivity.Activity.OnRefresh | MyApplication2/app/src/main/java/com/bytedance/myapplication/MainActivity.kt:305-308 | a refresh load runs, then the refresh line is logged |
| MainActivity.Activity.OnFeedListPosted | MyApplication2/app/src/main/java/com/bytedance/myapplication/MainActivity.kt:294-295 | the adapter shows the published list |

## Left out

- Rendering is not modelled: layout inflation, Glide image loading, the
  delete dialog, the footer progress bar and the swipe indicator (the
  `isRefreshing` lines of the observers). `ImageCardBinder` only draws, so
  it is represented by the registry entry that creates and binds picture
  tiles.
- Coroutines and `delay` are not modelled. A load runs to completion in one
  call; interleaving is visible only through `Begin` / `Complete` /
  `Delete` as separate steps.
- Real time is not modelled. Countdown callbacks are explicit `OnTick` /
  `OnFinish` calls, and the model does not fix their number or spacing.
- Float ratios are modelled as exact fractions `visible / total`.
  Comparisons with 0, 0.5 and 1 are exact, so float rounding is not
  captured.
- MainActivity.Activity.CheckExposure: requires every view to have a
  positive width and height, so a zero-size view (a NaN or infinite ratio in
  the source) is not modelled.
- The areas, the page counter and `start + i` are unbounded integers, so
  32-bit overflow is not modelled.
- `take(n)` counts Kotlin `Char`s (UTF-16 units). The model counts Dafny
  characters, so an emoji may count differently.
- The clock is a parameter, and `runOnUiThread` is not modelled (it is
  modelled as an immediate update).
- `SharedPreferences` and the JSON text are abstract. The stored value is
  empty text, unparsable text, or an array of well-formed or malformed
  entries.
- Random draws and UUIDs are inputs. FeedRepository.Repository.FetchFeed,
  FeedViewModel.ViewModel.LoadData and the single-file loads require enough
  draws and ids for a page (10 step draws and 11 ids; 10 and 10).
- The observers are reduced to the one that submits a published list
  (`OnFeedListPosted`); the loading observer only drives the swipe
  indicator.
- MainActivity.Activity.CheckExposure is also triggered when scrolling
  stops. That trigger calls the same method, so it is not modelled
  separately.
- MainActivity.Activity.HandleExposureEvent gets its tile as a parameter.
  The model does not capture that the same view holder may be recycled for
  another position between events.
- `onHolderActive` / `onHolderInactive` of the modular adapter are
  modelled as dispatch only; their callers are not part of this model.

Details of the code that shape the model:
- The modular generator counts cards, not grid cells, and a paired step can
  overshoot, so a page has ten or eleven cards.
- A snapshot whose parsing fails part-way still yields the records read
  before the failure.
- In the single-file generator a video card may take half a row, and a card
  is a video when the roll exceeds 7 (two values in ten).
