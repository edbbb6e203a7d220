/**
 * The list controller behind the feed screen. It owns the page counter, the
 * accumulated cards and three observable values: the published card list, the
 * status message and the loading flag (each `None` until first posted).
 *
 * `loadData` runs in two parts: a synchronous part (the in-flight guard, the
 * loading flag, the page reset on a refresh) and a coroutine that fetches the
 * page and folds the result into the state. `Begin` and `Complete` are those
 * two parts as functions of the state; `ViewModel.LoadData` runs them back to
 * back around the repository call.
 */
module FeedViewModel {
  import opened FeedCard
  import opened Nullable
  import opened LocalCacheManager
  import opened FeedRepository

  const CACHE_MESSAGE: string := "⚠️ 网络失败，已加载本地缓存"
  const REFRESH_MESSAGE: string := "✅ 刷新成功"
  const FAILURE_PREFIX: string := "❌ 加载失败: "

  /** The controller's state: private fields and the last value posted to each observable. */
  datatype State = State(
    currentData: seq<Card>,
    page: int,
    isLoading: Option<bool>,
    feedList: Option<seq<Card>>,
    viewState: Option<string>)

  /** A freshly built controller: no data, page 1, nothing posted yet. */
  const Initial: State := State([], 1, None, None, None)

  /** `_isLoading.value == true`: an unset flag counts as not loading. */
  predicate Loading(s: State) {
    s.isLoading == Some(true)
  }

  /**
   * The published list mirrors the accumulated cards once anything has been
   * published, and the page counter never drops below 1.
   */
  predicate Consistent(s: State) {
    s.page >= 1 && (s.feedList == Some(s.currentData) || (s.feedList == None && s.currentData == []))
  }

  /**
   * The synchronous part of `loadData(isRefresh)`: the new state and whether
   * the coroutine is launched.
   */
  function Begin(s: State, isRefresh: bool): (r: (State, bool))
    // a call while a load is in flight changes nothing and launches nothing
    ensures Loading(s) ==> r == (s, false)
    ensures r.1 <==> !Loading(s)
    // otherwise the flag is raised and a refresh restarts from page 1
    ensures r.1 ==> Loading(r.0) && r.0.page == (if isRefresh then 1 else s.page)
    ensures r.0.currentData == s.currentData && r.0.feedList == s.feedList && r.0.viewState == s.viewState
  {
    if Loading(s) then (s, false)
    else (s.(isLoading := Some(true), page := if isRefresh then 1 else s.page), true)
  }

  /** The coroutine's effect once the fetch returned `outcome` (the `finally` lowers the flag). */
  function Complete(s: State, isRefresh: bool, outcome: FetchOutcome): (t: State)
    ensures t.isLoading == Some(false)
    // a thrown fetch only posts the message
    ensures outcome.Failed? ==>
      t == s.(isLoading := Some(false), viewState := Some(FAILURE_PREFIX + outcome.message))
    // a result replaces (refresh) or extends (load more) the cards and publishes them
    ensures outcome.Fetched? ==>
      && t.currentData == (if isRefresh then [] else s.currentData) + outcome.cards
      && t.feedList == Some(t.currentData)
      && t.page == (if outcome.fromCache then s.page else s.page + 1)
      && t.viewState == (if outcome.fromCache then Some(CACHE_MESSAGE)
                         else if isRefresh then Some(REFRESH_MESSAGE) else s.viewState)
  {
    match outcome
    case Failed(message) =>
      s.(isLoading := Some(false), viewState := Some(FAILURE_PREFIX + message))
    case Fetched(newData, isFromCache) =>
      var data := (if isRefresh then [] else s.currentData) + newData;
      State(data,
            if isFromCache then s.page else s.page + 1,
            Some(false),
            Some(data),
            if isFromCache then Some(CACHE_MESSAGE) else if isRefresh then Some(REFRESH_MESSAGE) else s.viewState)
  }

  /** `deleteItem(position)`: removes exactly that card when the index is valid, else nothing. */
  function Delete(s: State, position: int): (t: State)
    ensures 0 <= position < |s.currentData| ==>
      && t.currentData == s.currentData[..position] + s.currentData[position + 1..]
      && multiset(t.currentData) + multiset{s.currentData[position]} == multiset(s.currentData)
      && t.feedList == Some(t.currentData)
      && t.page == s.page && t.isLoading == s.isLoading && t.viewState == s.viewState
    ensures !(0 <= position < |s.currentData|) ==> t == s
  {
    if 0 <= position < |s.currentData| then
      var data := s.currentData[..position] + s.currentData[position + 1..];
      assert s.currentData == s.currentData[..position] + [s.currentData[position]] + s.currentData[position + 1..];
      s.(currentData := data, feedList := Some(data))
    else s
  }

  /** The initial state is consistent, and every step keeps it so, in any interleaving. */
  lemma InitialConsistent()
    ensures Consistent(Initial) && !Loading(Initial)
  {
  }

  lemma StepsKeepConsistent(s: State, isRefresh: bool, outcome: FetchOutcome, position: int)
    requires Consistent(s)
    ensures Consistent(Begin(s, isRefresh).0)
    ensures Consistent(Complete(s, isRefresh, outcome))
    ensures Consistent(Delete(s, position))
  {
  }

  /** The whole `loadData` call against the repository's fetch. */
  function LoadSpec(s: State, isRefresh: bool, failRoll: int, steps: seq<StepDraw>, ids: seq<string>, prefs: Prefs)
    : (r: (State, Prefs))
    requires |steps| >= PAGE_SIZE && |ids| > PAGE_SIZE
    ensures Loading(s) ==> r == (s, prefs)
    ensures !Loading(s) ==> !Loading(r.0)
  {
    var (begun, launched) := Begin(s, isRefresh);
    if !launched then (s, prefs)
    else
      var (outcome, after) := FetchFeedSpec(begun.page, failRoll, steps, ids, prefs);
      (Complete(begun, isRefresh, outcome), after)
  }

  /**
   * A refresh that succeeds shows exactly page 1, moves on to page 2 and leaves
   * page 1 in the snapshot.
   */
  lemma RefreshShowsFirstPage(s: State, failRoll: int, steps: seq<StepDraw>, ids: seq<string>, prefs: Prefs)
    requires |steps| >= PAGE_SIZE && |ids| > PAGE_SIZE
    requires !Loading(s) && !ShouldFail(failRoll)
    ensures var (t, after) := LoadSpec(s, true, failRoll, steps, ids, prefs);
      && t.currentData == GeneratePage(1, steps, ids)
      && t.feedList == Some(t.currentData)
      && t.page == 2
      && t.viewState == Some(REFRESH_MESSAGE)
      && Load(after) == t.currentData
  {
    FreshFirstPageIsCached(failRoll, steps, ids, prefs);
  }

  /**
   * A refresh that fails over a non-empty snapshot shows the snapshot and keeps
   * the page at 1, so the next load requests page 1 again.
   */
  lemma CacheFallbackRetriesFirstPage(s: State, failRoll: int, steps: seq<StepDraw>, ids: seq<string>, prefs: Prefs)
    requires |steps| >= PAGE_SIZE && |ids| > PAGE_SIZE
    requires !Loading(s) && ShouldFail(failRoll) && Load(prefs) != []
    ensures var (t, after) := LoadSpec(s, true, failRoll, steps, ids, prefs);
      && t.currentData == Load(prefs)
      && t.viewState == Some(CACHE_MESSAGE)
      && t.page == 1
      && after == prefs
      && Begin(t, false).1 && Begin(t, false).0.page == 1
  {
  }

  /**
   * A refresh that fails with no snapshot posts the error, lowers the flag and
   * keeps the cards on screen; the page counter stays at 1.
   */
  lemma FailedRefreshKeepsData(s: State, failRoll: int, steps: seq<StepDraw>, ids: seq<string>, prefs: Prefs)
    requires |steps| >= PAGE_SIZE && |ids| > PAGE_SIZE
    requires !Loading(s) && ShouldFail(failRoll) && Load(prefs) == []
    ensures var (t, after) := LoadSpec(s, true, failRoll, steps, ids, prefs);
      && t.currentData == s.currentData
      && t.feedList == s.feedList
      && t.isLoading == Some(false)
      && t.viewState == Some(FAILURE_PREFIX + FAILURE_MESSAGE)
      && t.page == 1
      && after == prefs
  {
  }

  /** Loading more at page `p > 1` never fails: it appends page `p` and moves to `p + 1`. */
  lemma LoadMoreAppendsPage(s: State, failRoll: int, steps: seq<StepDraw>, ids: seq<string>, prefs: Prefs)
    requires |steps| >= PAGE_SIZE && |ids| > PAGE_SIZE
    requires !Loading(s) && s.page > 1
    ensures var (t, after) := LoadSpec(s, false, failRoll, steps, ids, prefs);
      && t.currentData == s.currentData + GeneratePage(s.page, steps, ids)
      && t.page == s.page + 1
      && t.viewState == s.viewState
      && after == prefs
  {
  }

  /** `n` load-more calls in a row whose fetches return fresh pages `pages[0]`, …, `pages[n-1]`. */
  function LoadMores(s: State, pages: seq<seq<Card>>): (t: State)
    requires !Loading(s)
    ensures !Loading(t)
    // each call advances the page once and keeps the earlier cards in front
    ensures t.page == s.page + |pages|
    ensures |s.currentData| <= |t.currentData| && t.currentData[..|s.currentData|] == s.currentData
    decreases |pages|
  {
    if pages == [] then s
    else LoadMores(Complete(Begin(s, false).0, false, Fetched(pages[0], false)), pages[1..])
  }

  /** All pages concatenated in order. */
  function Concat(pages: seq<seq<Card>>): seq<Card>
    decreases |pages|
  {
    if pages == [] then [] else pages[0] + Concat(pages[1..])
  }

  /**
   * Successive load-mores accumulate: the cards are the old ones followed by
   * every page in order, the page counter advances once per page, and the
   * published list stays in step.
   */
  lemma {:induction false} LoadMoresAccumulate(s: State, pages: seq<seq<Card>>)
    requires !Loading(s) && pages != []
    ensures LoadMores(s, pages).currentData == s.currentData + Concat(pages)
    ensures LoadMores(s, pages).page == s.page + |pages|
    ensures LoadMores(s, pages).feedList == Some(LoadMores(s, pages).currentData)
    decreases |pages|
  {
    var next := Complete(Begin(s, false).0, false, Fetched(pages[0], false));
    if |pages| > 1 {
      LoadMoresAccumulate(next, pages[1..]);
    } else {
      assert pages[1..] == [];
    }
  }

  /** The controller object; the repository is injected. */
  class ViewModel {
    var currentData: seq<Card>
    var page: int
    var isLoading: Option<bool>
    var feedList: Option<seq<Card>>
    var viewState: Option<string>
    const repository: Repository

    function Snapshot(): State
      reads this
    {
      State(currentData, page, isLoading, feedList, viewState)
    }

    constructor (repository: Repository)
      ensures Snapshot() == Initial && this.repository == repository
    {
      this.repository := repository;
      currentData := [];
      page := 1;
      isLoading := None;
      feedList := None;
      viewState := None;
    }

    /**
     * `loadData(isRefresh)`, with the coroutine run to completion; the draws
     * and ids are handed on to the repository's fetch.
     */
    method LoadData(isRefresh: bool, failRoll: int, steps: seq<StepDraw>, ids: seq<string>)
      requires |steps| >= PAGE_SIZE && |ids| > PAGE_SIZE
      modifies this, repository.cacheManager
      ensures (Snapshot(), repository.cacheManager.prefs)
           == LoadSpec(old(Snapshot()), isRefresh, failRoll, steps, ids, old(repository.cacheManager.prefs))
    {
      if isLoading == Some(true) {
        return;
      }
      isLoading := Some(true);
      if isRefresh {
        page := 1;
      }
      var begun := Snapshot();
      var outcome := repository.FetchFeed(page, failRoll, steps, ids);
      match outcome {
        case Failed(message) =>
          viewState := Some(FAILURE_PREFIX + message);
        case Fetched(newData, isFromCache) =>
          if isFromCache {
            viewState := Some(CACHE_MESSAGE);
          } else if isRefresh {
            viewState := Some(REFRESH_MESSAGE);
          }
          if isRefresh {
            currentData := [];
          }
          currentData := currentData + newData;
          feedList := Some(currentData);
          if !isFromCache {
            page := page + 1;
          }
      }
      isLoading := Some(false);
      assert Snapshot() == Complete(begun, isRefresh, outcome);
    }

    /** `deleteItem(position)`. */
    method DeleteItem(position: int)
      modifies this
      ensures Snapshot() == Delete(old(Snapshot()), position)
    {
      if 0 <= position < |currentData| {
        currentData := currentData[..position] + currentData[position + 1..];
        feedList := Some(currentData);
      }
    }
  }
}
