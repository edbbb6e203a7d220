/**
 * The single-file list controller: a page counter, the accumulated cards and
 * two observables (the published list and the loading flag, `None` until
 * first posted). It has no snapshot fallback and no status message, and its
 * failure handler does nothing. Creating it starts a refresh.
 *
 * As in the other controller, `loadData` is a synchronous part (`Begin`) and
 * a coroutine (`Complete`); the coroutine's fetch result is `None` when the
 * fetch threw.
 */
module ActivityViewModel {
  import opened ActivityCard
  import opened Nullable
  import ActivityRepository

  datatype State = State(currentData: seq<Card>, page: int, isLoading: Option<bool>, feedList: Option<seq<Card>>)

  const Initial: State := State([], 1, None, None)

  predicate Loading(s: State) {
    s.isLoading == Some(true)
  }

  /** The published list mirrors the cards once anything was published; the page is at least 1. */
  predicate Consistent(s: State) {
    s.page >= 1 && (s.feedList == Some(s.currentData) || (s.feedList == None && s.currentData == []))
  }

  /** The synchronous part of `loadData(isRefresh)`: the new state and whether the coroutine starts. */
  function Begin(s: State, isRefresh: bool): (r: (State, bool))
    ensures Loading(s) ==> r == (s, false)
    ensures r.1 <==> !Loading(s)
    ensures r.1 ==> Loading(r.0) && r.0.page == (if isRefresh then 1 else s.page)
    ensures r.0.currentData == s.currentData && r.0.feedList == s.feedList
  {
    if Loading(s) then (s, false)
    else (s.(isLoading := Some(true), page := if isRefresh then 1 else s.page), true)
  }

  /** The coroutine once the fetch returned `fetched` (`None`: it threw, and the handler ignores it). */
  function Complete(s: State, isRefresh: bool, fetched: Option<seq<Card>>): (t: State)
    ensures t.isLoading == Some(false)
    ensures fetched.None? ==> t == s.(isLoading := Some(false))
    ensures fetched.Some? ==>
      && t.currentData == (if isRefresh then [] else s.currentData) + fetched.value
      && t.feedList == Some(t.currentData)
      && t.page == s.page + 1
  {
    match fetched
    case None => s.(isLoading := Some(false))
    case Some(newData) =>
      var data := (if isRefresh then [] else s.currentData) + newData;
      State(data, s.page + 1, Some(false), Some(data))
  }

  /** `deleteItem(position)`. */
  function Delete(s: State, position: int): (t: State)
    ensures 0 <= position < |s.currentData| ==>
      && t.currentData == s.currentData[..position] + s.currentData[position + 1..]
      && |t.currentData| == |s.currentData| - 1
      && t.feedList == Some(t.currentData)
      && t.page == s.page && t.isLoading == s.isLoading
    ensures !(0 <= position < |s.currentData|) ==> t == s
  {
    if 0 <= position < |s.currentData| then
      var data := s.currentData[..position] + s.currentData[position + 1..];
      s.(currentData := data, feedList := Some(data))
    else s
  }

  lemma StepsKeepConsistent(s: State, isRefresh: bool, fetched: Option<seq<Card>>, position: int)
    requires Consistent(s)
    ensures Consistent(Begin(s, isRefresh).0)
    ensures Consistent(Complete(s, isRefresh, fetched))
    ensures Consistent(Delete(s, position))
  {
  }

  /** The whole `loadData` call; the local fetch never throws. */
  function LoadSpec(s: State, isRefresh: bool, draws: seq<ActivityRepository.CardDraw>, ids: seq<string>): (t: State)
    requires |draws| >= ActivityRepository.PAGE_SIZE && |ids| >= ActivityRepository.PAGE_SIZE
    ensures Loading(s) ==> t == s
    ensures !Loading(s) ==> !Loading(t)
  {
    var (begun, launched) := Begin(s, isRefresh);
    if !launched then s
    else Complete(begun, isRefresh, Some(ActivityRepository.Page(begun.page, draws, ids)))
  }

  /** Creation leaves page 1 on screen, ten cards, and the counter at 2. */
  lemma CreationShowsFirstPage(draws: seq<ActivityRepository.CardDraw>, ids: seq<string>)
    requires |draws| >= ActivityRepository.PAGE_SIZE && |ids| >= ActivityRepository.PAGE_SIZE
    ensures var t := LoadSpec(Initial, true, draws, ids);
      && t.currentData == ActivityRepository.Page(1, draws, ids)
      && |t.currentData| == 10
      && t.page == 2
      && Consistent(t) && !Loading(t)
  {
  }

  /** Every load that runs grows the list by exactly ten cards (a refresh restarts it at ten). */
  lemma LoadAddsTenCards(s: State, isRefresh: bool, draws: seq<ActivityRepository.CardDraw>, ids: seq<string>)
    requires |draws| >= ActivityRepository.PAGE_SIZE && |ids| >= ActivityRepository.PAGE_SIZE
    requires !Loading(s)
    ensures var t := LoadSpec(s, isRefresh, draws, ids);
      && |t.currentData| == (if isRefresh then 0 else |s.currentData|) + 10
      && t.currentData[..|t.currentData| - 10] == (if isRefresh then [] else s.currentData)
      && t.page == (if isRefresh then 2 else s.page + 1)
  {
    var t := LoadSpec(s, isRefresh, draws, ids);
    assert t.currentData[..|t.currentData| - 10] == (if isRefresh then [] else s.currentData);
  }

  /** Load-more calls in a row whose fetches return `pages[0]`, …, `pages[n-1]`. */
  function LoadMores(s: State, pages: seq<seq<Card>>): (t: State)
    requires !Loading(s)
    ensures !Loading(t)
    // each call advances the page once and keeps the earlier cards in front
    ensures t.page == s.page + |pages|
    ensures |s.currentData| <= |t.currentData| && t.currentData[..|s.currentData|] == s.currentData
    decreases |pages|
  {
    if pages == [] then s else LoadMores(Complete(Begin(s, false).0, false, Some(pages[0])), pages[1..])
  }

  /**
   * `n` load-mores of ten cards each: the earlier cards stay in front, the list
   * grows by `10 * n` and the page counter by `n`.
   */
  lemma {:induction false} LoadMoresCount(s: State, pages: seq<seq<Card>>)
    requires !Loading(s)
    requires forall i :: 0 <= i < |pages| ==> |pages[i]| == 10
    ensures |LoadMores(s, pages).currentData| == |s.currentData| + 10 * |pages|
    ensures LoadMores(s, pages).page == s.page + |pages|
    ensures LoadMores(s, pages).currentData[..|s.currentData|] == s.currentData
    decreases |pages|
  {
    if pages != [] {
      var next := Complete(Begin(s, false).0, false, Some(pages[0]));
      LoadMoresCount(next, pages[1..]);
      assert next.currentData[..|s.currentData|] == s.currentData;
    }
  }

  class ViewModel {
    var currentData: seq<Card>
    var page: int
    var isLoading: Option<bool>
    var feedList: Option<seq<Card>>

    function Snapshot(): State
      reads this
    {
      State(currentData, page, isLoading, feedList)
    }

    /** Creation runs `loadData(isRefresh = true)`. */
    constructor (draws: seq<ActivityRepository.CardDraw>, ids: seq<string>)
      requires |draws| >= ActivityRepository.PAGE_SIZE && |ids| >= ActivityRepository.PAGE_SIZE
      ensures Snapshot() == LoadSpec(Initial, true, draws, ids)
    {
      currentData := [];
      page := 1;
      isLoading := None;
      feedList := None;
      new;
      LoadData(true, draws, ids);
    }

    /** `loadData(isRefresh)`, the coroutine run to completion. */
    method LoadData(isRefresh: bool, draws: seq<ActivityRepository.CardDraw>, ids: seq<string>)
      requires |draws| >= ActivityRepository.PAGE_SIZE && |ids| >= ActivityRepository.PAGE_SIZE
      modifies this
      ensures Snapshot() == LoadSpec(old(Snapshot()), isRefresh, draws, ids)
    {
      if isLoading == Some(true) {
        return;
      }
      isLoading := Some(true);
      if isRefresh {
        page := 1;
      }
      var newData := ActivityRepository.FetchFeed(page, draws, ids);
      if isRefresh {
        currentData := [];
      }
      currentData := currentData + newData;
      feedList := Some(currentData);
      page := page + 1;
      isLoading := Some(false);
    }

    /** `deleteItem(position)`. */
    method DeleteItem(position: int)
      modifies this
      ensures Snapshot() == Delete(old(Snapshot()), position)
    {
      if 0 <= position < |currentData| {
        currentData := currentData[..position] + currentData[position + 1..];
        feedList := Some(currentData);
      }
    }
  }
}
