/**
 * The page generator with cache fallback. A fetch first draws a failure roll
 * (only page 1 can fail); a successful fetch builds the page step by step, each
 * step emitting one full-row card or a pair of half-row cards, until at least
 * ten cards exist, and a successful page 1 is written to the snapshot store. A
 * failed page 1 falls back to a non-empty snapshot.
 *
 * The random draws and the fresh card ids are inputs: `failRoll` is the
 * `nextInt(10)` drawn first, `steps[k]` the draws of the k-th loop step, and
 * `ids[k]` the id of the k-th card of the page.
 */
module FeedRepository {
  import opened FeedCard
  import opened Text
  import opened LocalCacheManager

  /** The loop stops once this many cards exist; also the index stride between pages. */
  const PAGE_SIZE: int := 10
  /** The message of the simulated network error. */
  const FAILURE_MESSAGE: string := "模拟网络错误"

  /** The draws of one loop step: `nextInt(10)` for the video roll and `nextBoolean()`. */
  datatype StepDraw = StepDraw(videoRoll: int, coin: bool)

  /** What `fetchFeed` returns (`Pair(list, fromCache)`) or the exception it throws. */
  datatype FetchOutcome = Fetched(cards: seq<Card>, fromCache: bool) | Failed(message: string)

  /** `Random.nextInt(10) > 8`: one value in ten. */
  predicate ShouldFail(failRoll: int) {
    failRoll > 8
  }

  /** `Random.nextInt(10) < 3`. */
  predicate IsVideo(d: StepDraw) {
    d.videoRoll < 3
  }

  /** A video is always single; otherwise the coin decides (it is not drawn for a video). */
  predicate IsSingle(d: StepDraw) {
    IsVideo(d) || d.coin
  }

  /** Index of the first card of `page`. */
  function StartId(page: int): int {
    (page - 1) * PAGE_SIZE
  }

  function TitleText(page: int, index: int, isSingle: bool, isVideo: bool): string {
    "P" + IntToString(page) + "-" + IntToString(index) + " "
    + (if isVideo then "[视频]" else if isSingle then "[大图]" else "[小图]")
    + " \n" + (if isVideo then "自动播放测试" else "模拟标题文字")
  }

  /** The picture URL: the index is the seed; a full-row picture is 600x340, a half-row one 400x530. */
  function ImageUrl(index: int, isSingle: bool): string {
    "https://picsum.photos/seed/" + IntToString(index) + "/"
    + (if isSingle then IntToString(600) + "/" + IntToString(340)
       else IntToString(400) + "/" + IntToString(530))
  }

  /** `createCard`. */
  function CreateCard(page: int, index: int, isSingle: bool, isVideo: bool, id: string): (c: Card)
    ensures c.id == id
    ensures c.spanType == SPAN_SINGLE <==> isSingle
    ensures c.spanType == SPAN_SINGLE || c.spanType == SPAN_DOUBLE
    ensures c.cardType == TYPE_VIDEO <==> isVideo
    ensures c.cardType == TYPE_VIDEO || c.cardType == TYPE_IMAGE
    ensures c.imageUrl == ImageUrl(index, c.spanType == SPAN_SINGLE)
    ensures c.title == TitleText(page, index, c.spanType == SPAN_SINGLE, c.cardType == TYPE_VIDEO)
  {
    Card(
      id := id,
      title := TitleText(page, index, isSingle, isVideo),
      imageUrl := ImageUrl(index, isSingle),
      spanType := if isSingle then SPAN_SINGLE else SPAN_DOUBLE,
      cardType := if isVideo then TYPE_VIDEO else TYPE_IMAGE)
  }

  /** The shape of one emitted card: full-row or half-row, video or picture. */
  datatype Slot = Slot(isSingle: bool, isVideo: bool)

  /**
   * The shapes the generation loop emits once `count` cards already exist,
   * using `steps` for the remaining loop steps. The loop counts cards, not
   * grid cells, and a pair step may overshoot by one.
   */
  function Plan(steps: seq<StepDraw>, count: nat): (plan: seq<Slot>)
    requires count + |steps| >= PAGE_SIZE
    ensures count <= PAGE_SIZE ==> PAGE_SIZE - count <= |plan| <= PAGE_SIZE + 1 - count
    ensures count >= PAGE_SIZE ==> plan == []
    decreases PAGE_SIZE - count
  {
    if count >= PAGE_SIZE then []
    else if IsSingle(steps[0]) then [Slot(true, IsVideo(steps[0]))] + Plan(steps[1..], count + 1)
    else [Slot(false, false), Slot(false, false)] + Plan(steps[1..], count + 2)
  }

  /** One loop step, taken with the draws at position `i`. */
  lemma PlanUnfold(steps: seq<StepDraw>, i: nat, count: nat)
    requires i < |steps| && count < PAGE_SIZE && count + |steps| - i >= PAGE_SIZE
    ensures IsSingle(steps[i]) ==>
      Plan(steps[i..], count) == [Slot(true, IsVideo(steps[i]))] + Plan(steps[i + 1..], count + 1)
    ensures !IsSingle(steps[i]) ==>
      Plan(steps[i..], count) == [Slot(false, false), Slot(false, false)] + Plan(steps[i + 1..], count + 2)
  {
    assert steps[i..][1..] == steps[i + 1..];
  }

  /** Card `k` of a page is built from shape `k`, index `StartId(page) + k` and the k-th fresh id. */
  function Materialize(page: int, plan: seq<Slot>, ids: seq<string>): (cards: seq<Card>)
    requires |plan| <= |ids|
    ensures |cards| == |plan|
  {
    seq(|plan|, k requires 0 <= k < |plan| =>
      CreateCard(page, StartId(page) + k, plan[k].isSingle, plan[k].isVideo, ids[k]))
  }

  /** The page `fetchFeed` generates. */
  function GeneratePage(page: int, steps: seq<StepDraw>, ids: seq<string>): (cards: seq<Card>)
    requires |steps| >= PAGE_SIZE && |ids| > PAGE_SIZE
  {
    Materialize(page, Plan(steps, 0), ids)
  }

  /** A page has ten or eleven cards. */
  lemma PageHasTenOrElevenCards(page: int, steps: seq<StepDraw>, ids: seq<string>)
    requires |steps| >= PAGE_SIZE && |ids| > PAGE_SIZE
    ensures |GeneratePage(page, steps, ids)| == PAGE_SIZE || |GeneratePage(page, steps, ids)| == PAGE_SIZE + 1
  {
  }

  /**
   * Card `k` of page `page` has index `(page-1)*10 + k` (the picture seed and
   * the number in the title) and id `ids[k]`: indices run consecutively in
   * emission order.
   */
  lemma PageIndices(page: int, steps: seq<StepDraw>, ids: seq<string>, k: nat)
    requires |steps| >= PAGE_SIZE && |ids| > PAGE_SIZE
    requires k < |GeneratePage(page, steps, ids)|
    ensures var c := GeneratePage(page, steps, ids)[k];
      && c.id == ids[k]
      && c.imageUrl == ImageUrl(StartId(page) + k, c.spanType == SPAN_SINGLE)
      && c.title == TitleText(page, StartId(page) + k, c.spanType == SPAN_SINGLE, c.cardType == TYPE_VIDEO)
  {
  }

  /** No shape is a half-row video. */
  lemma {:induction false} PlanVideosAreSingle(steps: seq<StepDraw>, count: nat)
    requires count + |steps| >= PAGE_SIZE
    ensures forall k :: 0 <= k < |Plan(steps, count)| && Plan(steps, count)[k].isVideo ==> Plan(steps, count)[k].isSingle
    decreases PAGE_SIZE - count
  {
    if count < PAGE_SIZE {
      var plan := Plan(steps, count);
      var n := if IsSingle(steps[0]) then 1 else 2;
      var rest := Plan(steps[1..], count + n);
      PlanVideosAreSingle(steps[1..], count + n);
      forall k | 0 <= k < |plan| && plan[k].isVideo
        ensures plan[k].isSingle
      {
        if k >= n {
          assert plan[k] == rest[k - n];
        }
      }
    }
  }

  /** A video card is always a full-row card. */
  lemma VideosAreSingle(page: int, steps: seq<StepDraw>, ids: seq<string>)
    requires |steps| >= PAGE_SIZE && |ids| > PAGE_SIZE
    ensures forall k :: 0 <= k < |GeneratePage(page, steps, ids)| ==>
      GeneratePage(page, steps, ids)[k].cardType == TYPE_VIDEO ==>
      GeneratePage(page, steps, ids)[k].spanType == SPAN_SINGLE
  {
    PlanVideosAreSingle(steps, 0);
  }

  /** The shapes split into steps: one full-row shape, or two half-row picture shapes. */
  predicate SlotsPaired(plan: seq<Slot>)
    decreases |plan|
  {
    if plan == [] then true
    else if plan[0].isSingle then SlotsPaired(plan[1..])
    else
      && |plan| >= 2 && !plan[1].isSingle
      && !plan[0].isVideo && !plan[1].isVideo
      && SlotsPaired(plan[2..])
  }

  lemma {:induction false} PlanIsPaired(steps: seq<StepDraw>, count: nat)
    requires count + |steps| >= PAGE_SIZE
    ensures SlotsPaired(Plan(steps, count))
    decreases PAGE_SIZE - count
  {
    if count < PAGE_SIZE {
      var plan := Plan(steps, count);
      if IsSingle(steps[0]) {
        PlanIsPaired(steps[1..], count + 1);
        assert plan[1..] == Plan(steps[1..], count + 1);
      } else {
        PlanIsPaired(steps[1..], count + 2);
        assert plan[2..] == Plan(steps[1..], count + 2);
      }
    }
  }

  /**
   * From position `i` on, the cards split into steps: a full-row card alone,
   * or two adjacent half-row cards, neither of them a video.
   */
  predicate PairedFrom(cards: seq<Card>, i: nat)
    decreases |cards| - i
  {
    if i >= |cards| then true
    else if cards[i].spanType == SPAN_SINGLE then PairedFrom(cards, i + 1)
    else
      && i + 1 < |cards|
      && cards[i].spanType == SPAN_DOUBLE && cards[i + 1].spanType == SPAN_DOUBLE
      && cards[i].cardType != TYPE_VIDEO && cards[i + 1].cardType != TYPE_VIDEO
      && PairedFrom(cards, i + 2)
  }

  lemma {:induction false} MaterializePaired(page: int, plan: seq<Slot>, ids: seq<string>, i: nat)
    requires |plan| <= |ids| && i <= |plan|
    requires SlotsPaired(plan[i..])
    ensures PairedFrom(Materialize(page, plan, ids), i)
    decreases |plan| - i
  {
    if i < |plan| {
      if plan[i].isSingle {
        assert plan[i..][1..] == plan[i + 1..];
        MaterializePaired(page, plan, ids, i + 1);
      } else {
        assert plan[i..][2..] == plan[i + 2..];
        MaterializePaired(page, plan, ids, i + 2);
      }
    }
  }

  /** Half-row cards come in adjacent pairs from one loop step, and neither card of a pair is a video. */
  lemma DoublesArePaired(page: int, steps: seq<StepDraw>, ids: seq<string>)
    requires |steps| >= PAGE_SIZE && |ids| > PAGE_SIZE
    ensures PairedFrom(GeneratePage(page, steps, ids), 0)
  {
    var plan := Plan(steps, 0);
    PlanIsPaired(steps, 0);
    assert plan[0..] == plan;
    MaterializePaired(page, plan, ids, 0);
  }

  /** Grid cells a run of cards covers: two for a full-row card, one for a half-row card. */
  function GridCells(cards: seq<Card>): nat {
    if cards == [] then 0
    else (if cards[0].spanType == SPAN_SINGLE then 2 else 1) + GridCells(cards[1..])
  }

  lemma {:induction false} GridCellsAppend(a: seq<Card>, b: seq<Card>)
    ensures GridCells(a + b) == GridCells(a) + GridCells(b)
    decreases |a|
  {
    if a != [] {
      GridCellsAppend(a[1..], b);
      assert (a + b)[0] == a[0];
      assert (a + b)[1..] == a[1..] + b;
    } else {
      assert a + b == b;
    }
  }

  /** The cards of one loop step cover exactly one grid row. */
  lemma StepFillsRow(cards: seq<Card>, i: nat)
    requires i < |cards| && PairedFrom(cards, i)
    ensures var n := if cards[i].spanType == SPAN_SINGLE then 1 else 2;
      i + n <= |cards| && GridCells(cards[i..i + n]) == 2 && PairedFrom(cards, i + n)
  {
    var n := if cards[i].spanType == SPAN_SINGLE then 1 else 2;
    var head := cards[i..i + n];
    if n == 2 {
      assert head[1..] == [cards[i + 1]];
      assert head[1..][1..] == [];
      assert GridCells(head[1..]) == 1;
    } else {
      assert head[1..] == [];
    }
  }

  /** The cells of a slice split at any point in between. */
  lemma SplitCells(cards: seq<Card>, i: nat, j: nat, k: nat)
    requires i <= j <= k <= |cards|
    ensures GridCells(cards[i..k]) == GridCells(cards[i..j]) + GridCells(cards[j..k])
  {
    assert cards[i..k] == cards[i..j] + cards[j..k];
    GridCellsAppend(cards[i..j], cards[j..k]);
  }

  /** Why the pairing matters: a paired run fills whole rows of the two-column grid. */
  lemma {:induction false} PairedFillsRows(cards: seq<Card>, i: nat)
    requires i <= |cards| && PairedFrom(cards, i)
    ensures GridCells(cards[i..]) % 2 == 0
    decreases |cards| - i
  {
    if i == |cards| {
      assert cards[i..] == [];
    } else {
      StepFillsRow(cards, i);
      var n := if cards[i].spanType == SPAN_SINGLE then 1 else 2;
      PairedFillsRows(cards, i + n);
      SplitCells(cards, i, i + n, |cards|);
      assert cards[i..|cards|] == cards[i..] && cards[i + n..|cards|] == cards[i + n..];
    }
  }

  /** In a paired run, every full-row card starts a new row: an even number of cells precedes it. */
  lemma {:induction false} FullRowStartsRow(cards: seq<Card>, i: nat, k: nat)
    requires i <= k < |cards| && PairedFrom(cards, i) && cards[k].spanType == SPAN_SINGLE
    ensures GridCells(cards[i..k]) % 2 == 0
    decreases k - i
  {
    StepFillsRow(cards, i);
    var n := if cards[i].spanType == SPAN_SINGLE then 1 else 2;
    if k >= i + n {
      FullRowStartsRow(cards, i + n, k);
      SplitCells(cards, i, i + n, k);
    } else {
      assert cards[i..k] == [];
    }
  }

  /** Every generated page fills whole rows of the two-column grid, and no full-row card starts mid-row. */
  lemma PageFillsRows(page: int, steps: seq<StepDraw>, ids: seq<string>)
    requires |steps| >= PAGE_SIZE && |ids| > PAGE_SIZE
    ensures var cards := GeneratePage(page, steps, ids);
      && GridCells(cards) % 2 == 0
      && forall k :: 0 <= k < |cards| && cards[k].spanType == SPAN_SINGLE ==> GridCells(cards[..k]) % 2 == 0
  {
    var cards := GeneratePage(page, steps, ids);
    DoublesArePaired(page, steps, ids);
    PairedFillsRows(cards, 0);
    assert cards[0..] == cards;
    forall k | 0 <= k < |cards| && cards[k].spanType == SPAN_SINGLE
      ensures GridCells(cards[..k]) % 2 == 0
    {
      FullRowStartsRow(cards, 0, k);
      assert cards[..k] == cards[0..k];
    }
  }

  /** A card constructor with `createCard`'s parameters: page, index, full-row, video, id. */
  type CardMaker = (int, int, bool, bool, string) -> Card

  /** The cards `make` builds for `plan`, the first of them being card number `from` of the page. */
  function MapSlots(make: CardMaker, page: int, startId: int, from: nat, plan: seq<Slot>, ids: seq<string>)
    : (cards: seq<Card>)
    requires from + |plan| <= |ids|
    ensures |cards| == |plan|
    ensures forall k :: 0 <= k < |plan| ==>
      cards[k] == make(page, startId + from + k, plan[k].isSingle, plan[k].isVideo, ids[from + k])
  {
    seq(|plan|, k requires 0 <= k < |plan| =>
      make(page, startId + from + k, plan[k].isSingle, plan[k].isVideo, ids[from + k]))
  }

  /**
   * The list the generation loop ends with when it is about to take the draws
   * at `step`, with `count` cards emitted so far, collected in `acc`.
   */
  function LoopResult(make: CardMaker, page: int, startId: int, steps: seq<StepDraw>, ids: seq<string>,
                      step: nat, count: nat, acc: seq<Card>): seq<Card>
    requires step <= count <= PAGE_SIZE + 1 && |steps| >= PAGE_SIZE && |ids| > PAGE_SIZE
    decreases PAGE_SIZE - count
  {
    if count >= PAGE_SIZE then acc
    else if IsSingle(steps[step]) then
      LoopResult(make, page, startId, steps, ids, step + 1, count + 1,
        acc + [make(page, startId + count, true, IsVideo(steps[step]), ids[count])])
    else
      LoopResult(make, page, startId, steps, ids, step + 1, count + 2,
        acc + [make(page, startId + count, false, false, ids[count])]
            + [make(page, startId + (count + 1), false, false, ids[count + 1])])
  }

  lemma AppendAssoc<T>(a: seq<T>, b: seq<T>, c: seq<T>)
    ensures (a + b) + c == a + (b + c)
  {
  }

  lemma MapSlotsSingle(make: CardMaker, page: int, startId: int, from: nat, s: Slot, rest: seq<Slot>, ids: seq<string>)
    requires from + 1 + |rest| <= |ids|
    ensures MapSlots(make, page, startId, from, [s] + rest, ids)
      == [make(page, startId + from, s.isSingle, s.isVideo, ids[from])] + MapSlots(make, page, startId, from + 1, rest, ids)
  {
  }

  lemma MapSlotsPair(make: CardMaker, page: int, startId: int, from: nat, s: Slot, t: Slot, rest: seq<Slot>, ids: seq<string>)
    requires from + 2 + |rest| <= |ids|
    ensures MapSlots(make, page, startId, from, [s, t] + rest, ids)
      == [make(page, startId + from, s.isSingle, s.isVideo, ids[from]),
          make(page, startId + (from + 1), t.isSingle, t.isVideo, ids[from + 1])]
         + MapSlots(make, page, startId, from + 2, rest, ids)
  {
  }

  /** The loop from any point emits the cards of the remaining shapes, in order, after those it has. */
  lemma {:induction false} LoopResultIsMapped(make: CardMaker, page: int, startId: int, steps: seq<StepDraw>,
                                              ids: seq<string>, step: nat, count: nat, acc: seq<Card>)
    requires step <= count <= PAGE_SIZE + 1 && step <= PAGE_SIZE && |steps| >= PAGE_SIZE && |ids| > PAGE_SIZE
    ensures LoopResult(make, page, startId, steps, ids, step, count, acc)
      == acc + MapSlots(make, page, startId, count, Plan(steps[step..], count), ids)
    decreases PAGE_SIZE - count
  {
    if count >= PAGE_SIZE {
      assert acc + [] == acc;
    } else {
      PlanUnfold(steps, step, count);
      if IsSingle(steps[step]) {
        var c := make(page, startId + count, true, IsVideo(steps[step]), ids[count]);
        var rest := Plan(steps[step + 1..], count + 1);
        LoopResultIsMapped(make, page, startId, steps, ids, step + 1, count + 1, acc + [c]);
        MapSlotsSingle(make, page, startId, count, Slot(true, IsVideo(steps[step])), rest, ids);
        AppendAssoc(acc, [c], MapSlots(make, page, startId, count + 1, rest, ids));
      } else {
        var c := make(page, startId + count, false, false, ids[count]);
        var e := make(page, startId + (count + 1), false, false, ids[count + 1]);
        var rest := Plan(steps[step + 1..], count + 2);
        LoopResultIsMapped(make, page, startId, steps, ids, step + 1, count + 2, acc + [c] + [e]);
        MapSlotsPair(make, page, startId, count, Slot(false, false), Slot(false, false), rest, ids);
        assert acc + [c] + [e] == acc + [c, e];
        AppendAssoc(acc, [c, e], MapSlots(make, page, startId, count + 2, rest, ids));
      }
    }
  }

  /** The whole loop, started with no cards, emits one card per shape of `Plan(steps, 0)`. */
  lemma LoopEmitsPlan(make: CardMaker, page: int, steps: seq<StepDraw>, ids: seq<string>)
    requires |steps| >= PAGE_SIZE && |ids| > PAGE_SIZE
    ensures LoopResult(make, page, StartId(page), steps, ids, 0, 0, [])
      == MapSlots(make, page, StartId(page), 0, Plan(steps, 0), ids)
  {
    LoopResultIsMapped(make, page, StartId(page), steps, ids, 0, 0, []);
    assert steps[0..] == steps;
  }

  /** With `createCard` as the constructor, the emitted cards are the generated page. */
  lemma MaterializeIsMapped(page: int, plan: seq<Slot>, ids: seq<string>)
    requires |plan| <= |ids|
    ensures MapSlots(CreateCard, page, StartId(page), 0, plan, ids) == Materialize(page, plan, ids)
  {
  }

  /**
   * The generation loop of `fetchFeed`: each step draws the video roll, then
   * the coin unless the card is a video, and emits one full-row card or two
   * half-row picture cards, until at least ten cards exist. It is written over
   * the card constructor it calls; `FetchFeed` passes `CreateCard`.
   */
  method GenerateCards(page: int, steps: seq<StepDraw>, ids: seq<string>, createCard: CardMaker)
    returns (list: seq<Card>)
    requires |steps| >= PAGE_SIZE && |ids| > PAGE_SIZE
    ensures list == MapSlots(createCard, page, StartId(page), 0, Plan(steps, 0), ids)
  {
    list := [];
    var startId := (page - 1) * PAGE_SIZE;
    var currentCount := 0;
    var step := 0;
    while currentCount < PAGE_SIZE
      invariant 0 <= step <= currentCount <= PAGE_SIZE + 1
      invariant LoopResult(createCard, page, startId, steps, ids, step, currentCount, list)
        == LoopResult(createCard, page, startId, steps, ids, 0, 0, [])
      decreases PAGE_SIZE - currentCount
    {
      var d := steps[step];
      step := step + 1;
      var isVideo := IsVideo(d);
      var isSingle := isVideo || d.coin;
      if isSingle {
        list := list + [createCard(page, startId + currentCount, true, isVideo, ids[currentCount])];
        currentCount := currentCount + 1;
      } else {
        list := list + [createCard(page, startId + currentCount, false, false, ids[currentCount])];
        currentCount := currentCount + 1;
        list := list + [createCard(page, startId + currentCount, false, false, ids[currentCount])];
        currentCount := currentCount + 1;
      }
    }
    LoopEmitsPlan(createCard, page, steps, ids);
  }

  /**
   * `fetchFeed` as a function of the draws and the stored preferences: its
   * outcome and the preferences afterwards.
   */
  function FetchFeedSpec(page: int, failRoll: int, steps: seq<StepDraw>, ids: seq<string>, prefs: Prefs)
    : (r: (FetchOutcome, Prefs))
    requires |steps| >= PAGE_SIZE && |ids| > PAGE_SIZE
    // only page 1 ever fails, and only with an empty snapshot
    ensures r.0.Failed? ==> page == 1 && ShouldFail(failRoll) && Load(prefs) == [] && r.0.message == FAILURE_MESSAGE
    // a cache result is the non-empty snapshot of a failed page 1
    ensures r.0.Fetched? && r.0.fromCache ==>
      page == 1 && ShouldFail(failRoll) && r.0.cards == Load(prefs) && r.0.cards != []
    // a fresh result is the generated page
    ensures r.0.Fetched? && !r.0.fromCache ==> r.0.cards == GeneratePage(page, steps, ids)
    // a failing page 1 falls back to the snapshot, or fails when there is none
    ensures page == 1 && ShouldFail(failRoll) ==>
      r == (if Load(prefs) != [] then Fetched(Load(prefs), true) else Failed(FAILURE_MESSAGE), prefs)
    // a page 1 that does not fail is the generated page
    ensures page == 1 && !ShouldFail(failRoll) ==> r.0 == Fetched(GeneratePage(1, steps, ids), false)
    // a page other than 1 always succeeds with a fresh page
    ensures page != 1 ==> r.0 == Fetched(GeneratePage(page, steps, ids), false)
    // only a fresh page 1 writes the snapshot, and it writes exactly that page
    ensures r.1 == (if page == 1 && r.0.Fetched? && !r.0.fromCache then Save(prefs, r.0.cards) else prefs)
  {
    if ShouldFail(failRoll) && page == 1 then
      var cached := Load(prefs);
      if |cached| > 0 then (Fetched(cached, true), prefs) else (Failed(FAILURE_MESSAGE), prefs)
    else
      var list := GeneratePage(page, steps, ids);
      (Fetched(list, false), if page == 1 then Save(prefs, list) else prefs)
  }

  /** After a fresh page 1, the snapshot loads back as exactly that page. */
  lemma FreshFirstPageIsCached(failRoll: int, steps: seq<StepDraw>, ids: seq<string>, prefs: Prefs)
    requires |steps| >= PAGE_SIZE && |ids| > PAGE_SIZE
    requires !ShouldFail(failRoll)
    ensures var (r, after) := FetchFeedSpec(1, failRoll, steps, ids, prefs);
      r == Fetched(GeneratePage(1, steps, ids), false) && Load(after) == r.cards
  {
    LoadAfterSave(prefs, GeneratePage(1, steps, ids));
  }

  /** A failed page 1 right after a fresh page 1 serves that same page from the snapshot. */
  lemma FallbackServesLastFirstPage(roll1: int, roll2: int, steps1: seq<StepDraw>, steps2: seq<StepDraw>,
                                    ids1: seq<string>, ids2: seq<string>, prefs: Prefs)
    requires |steps1| >= PAGE_SIZE && |ids1| > PAGE_SIZE && |steps2| >= PAGE_SIZE && |ids2| > PAGE_SIZE
    requires !ShouldFail(roll1) && ShouldFail(roll2)
    ensures var (_, after) := FetchFeedSpec(1, roll1, steps1, ids1, prefs);
      FetchFeedSpec(1, roll2, steps2, ids2, after).0 == Fetched(GeneratePage(1, steps1, ids1), true)
  {
    PageHasTenOrElevenCards(1, steps1, ids1);
    FreshFirstPageIsCached(roll1, steps1, ids1, prefs);
  }

  /** The repository; it holds the snapshot store it reads and writes. */
  class Repository {
    const cacheManager: CacheManager

    constructor (cacheManager: CacheManager)
      ensures this.cacheManager == cacheManager
    {
      this.cacheManager := cacheManager;
    }

    /** `fetchFeed`: the failure draw, the generation loop, the snapshot write and the fallback. */
    method FetchFeed(page: int, failRoll: int, steps: seq<StepDraw>, ids: seq<string>) returns (r: FetchOutcome)
      requires |steps| >= PAGE_SIZE && |ids| > PAGE_SIZE
      modifies cacheManager
      ensures (r, cacheManager.prefs) == FetchFeedSpec(page, failRoll, steps, ids, old(cacheManager.prefs))
    {
      if ShouldFail(failRoll) && page == 1 {
        // the simulated exception, caught below: page is 1 here
        var cached := cacheManager.LoadCache();
        if |cached| > 0 {
          return Fetched(cached, true);
        }
        return Failed(FAILURE_MESSAGE);
      }
      var list := GenerateCards(page, steps, ids, CreateCard);
      MaterializeIsMapped(page, Plan(steps, 0), ids);
      if page == 1 {
        cacheManager.SaveCache(list);
      }
      return Fetched(list, false);
    }
  }
}
