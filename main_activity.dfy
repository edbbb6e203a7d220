/**
 * The screen of the single-file version: per-card exposure tracking driven by
 * scrolling, the video start/stop it triggers, the on-screen log, and the
 * load-more trigger.
 *
 * Exposure is a three-state machine per card id over the fraction of the card
 * inside the list's visible rectangle. The fraction is kept as two integer
 * areas (`Ratio(visible, total)`), so its comparisons with 0, 0.5 and 1 are
 * exact. The clock that stamps log lines is an input.
 */
module MainActivity {
  import opened ActivityCard
  import opened Nullable
  import opened Text
  import opened ActivityAdapter
  import ActivityViewModel
  import ActivityRepository

  /** The log view keeps this many characters. */
  const LOG_LIMIT: nat := 2000
  /** What the layout manager reports when no position is visible. */
  const NO_POSITION: int := -1

  const REFRESH_LOG: string := "🔄 下拉刷新触发"

  // ---------------------------------------------------------------- the log

  /** The line `logToConsole` puts in front: timestamp, space, message, newline. */
  function LogLine(clock: string, msg: string): string {
    clock + " " + msg + "\n"
  }

  /** `logToConsole(msg)`: the new line in front of the old text, cut to the limit. */
  function AppendLog(log: string, clock: string, msg: string): (r: string)
    ensures |r| <= LOG_LIMIT && |r| <= |LogLine(clock, msg) + log|
    ensures |r| == LOG_LIMIT || |r| == |LogLine(clock, msg) + log|
    ensures r == (LogLine(clock, msg) + log)[..|r|]
    ensures |LogLine(clock, msg) + log| <= LOG_LIMIT ==> r == LogLine(clock, msg) + log
    ensures |LogLine(clock, msg)| <= LOG_LIMIT ==> r[..|LogLine(clock, msg)|] == LogLine(clock, msg)
  {
    Take(LogLine(clock, msg) + log, LOG_LIMIT)
  }

  /** Older text is pushed back behind the new line and survives as far as the limit allows. */
  lemma OlderLogShifts(log: string, clock: string, msg: string, k: nat)
    requires k <= |log| && |LogLine(clock, msg)| + k <= LOG_LIMIT
    ensures var line := LogLine(clock, msg);
      AppendLog(log, clock, msg)[|line|..|line| + k] == log[..k]
  {
    var line := LogLine(clock, msg);
    var r := AppendLog(log, clock, msg);
    assert |r| >= |line| + k;
    assert r[|line|..|line| + k] == (line + log)[|line|..|line| + k];
  }

  /** Several lines logged in order. */
  function AppendLines(log: string, clock: string, lines: seq<string>): (r: string)
    ensures lines != [] ==> |r| <= LOG_LIMIT
    ensures lines == [] ==> r == log
    decreases |lines|
  {
    if lines == [] then log else AppendLog(AppendLines(log, clock, lines[..|lines| - 1]), clock, lines[|lines| - 1])
  }

  // --------------------------------------------------------- exposure states

  datatype ExposureState = NONE | PARTIAL | FULL

  /** The visible fraction `visible / total` of a card; `total` is the card's own area. */
  datatype Ratio = Ratio(visible: int, total: int)

  /** `ratio <= 0f`. */
  predicate Hidden(r: Ratio) {
    r.visible <= 0
  }

  /** `ratio >= 0.5f`. */
  predicate HalfShown(r: Ratio) {
    2 * r.visible >= r.total
  }

  /** `ratio >= 1.0f`. */
  predicate FullyShown(r: Ratio) {
    r.visible >= r.total
  }

  /** `exposureStates[id] ?: NONE`. */
  function Lookup(states: map<string, ExposureState>, id: string): ExposureState {
    if id in states then states[id] else NONE
  }

  function Rank(s: ExposureState): nat {
    match s
    case NONE => 0
    case PARTIAL => 1
    case FULL => 2
  }

  /** The state a call of `handleExposureEvent` leaves. */
  function NextState(current: ExposureState, r: Ratio): (next: ExposureState)
    // back to NONE exactly when the card is out of sight
    ensures next == NONE <==> Hidden(r)
    // FULL once seen whole, and kept while in sight
    ensures next == FULL <==> !Hidden(r) && (current == FULL || FullyShown(r))
  {
    if Hidden(r) then NONE
    else if current == FULL || FullyShown(r) then FULL
    else PARTIAL
  }

  /** While the card stays in sight its state never moves down. */
  lemma NeverDowngradedInSight(current: ExposureState, r: Ratio)
    requires !Hidden(r)
    ensures Rank(NextState(current, r)) >= Rank(current)
    ensures current == NONE ==> NextState(current, r) != NONE
  {
  }

  /** The map after the call: the card's entry is written only when its state changes. */
  function UpdateStates(states: map<string, ExposureState>, id: string, r: Ratio): (after: map<string, ExposureState>)
    ensures Lookup(after, id) == NextState(Lookup(states, id), r)
    ensures NextState(Lookup(states, id), r) == Lookup(states, id) ==> after == states
    ensures forall k :: k != id ==> (k in after <==> k in states)
    ensures forall k :: k != id && k in states ==> after[k] == states[k]
  {
    var current := Lookup(states, id);
    var next := NextState(current, r);
    if next == current then states else states[id := next]
  }

  /** The states of one card after a run of calls. */
  function StateAfter(start: ExposureState, rs: seq<Ratio>): ExposureState
    decreases |rs|
  {
    if rs == [] then start else NextState(StateAfter(start, rs[..|rs| - 1]), rs[|rs| - 1])
  }

  /** No ratio from index `j` on is out of sight. */
  predicate InSightFrom(rs: seq<Ratio>, j: nat) {
    forall k :: j <= k < |rs| ==> !Hidden(rs[k])
  }

  /**
   * Over a run of calls, a card is NONE exactly when the last call saw it out
   * of sight, and FULL exactly when it was seen whole at some call and never
   * out of sight since (or started FULL and never left sight).
   */
  lemma {:induction false} ExposureTrace(start: ExposureState, rs: seq<Ratio>)
    ensures StateAfter(start, rs) == NONE <==> (if rs == [] then start == NONE else Hidden(rs[|rs| - 1]))
    ensures StateAfter(start, rs) == FULL <==>
      (start == FULL && InSightFrom(rs, 0)) || (exists j :: 0 <= j < |rs| && FullyShown(rs[j]) && InSightFrom(rs, j))
    decreases |rs|
  {
    if rs != [] {
      var n := |rs|;
      var prefix := rs[..n - 1];
      var last := rs[n - 1];
      ExposureTrace(start, prefix);
      if Hidden(last) {
        forall j | 0 <= j < n
          ensures !InSightFrom(rs, j)
        {
          assert Hidden(rs[n - 1]);
        }
      } else {
        assert InSightFrom(rs, n - 1);
        forall j | 0 <= j < n - 1
          ensures InSightFrom(rs, j) <==> InSightFrom(prefix, j)
        {
          if InSightFrom(prefix, j) {
            forall k | j <= k < n
              ensures !Hidden(rs[k])
            {
              if k < n - 1 {
                assert rs[k] == prefix[k];
              }
            }
          }
          if InSightFrom(rs, j) {
            forall k | j <= k < n - 1
              ensures !Hidden(prefix[k])
            {
              assert rs[k] == prefix[k];
            }
          }
        }
        if InSightFrom(rs, 0) {
          if n > 1 {
            assert InSightFrom(prefix, 0);
          }
        }
        if start == FULL && InSightFrom(prefix, 0) {
          if n > 1 {
            assert InSightFrom(rs, 0);
          } else {
            assert InSightFrom(rs, 0);
          }
        }
        if StateAfter(start, prefix) == FULL {
          if !(start == FULL && InSightFrom(prefix, 0)) {
            var j :| 0 <= j < |prefix| && FullyShown(prefix[j]) && InSightFrom(prefix, j);
            assert rs[j] == prefix[j];
          }
        }
        if exists j :: 0 <= j < n && FullyShown(rs[j]) && InSightFrom(rs, j) {
          var j :| 0 <= j < n && FullyShown(rs[j]) && InSightFrom(rs, j);
          if j < n - 1 {
            assert prefix[j] == rs[j];
          }
        }
      }
    }
  }

  // ---------------------------------------------------------------- effects

  /** What a call does besides updating the map, in order. */
  datatype Effect = Log(message: string) | StartVideo | StopVideo

  function GoneMessage(id: string): string {
    "👻 卡片消失: " + Take(id, 4) + "..."
  }

  function ShownMessage(id: string): string {
    "👀 卡片露出: " + Take(id, 4) + "..."
  }

  function FullMessage(id: string): string {
    "🌟 卡片完整展示 (100%): " + Take(id, 4) + "..."
  }

  /** The effects of `handleExposureEvent` for a card in state `current`. */
  function Effects(current: ExposureState, isVideo: bool, id: string, r: Ratio): (e: seq<Effect>)
    // a video is started exactly when at least half of it is in sight
    ensures StartVideo in e <==> isVideo && !Hidden(r) && HalfShown(r)
    // and stopped when less than half is in sight, or when it leaves sight from a tracked state
    ensures StopVideo in e <==> isVideo && (if Hidden(r) then current != NONE else !HalfShown(r))
    // out of sight and untracked: nothing at all
    ensures Hidden(r) && current == NONE ==> e == []
  {
    if Hidden(r) then GoneEffects(current, isVideo, id)
    else ShownEffects(current, id) + PlayEffects(current, isVideo, id, r)
  }

  /** Out of sight: a tracked card logs its disappearance and a video stops. */
  function GoneEffects(current: ExposureState, isVideo: bool, id: string): seq<Effect> {
    if current != NONE then [Log(GoneMessage(id))] + (if isVideo then [StopVideo] else []) else []
  }

  /** In sight for the first time: the appearance is logged. */
  function ShownEffects(current: ExposureState, id: string): seq<Effect> {
    if current == NONE then [Log(ShownMessage(id))] else []
  }

  /** In sight: a video plays from half shown on, and a first whole showing is logged. */
  function PlayEffects(current: ExposureState, isVideo: bool, id: string, r: Ratio): seq<Effect> {
    if HalfShown(r) then
      (if isVideo then [StartVideo] else [])
      + (if current != FULL && FullyShown(r) then [Log(FullMessage(id))] else [])
    else if isVideo then [StopVideo] else []
  }

  /** The number of log lines among the effects. */
  function LogCount(e: seq<Effect>): nat
    decreases |e|
  {
    if e == [] then 0 else (if e[0].Log? then 1 else 0) + LogCount(e[1..])
  }

  lemma {:induction false} LogCountAppend(a: seq<Effect>, b: seq<Effect>)
    ensures LogCount(a + b) == LogCount(a) + LogCount(b)
    decreases |a|
  {
    if a == [] {
      assert a + b == b;
    } else {
      LogCountAppend(a[1..], b);
      assert (a + b)[1..] == a[1..] + b;
    }
  }

  /**
   * The exposure log records every change of state and nothing else: one line
   * per call that changes the state, two when a card goes from untracked to
   * whole in one call.
   */
  lemma LogsMarkChanges(current: ExposureState, isVideo: bool, id: string, r: Ratio)
    ensures var n := LogCount(Effects(current, isVideo, id, r));
      && (n == 0 <==> NextState(current, r) == current)
      && (n == 2 <==> current == NONE && !Hidden(r) && FullyShown(r))
      && n <= 2
  {
    var video := if isVideo then [StartVideo] else [];
    var stop := if isVideo then [StopVideo] else [];
    assert LogCount(video) == 0 by {
      if isVideo {
        assert video[1..] == [];
      }
    }
    assert LogCount(stop) == 0 by {
      if isVideo {
        assert stop[1..] == [];
      }
    }
    if Hidden(r) {
      if current != NONE {
        LogCountAppend([Log(GoneMessage(id))], stop);
      }
    } else {
      var first := if current == NONE then [Log(ShownMessage(id))] else [];
      var full := if current != FULL && FullyShown(r) then [Log(FullMessage(id))] else [];
      LogCountAppend(video, full);
      var rest := if HalfShown(r) then video + full else stop;
      LogCountAppend(first, rest);
    }
  }

  /** One effect applied to the log and the card holder at `position`. */
  function Apply(e: Effect, log: string, h: Holder, position: int, clock: string): (r: (string, Holder))
    ensures |log| <= LOG_LIMIT ==> |r.0| <= LOG_LIMIT
    ensures e.Log? ==> r.1 == h
  {
    match e
    case Log(msg) => (AppendLog(log, clock, msg), h)
    case StartVideo =>
      var (h2, lines) := Start(h, position);
      (AppendLines(log, clock, lines), h2)
    case StopVideo =>
      var (h2, lines) := Stop(h, position);
      (AppendLines(log, clock, lines), h2)
  }

  /** The effects applied in order. */
  function RunEffects(es: seq<Effect>, log: string, h: Holder, position: int, clock: string): (string, Holder)
    decreases |es|
  {
    if es == [] then (log, h)
    else
      var next := Apply(es[0], log, h, position, clock);
      RunEffects(es[1..], next.0, next.1, position, clock)
  }

  /** In sight, the effects are the first-sight line (if any) followed by the playback part. */
  lemma ShownThenPlay(current: ExposureState, isVideo: bool, id: string, r: Ratio,
                      log: string, h: Holder, position: int, clock: string)
    requires !Hidden(r)
    ensures var play := PlayEffects(current, isVideo, id, r);
      RunEffects(Effects(current, isVideo, id, r), log, h, position, clock)
      == if current == NONE then RunEffects(play, AppendLog(log, clock, ShownMessage(id)), h, position, clock)
         else RunEffects(play, log, h, position, clock)
  {
    var play := PlayEffects(current, isVideo, id, r);
    if current == NONE {
      assert ([Log(ShownMessage(id))] + play)[1..] == play;
    } else {
      assert [] + play == play;
    }
  }

  /** Log lines leave the holder alone. */
  lemma {:induction false} RunWithoutVideo(es: seq<Effect>, log: string, h: Holder, position: int, clock: string)
    requires forall k :: 0 <= k < |es| ==> es[k].Log?
    ensures RunEffects(es, log, h, position, clock).1 == h
    ensures es != [] ==> |RunEffects(es, log, h, position, clock).0| <= LOG_LIMIT
    decreases |es|
  {
    if es != [] {
      var next := Apply(es[0], log, h, position, clock);
      RunWithoutVideo(es[1..], next.0, next.1, position, clock);
    }
  }

  /** Every effect keeps the log within its limit. */
  lemma {:induction false} RunBounded(es: seq<Effect>, log: string, h: Holder, position: int, clock: string)
    ensures |log| <= LOG_LIMIT ==> |RunEffects(es, log, h, position, clock).0| <= LOG_LIMIT
    decreases |es|
  {
    if es != [] {
      var next := Apply(es[0], log, h, position, clock);
      RunBounded(es[1..], next.0, next.1, position, clock);
    }
  }

  /**
   * With one playback effect at index `v`, followed only by log lines, the
   * holder ends as that effect leaves it.
   */
  lemma {:induction false} RunVideoTail(es: seq<Effect>, v: nat, log: string, h: Holder, position: int, clock: string)
    requires v < |es| && (es[v] == StartVideo || es[v] == StopVideo)
    requires forall k :: v < k < |es| ==> es[k].Log?
    ensures es[v] == StartVideo ==> Playing(RunEffects(es, log, h, position, clock).1)
    ensures es[v] == StopVideo ==> !Playing(RunEffects(es, log, h, position, clock).1)
    decreases |es|
  {
    var next := Apply(es[0], log, h, position, clock);
    if v == 0 {
      assert forall k :: 0 <= k < |es[1..]| ==> es[1..][k] == es[k + 1];
      RunWithoutVideo(es[1..], next.0, next.1, position, clock);
    } else {
      assert es[1..][v - 1] == es[v];
      assert forall k :: v - 1 < k < |es[1..]| ==> es[1..][k] == es[k + 1];
      RunVideoTail(es[1..], v - 1, next.0, next.1, position, clock);
    }
  }

  /**
   * The playback a call leaves: a picture card's holder is untouched; a video
   * plays at half or more in sight and is stopped below that, and leaving
   * sight from NONE changes nothing at all. The log stays within its limit.
   */
  lemma PlaybackFollowsExposure(current: ExposureState, isVideo: bool, id: string, r: Ratio,
                                log: string, h: Holder, position: int, clock: string)
    ensures var (log2, h2) := RunEffects(Effects(current, isVideo, id, r), log, h, position, clock);
      && (!isVideo ==> h2 == h)
      && (isVideo && !Hidden(r) && HalfShown(r) ==> Playing(h2))
      && (isVideo && !Hidden(r) && !HalfShown(r) ==> !Playing(h2))
      && (isVideo && Hidden(r) && current != NONE ==> !Playing(h2))
      && (Hidden(r) && current == NONE ==> (log2, h2) == (log, h))
      && (|log| <= LOG_LIMIT ==> |log2| <= LOG_LIMIT)
  {
    var es := Effects(current, isVideo, id, r);
    RunBounded(es, log, h, position, clock);
    if !isVideo {
      RunWithoutVideo(es, log, h, position, clock);
    } else if es != [] {
      var k := |es| - 1;
      var video := if es[k].Log? then k - 1 else k;
      // the playback effect is the last effect or the one before the last log line
      assert es[video] == StartVideo || es[video] == StopVideo;
      RunVideoTail(es, video, log, h, position, clock);
    }
  }

  // --------------------------------------------------------------- geometry

  /** `android.graphics.Rect`: left and top inclusive, right and bottom exclusive. */
  datatype Rect = Rect(left: int, top: int, right: int, bottom: int)

  function Width(r: Rect): int {
    r.right - r.left
  }

  function Height(r: Rect): int {
    r.bottom - r.top
  }

  /** `!isEmpty()`: positive width and height. */
  predicate NonEmpty(r: Rect) {
    r.left < r.right && r.top < r.bottom
  }

  predicate Inside(inner: Rect, outer: Rect) {
    outer.left <= inner.left && inner.right <= outer.right && outer.top <= inner.top && inner.bottom <= outer.bottom
  }

  function Max(a: int, b: int): int {
    if a >= b then a else b
  }

  function Min(a: int, b: int): int {
    if a <= b then a else b
  }

  /** `a.intersect(b)`: the common part when the two overlap with positive area, else nothing. */
  function Intersect(a: Rect, b: Rect): (r: Option<Rect>)
    ensures r.Some? <==> a.left < b.right && b.left < a.right && a.top < b.bottom && b.top < a.bottom
    ensures r.Some? ==> Inside(r.value, a) && Inside(r.value, b)
    ensures r.Some? && NonEmpty(a) && NonEmpty(b) ==> NonEmpty(r.value)
  {
    if a.left < b.right && b.left < a.right && a.top < b.bottom && b.top < a.bottom then
      Some(Rect(Max(a.left, b.left), Max(a.top, b.top), Min(a.right, b.right), Min(a.bottom, b.bottom)))
    else None
  }

  lemma IntersectCommutes(a: Rect, b: Rect)
    ensures Intersect(a, b) == Intersect(b, a)
  {
  }

  /** The common part is the largest rectangle inside both. */
  lemma IntersectIsLargest(a: Rect, b: Rect, c: Rect)
    requires Intersect(a, b).Some? && Inside(c, a) && Inside(c, b)
    ensures Inside(c, Intersect(a, b).value)
  {
  }

  lemma MulMonotone(a: int, b: int, c: int, d: int)
    requires 0 <= a <= c && 0 <= b <= d
    ensures a * b <= c * d
  {
    assert a * b <= c * b;
    assert c * b <= c * d;
  }

  /**
   * A card whose visible rectangle fits in its own size gets a ratio in (0, 1]:
   * an intersecting card is never treated as out of sight, and it counts as
   * whole exactly when all of it is in the list's rectangle.
   */
  lemma RatioWithinBounds(item: Rect, list: Rect, width: int, height: int)
    requires Intersect(item, list).Some?
    ensures var x := Intersect(item, list).value;
      NonEmpty(item) && NonEmpty(list) && Width(item) <= width && Height(item) <= height ==>
      0 < Width(x) * Height(x) <= width * height
  {
    var x := Intersect(item, list).value;
    if NonEmpty(item) && NonEmpty(list) && Width(item) <= width && Height(item) <= height {
      MulMonotone(Width(x), Height(x), width, height);
    }
  }

  // -------------------------------------------------------- checkExposure

  /**
   * What the layout reports for one position: the holder of its view (`None`
   * when it is not a card holder), its global visible rectangle (`None` when
   * `getGlobalVisibleRect` says it is not visible) and the view's own size.
   */
  datatype ViewSlot = ViewSlot(holder: Option<FeedViewHolder>, globalRect: Option<Rect>, width: int, height: int)

  /** Every laid-out view has a positive size, so every ratio has a positive denominator. */
  predicate Sized(views: map<int, ViewSlot>) {
    forall i :: i in views ==> views[i].width > 0 && views[i].height > 0
  }

  /** One call of `handleExposureEvent` made by `checkExposure`. */
  datatype Evaluation = Evaluation(position: int, item: Card, ratio: Ratio, holder: FeedViewHolder)

  function ItemAt(feedList: Option<seq<Card>>, i: int): Option<Card> {
    if feedList.Some? && 0 <= i < |feedList.value| then Some(feedList.value[i]) else None
  }

  /** The call made for position `i`, if any. */
  function EvalAt(i: int, listRect: Rect, views: map<int, ViewSlot>, feedList: Option<seq<Card>>): (e: seq<Evaluation>)
    requires Sized(views)
    ensures |e| <= 1
    // no view, not a card holder, or no card at that index: skipped
    ensures (i !in views || views[i].holder.None? || ItemAt(feedList, i).None?) ==> e == []
    // visible but outside the list's rectangle: skipped
    ensures i in views && views[i].globalRect.Some? && Intersect(views[i].globalRect.value, listRect).None? ==> e == []
    ensures |e| == 1 ==>
      (e[0].position == i && Some(e[0].item) == ItemAt(feedList, i)
       && Some(e[0].holder) == views[i].holder && e[0].ratio.total > 0)
    // not visible: evaluated as out of sight
    ensures |e| == 1 && views[i].globalRect.None? ==> Hidden(e[0].ratio)
    // visible and overlapping the list: evaluated in sight, at most whole
    ensures |e| == 1 && views[i].globalRect.Some? && NonEmpty(views[i].globalRect.value) && NonEmpty(listRect)
      && Width(views[i].globalRect.value) <= views[i].width && Height(views[i].globalRect.value) <= views[i].height
      ==> !Hidden(e[0].ratio) && e[0].ratio.visible <= e[0].ratio.total
  {
    if i !in views || views[i].holder.None? || ItemAt(feedList, i).None? then []
    else
      var v := views[i];
      match v.globalRect
      case None => [Evaluation(i, ItemAt(feedList, i).value, Ratio(0, 1), v.holder.value)]
      case Some(itemRect) =>
        match Intersect(itemRect, listRect)
        case None => []
        case Some(x) =>
          RatioWithinBounds(itemRect, listRect, v.width, v.height);
          [Evaluation(i, ItemAt(feedList, i).value, Ratio(Width(x) * Height(x), v.width * v.height), v.holder.value)]
  }

  /** The calls made for positions `lo` up to, not including, `hi`, in order. */
  function Evaluations(lo: int, hi: int, listRect: Rect, views: map<int, ViewSlot>, feedList: Option<seq<Card>>)
    : (es: seq<Evaluation>)
    requires Sized(views)
    ensures |es| <= if hi <= lo then 0 else hi - lo
    ensures forall k :: 0 <= k < |es| ==> lo <= es[k].position < hi && es[k].ratio.total > 0
    ensures forall k :: 0 < k < |es| ==> es[k - 1].position < es[k].position
    decreases hi - lo
  {
    if hi <= lo then []
    else Evaluations(lo, hi - 1, listRect, views, feedList) + EvalAt(hi - 1, listRect, views, feedList)
  }

  /** The exposure map after a sequence of calls. */
  function FoldStates(states: map<string, ExposureState>, es: seq<Evaluation>): map<string, ExposureState>
    decreases |es|
  {
    if es == [] then states
    else
      var e := es[|es| - 1];
      UpdateStates(FoldStates(states, es[..|es| - 1]), e.item.id, e.ratio)
  }

  /** A card that no call names keeps its entry. */
  lemma {:induction false} FoldKeepsOthers(states: map<string, ExposureState>, es: seq<Evaluation>, id: string)
    requires forall k :: 0 <= k < |es| ==> es[k].item.id != id
    ensures Lookup(FoldStates(states, es), id) == Lookup(states, id)
    decreases |es|
  {
    if es != [] {
      FoldKeepsOthers(states, es[..|es| - 1], id);
    }
  }

  /** Folding a concatenation is folding its parts in turn. */
  lemma {:induction false} FoldAppend(states: map<string, ExposureState>, a: seq<Evaluation>, b: seq<Evaluation>)
    ensures FoldStates(states, a + b) == FoldStates(FoldStates(states, a), b)
    decreases |b|
  {
    if b == [] {
      assert a + b == a;
    } else {
      FoldAppend(states, a, b[..|b| - 1]);
      assert (a + b)[..|a + b| - 1] == a + b[..|b| - 1];
    }
  }

  /** The set of card holders of the laid-out views. */
  function HoldersOf(views: map<int, ViewSlot>): set<FeedViewHolder> {
    set i | i in views && views[i].holder.Some? :: views[i].holder.value
  }

  /** What each of `holders` shows. */
  function Tiles(holders: set<FeedViewHolder>): map<FeedViewHolder, Holder>
    reads holders
  {
    map h | h in holders :: h.Snapshot()
  }

  /** The adapter position each of `holders` reports. */
  function Positions(holders: set<FeedViewHolder>): map<FeedViewHolder, int>
    reads holders
  {
    map h | h in holders :: h.layoutPosition
  }

  /** Everything a pass of `checkExposure` can change: the exposure map, the log and the tiles. */
  datatype Screen = Screen(states: map<string, ExposureState>, log: string, tiles: map<FeedViewHolder, Holder>)

  /**
   * One call of `handleExposureEvent` on the screen, the holder sitting at
   * `positions[e.holder]`. A holder that is not on the screen only has its
   * card's state updated (every holder the scan finds is on it).
   */
  function Step(s: Screen, e: Evaluation, positions: map<FeedViewHolder, int>, clock: string): (t: Screen)
    ensures t.states == UpdateStates(s.states, e.item.id, e.ratio)
    ensures t.tiles.Keys == s.tiles.Keys
    // only the event's own holder can change, and only for a video
    ensures forall h :: h in s.tiles && h != e.holder ==> t.tiles[h] == s.tiles[h]
    ensures e.item.cardType != TYPE_VIDEO ==> t.tiles == s.tiles
    // a video in sight plays exactly when at least half of it shows
    ensures e.item.cardType == TYPE_VIDEO && !Hidden(e.ratio) && e.holder in s.tiles && e.holder in positions ==>
      (Playing(t.tiles[e.holder]) <==> HalfShown(e.ratio))
    ensures |s.log| <= LOG_LIMIT ==> |t.log| <= LOG_LIMIT
  {
    var states := UpdateStates(s.states, e.item.id, e.ratio);
    if e.holder in s.tiles && e.holder in positions then
      var current := Lookup(s.states, e.item.id);
      var isVideo := e.item.cardType == TYPE_VIDEO;
      PlaybackFollowsExposure(current, isVideo, e.item.id, e.ratio, s.log, s.tiles[e.holder], positions[e.holder], clock);
      var run := RunEffects(Effects(current, isVideo, e.item.id, e.ratio), s.log, s.tiles[e.holder], positions[e.holder], clock);
      Screen(states, run.0, s.tiles[e.holder := run.1])
    else
      s.(states := states)
  }

  /** The screen after a sequence of calls, in order. */
  function Pass(s: Screen, es: seq<Evaluation>, positions: map<FeedViewHolder, int>, clock: string): (t: Screen)
    ensures t.states == FoldStates(s.states, es)
    ensures t.tiles.Keys == s.tiles.Keys
    ensures |s.log| <= LOG_LIMIT ==> |t.log| <= LOG_LIMIT
    decreases |es|
  {
    if es == [] then s
    else Step(Pass(s, es[..|es| - 1], positions, clock), es[|es| - 1], positions, clock)
  }

  /** A pass over a concatenation is a pass over its parts in turn. */
  lemma {:induction false} PassAppend(s: Screen, a: seq<Evaluation>, b: seq<Evaluation>,
                                      positions: map<FeedViewHolder, int>, clock: string)
    ensures Pass(s, a + b, positions, clock) == Pass(Pass(s, a, positions, clock), b, positions, clock)
    decreases |b|
  {
    if b == [] {
      assert a + b == a;
    } else {
      PassAppend(s, a, b[..|b| - 1], positions, clock);
      assert (a + b)[..|a + b| - 1] == a + b[..|b| - 1];
    }
  }

  /** A holder that no call names keeps its tile. */
  lemma {:induction false} PassKeepsOtherTiles(s: Screen, es: seq<Evaluation>, positions: map<FeedViewHolder, int>,
                                               clock: string, h: FeedViewHolder)
    requires h in s.tiles
    requires forall k :: 0 <= k < |es| ==> es[k].holder != h
    ensures Pass(s, es, positions, clock).tiles[h] == s.tiles[h]
    decreases |es|
  {
    if es != [] {
      PassKeepsOtherTiles(s, es[..|es| - 1], positions, clock, h);
    }
  }

  /**
   * After a pass, a holder's playback follows the last call made for it: when
   * that call showed a video in sight, it plays exactly when at least half of
   * the card showed.
   */
  lemma {:induction false} PassPlaybackFollowsLast(s: Screen, es: seq<Evaluation>, positions: map<FeedViewHolder, int>,
                                clock: string, k: nat)
    requires k < |es| && es[k].holder in s.tiles && es[k].holder in positions
    requires forall j :: k < j < |es| ==> es[j].holder != es[k].holder
    requires es[k].item.cardType == TYPE_VIDEO && !Hidden(es[k].ratio)
    ensures es[k].holder in Pass(s, es, positions, clock).tiles
    ensures Playing(Pass(s, es, positions, clock).tiles[es[k].holder]) <==> HalfShown(es[k].ratio)
  {
    var h := es[k].holder;
    var upTo := es[..k + 1];
    var rest := es[k + 1..];
    assert es == upTo + rest;
    assert upTo[..k] == es[..k];
    PassAppend(s, upTo, rest, positions, clock);
    var mid := Pass(s, upTo, positions, clock);
    assert Playing(mid.tiles[h]) <==> HalfShown(es[k].ratio);
    PassKeepsOtherTiles(mid, rest, positions, clock, h);
  }

  /** One more position of the scan applies its call, if any, to the screen. */
  lemma PassStep(s: Screen, lo: int, i: int, listRect: Rect, views: map<int, ViewSlot>, feedList: Option<seq<Card>>,
                 positions: map<FeedViewHolder, int>, clock: string)
    requires Sized(views) && lo <= i
    ensures Pass(s, Evaluations(lo, i + 1, listRect, views, feedList), positions, clock)
         == Pass(Pass(s, Evaluations(lo, i, listRect, views, feedList), positions, clock),
                 EvalAt(i, listRect, views, feedList), positions, clock)
  {
    PassAppend(s, Evaluations(lo, i, listRect, views, feedList), EvalAt(i, listRect, views, feedList), positions, clock);
  }

  // -------------------------------------------------------------- load more

  /** The scroll listener's test: `lastPos >= itemCount - 2`. */
  predicate ShouldLoadMore(lastPos: int, itemCount: int) {
    lastPos >= itemCount - 2
  }

  /**
   * With the footer always counted, more is loaded once the last card (or the
   * footer) is visible, and always while the list is empty, even when no
   * position is visible.
   */
  lemma LoadMoreAtLastCard(items: seq<Card>, lastPos: int)
    ensures ShouldLoadMore(lastPos, ItemCount(items)) <==> lastPos >= |items| - 1
    ensures items == [] ==> ShouldLoadMore(NO_POSITION, ItemCount(items))
  {
  }

  // -------------------------------------------------------------- the screen

  class Activity {
    const viewModel: ActivityViewModel.ViewModel
    const adapter: Adapter
    var exposureStates: map<string, ExposureState>
    var log: string

    constructor (viewModel: ActivityViewModel.ViewModel, adapter: Adapter)
      ensures this.viewModel == viewModel && this.adapter == adapter
      ensures exposureStates == map[] && log == ""
    {
      this.viewModel := viewModel;
      this.adapter := adapter;
      exposureStates := map[];
      log := "";
    }

    /** `logToConsole(msg)`, stamped with `clock`. */
    method LogToConsole(msg: string, clock: string)
      modifies this
      ensures log == AppendLog(old(log), clock, msg) && exposureStates == old(exposureStates)
    {
      var oldText := log;
      var newLog := clock + " " + msg + "\n" + oldText;
      log := Take(newLog, LOG_LIMIT);
    }

    /** The lines a holder sent to the log callback, logged in order. */
    method LogLines(lines: seq<string>, clock: string)
      modifies this
      ensures log == AppendLines(old(log), clock, lines) && exposureStates == old(exposureStates)
    {
      for i := 0 to |lines|
        invariant log == AppendLines(old(log), clock, lines[..i]) && exposureStates == old(exposureStates)
      {
        assert lines[..i + 1][..i] == lines[..i];
        LogToConsole(lines[i], clock);
      }
      assert lines[..|lines|] == lines;
    }

    /** `handleExposureEvent(item, ratio, holder)`. */
    method HandleExposureEvent(item: Card, ratio: Ratio, holder: FeedViewHolder, clock: string)
      modifies this, holder
      ensures exposureStates == UpdateStates(old(exposureStates), item.id, ratio)
      ensures (log, holder.Snapshot()) == RunEffects(
        Effects(Lookup(old(exposureStates), item.id), item.cardType == TYPE_VIDEO, item.id, ratio),
        old(log), old(holder.Snapshot()), old(holder.layoutPosition), clock)
      ensures holder.layoutPosition == old(holder.layoutPosition)
      ensures |old(log)| <= LOG_LIMIT ==> |log| <= LOG_LIMIT
    {
      var currentState := Lookup(exposureStates, item.id);
      if ratio.visible <= 0 {
        Vanish(item, holder, clock, currentState);
        return;
      }
      if currentState == NONE {
        LogToConsole(ShownMessage(item.id), clock);
        exposureStates := exposureStates[item.id := PARTIAL];
      }
      Play(item, ratio, holder, clock, currentState);
      ShownThenPlay(currentState, item.cardType == TYPE_VIDEO, item.id, ratio, old(log), old(holder.Snapshot()),
                    holder.layoutPosition, clock);
      if currentState == NONE && FullyShown(ratio) {
        assert exposureStates == old(exposureStates)[item.id := FULL];
      }
    }

    /** The `ratio <= 0` branch of `handleExposureEvent`, for a card last in `currentState`. */
    method Vanish(item: Card, holder: FeedViewHolder, clock: string, currentState: ExposureState)
      modifies this, holder
      ensures exposureStates == if currentState != NONE then old(exposureStates)[item.id := NONE] else old(exposureStates)
      ensures (log, holder.Snapshot()) == RunEffects(GoneEffects(currentState, item.cardType == TYPE_VIDEO, item.id),
        old(log), old(holder.Snapshot()), old(holder.layoutPosition), clock)
      ensures holder.layoutPosition == old(holder.layoutPosition)
      ensures |old(log)| <= LOG_LIMIT ==> |log| <= LOG_LIMIT
    {
      if currentState != NONE {
        LogToConsole(GoneMessage(item.id), clock);
        exposureStates := exposureStates[item.id := NONE];
        if item.cardType == TYPE_VIDEO {
          ghost var log1, h1 := log, holder.Snapshot();
          var lines := holder.StopVideoSimulation();
          LogLines(lines, clock);
          assert (log, holder.Snapshot()) == Apply(StopVideo, log1, h1, holder.layoutPosition, clock);
          assert [StopVideo][1..] == [];
          assert GoneEffects(currentState, true, item.id)[1..] == [StopVideo];
        } else {
          assert GoneEffects(currentState, false, item.id)[1..] == [];
        }
      }
    }

    /** The playback part of `handleExposureEvent` for a card in sight that was in `currentState`. */
    method Play(item: Card, ratio: Ratio, holder: FeedViewHolder, clock: string, currentState: ExposureState)
      modifies this, holder
      ensures exposureStates ==
        if HalfShown(ratio) && currentState != FULL && FullyShown(ratio) then old(exposureStates)[item.id := FULL]
        else old(exposureStates)
      ensures (log, holder.Snapshot()) == RunEffects(PlayEffects(currentState, item.cardType == TYPE_VIDEO, item.id, ratio),
        old(log), old(holder.Snapshot()), old(holder.layoutPosition), clock)
      ensures holder.layoutPosition == old(holder.layoutPosition)
      ensures |old(log)| <= LOG_LIMIT ==> |log| <= LOG_LIMIT
    {
      var isVideo := item.cardType == TYPE_VIDEO;
      if 2 * ratio.visible >= ratio.total {
        var full := currentState != FULL && ratio.visible >= ratio.total;
        ghost var tail := if full then [Log(FullMessage(item.id))] else [];
        ghost var log1, h1 := log, holder.Snapshot();
        if isVideo {
          var lines := holder.StartVideoSimulation();
          LogLines(lines, clock);
          assert ([StartVideo] + tail)[1..] == tail;
        } else {
          assert [] + tail == tail;
        }
        ghost var log2, h2 := log, holder.Snapshot();
        if full {
          LogToConsole(FullMessage(item.id), clock);
          exposureStates := exposureStates[item.id := FULL];
          assert tail[1..] == [];
        }
        assert (log, holder.Snapshot()) == RunEffects(tail, log2, h2, holder.layoutPosition, clock);
      } else if isVideo {
        var lines := holder.StopVideoSimulation();
        LogLines(lines, clock);
        assert [StopVideo][1..] == [];
      }
    }

    /** The body of the `checkExposure` loop for position `i`. */
    method ExposeAt(i: int, listRect: Rect, views: map<int, ViewSlot>, feedList: Option<seq<Card>>, clock: string)
      requires Sized(views)
      modifies this, HoldersOf(views)
      ensures Screen(exposureStates, log, Tiles(HoldersOf(views)))
           == Pass(Screen(old(exposureStates), old(log), old(Tiles(HoldersOf(views)))),
                   EvalAt(i, listRect, views, feedList), old(Positions(HoldersOf(views))), clock)
      ensures Positions(HoldersOf(views)) == old(Positions(HoldersOf(views)))
    {
      if i !in views {
        return;
      }
      var slot := views[i];
      if slot.holder.None? {
        return;
      }
      var holder := slot.holder.value;
      assert holder in HoldersOf(views);
      var item := ItemAt(feedList, i);
      if item.None? {
        return;
      }
      match slot.globalRect {
        case None =>
          ExposeHolder(Evaluation(i, item.value, Ratio(0, 1), holder), HoldersOf(views), clock);
        case Some(itemRect) =>
          var visible := Intersect(itemRect, listRect);
          if visible.Some? {
            var x := visible.value;
            ExposeHolder(Evaluation(i, item.value, Ratio(Width(x) * Height(x), slot.width * slot.height), holder),
                         HoldersOf(views), clock);
          }
      }
    }

    /** The call `handleExposureEvent` for one evaluated position, seen on the screen of `holders`. */
    method ExposeHolder(e: Evaluation, holders: set<FeedViewHolder>, clock: string)
      requires e.holder in holders
      modifies this, holders
      ensures Screen(exposureStates, log, Tiles(holders))
           == Step(Screen(old(exposureStates), old(log), old(Tiles(holders))), e, old(Positions(holders)), clock)
      ensures Positions(holders) == old(Positions(holders))
    {
      HandleExposureEvent(e.item, e.ratio, e.holder, clock);
      assert Tiles(holders) == old(Tiles(holders))[e.holder := e.holder.Snapshot()];
    }

    /**
     * `checkExposure()`: every position from `firstPos` to `lastPos` is
     * evaluated against the list's rectangle `listRect`, with the cards of the
     * published list.
     */
    method CheckExposure(firstPos: int, lastPos: int, listRect: Rect, views: map<int, ViewSlot>, clock: string)
      requires Sized(views)
      modifies this, HoldersOf(views)
      ensures firstPos == NO_POSITION || lastPos == NO_POSITION ==>
        exposureStates == old(exposureStates) && log == old(log) && Tiles(HoldersOf(views)) == old(Tiles(HoldersOf(views)))
      ensures firstPos != NO_POSITION && lastPos != NO_POSITION ==>
        Screen(exposureStates, log, Tiles(HoldersOf(views)))
          == Pass(Screen(old(exposureStates), old(log), old(Tiles(HoldersOf(views)))),
                  Evaluations(firstPos, lastPos + 1, listRect, views, old(viewModel.feedList)),
                  old(Positions(HoldersOf(views))), clock)
      ensures firstPos != NO_POSITION && lastPos != NO_POSITION ==>
        exposureStates == FoldStates(old(exposureStates), Evaluations(firstPos, lastPos + 1, listRect, views, old(viewModel.feedList)))
      ensures Positions(HoldersOf(views)) == old(Positions(HoldersOf(views)))
      ensures |old(log)| <= LOG_LIMIT ==> |log| <= LOG_LIMIT
    {
      if firstPos == NO_POSITION || lastPos == NO_POSITION {
        return;
      }
      var feedList := viewModel.feedList;
      ghost var holders := HoldersOf(views);
      ghost var start := Screen(exposureStates, log, Tiles(holders));
      ghost var positions := Positions(holders);
      var i := firstPos;
      while i <= lastPos
        invariant firstPos <= i && (i <= lastPos + 1 || i == firstPos)
        invariant Screen(exposureStates, log, Tiles(holders))
               == Pass(start, Evaluations(firstPos, i, listRect, views, feedList), positions, clock)
        invariant Positions(holders) == positions
        decreases lastPos - i
      {
        PassStep(start, firstPos, i, listRect, views, feedList, positions, clock);
        ExposeAt(i, listRect, views, feedList, clock);
        i := i + 1;
      }
      assert i == lastPos + 1 || Evaluations(firstPos, lastPos + 1, listRect, views, feedList) == [];
    }

    /** The load-more scroll listener: loads the next page when the last card is in view. */
    method OnScrolled(lastPos: int, draws: seq<ActivityRepository.CardDraw>, ids: seq<string>)
      requires |draws| >= ActivityRepository.PAGE_SIZE && |ids| >= ActivityRepository.PAGE_SIZE
      modifies viewModel
      ensures ShouldLoadMore(lastPos, ItemCount(adapter.items)) ==>
        viewModel.Snapshot() == ActivityViewModel.LoadSpec(old(viewModel.Snapshot()), false, draws, ids)
      ensures !ShouldLoadMore(lastPos, ItemCount(adapter.items)) ==> viewModel.Snapshot() == old(viewModel.Snapshot())
    {
      if lastPos >= ItemCount(adapter.items) - 2 {
        viewModel.LoadData(false, draws, ids);
      }
    }

    /** The pull-to-refresh listener: a refresh, then a log line. */
    method OnRefresh(draws: seq<ActivityRepository.CardDraw>, ids: seq<string>, clock: string)
      requires |draws| >= ActivityRepository.PAGE_SIZE && |ids| >= ActivityRepository.PAGE_SIZE
      modifies viewModel, this
      ensures viewModel.Snapshot() == ActivityViewModel.LoadSpec(old(viewModel.Snapshot()), true, draws, ids)
      ensures log == AppendLog(old(log), clock, REFRESH_LOG) && exposureStates == old(exposureStates)
    {
      viewModel.LoadData(true, draws, ids);
      LogToConsole(REFRESH_LOG, clock);
    }

    /** The list observer: a published list replaces the adapter's cards. */
    method OnFeedListPosted()
      modifies adapter
      ensures viewModel.feedList.Some? ==> adapter.items == viewModel.feedList.value
      ensures viewModel.feedList.None? ==> adapter.items == old(adapter.items)
    {
      if viewModel.feedList.Some? {
        adapter.SubmitList(viewModel.feedList.value);
      }
    }
  }
}
