/**
 * The single-file adapter: the cards followed by a footer that is always
 * present, two view types, and a card holder with its own playback toggle.
 * Unlike the other video holder, stopping cancels the countdown but keeps the
 * timer field pointing at it, and a bind hides the countdown unless the card
 * is flagged as playing.
 */
module ActivityAdapter {
  import opened ActivityCard
  import opened Nullable
  import opened Text
  import opened CountDownTimer
  import ActivityRepository

  const VIEW_TYPE_ITEM: int := 1
  const VIEW_TYPE_FOOTER: int := 2

  const VIDEO_TAG: string := "视频"
  const IMAGE_TAG: string := "图文"
  const FINISHED_TEXT: string := "播放结束"

  function StartLog(position: int): string {
    "▶️ 开始播放视频: Item " + IntToString(position)
  }

  function StopLog(position: int): string {
    "⏹️ 停止播放: Item " + IntToString(position)
  }

  function PlayingText(millisUntilFinished: nat): string {
    "播放中: " + IntToString(millisUntilFinished / 1000) + "s"
  }

  /** `getItemViewType(position)`: a card slot before the end of the list, the footer after. */
  function ViewType(items: seq<Card>, position: int): (t: int)
    ensures t == VIEW_TYPE_FOOTER <==> position >= |items|
    ensures t == VIEW_TYPE_ITEM || t == VIEW_TYPE_FOOTER
  {
    if position < |items| then VIEW_TYPE_ITEM else VIEW_TYPE_FOOTER
  }

  /** `getItemCount()`: the footer is counted even when there are no cards. */
  function ItemCount(items: seq<Card>): (n: nat)
    ensures n == |items| + 1
  {
    |items| + 1
  }

  /** `getSpanSize(position)`: the footer fills a row. */
  function SpanSize(items: seq<Card>, position: nat): (s: int)
    ensures position >= |items| ==> s == 2
    ensures position < |items| ==> s == items[position].spanType
  {
    if position >= |items| then 2 else items[position].spanType
  }

  /** Exactly the last slot is the footer, it takes a whole row, and the list is never empty. */
  lemma FooterAlwaysLast(items: seq<Card>, position: nat)
    requires position < ItemCount(items)
    ensures ItemCount(items) >= 1
    ensures ViewType(items, position) == VIEW_TYPE_FOOTER <==> position == ItemCount(items) - 1
    ensures position == ItemCount(items) - 1 ==> SpanSize(items, position) == 2
  {
  }

  /** What a card holder shows and the timers it owns. */
  datatype Holder = Holder(
    title: string,
    coverRatio: string,
    coverUrl: string,
    tag: string,
    countdownVisible: bool,
    countdownText: string,
    clock: Slot)

  const Fresh: Holder := Holder("", "", "", "", false, "", Empty)

  predicate Playing(h: Holder) {
    h.countdownVisible
  }

  /** `bind(data)`: a video shows its countdown only when flagged as playing; the timer is left alone. */
  function Bound(h: Holder, data: Card): (r: Holder)
    ensures r.title == data.title && r.coverUrl == data.imageUrl
    ensures r.coverRatio == (if data.spanType == SPAN_SINGLE_COLUMN then "16:9" else "3:4")
    ensures r.tag == (if data.cardType == TYPE_VIDEO then VIDEO_TAG else IMAGE_TAG)
    ensures Playing(r) <==> data.cardType == TYPE_VIDEO && data.isVideoPlaying
    ensures r.clock == h.clock && r.countdownText == h.countdownText
  {
    h.(title := data.title,
       coverRatio := if data.spanType == SPAN_SINGLE_COLUMN then "16:9" else "3:4",
       coverUrl := data.imageUrl,
       tag := if data.cardType == TYPE_VIDEO then VIDEO_TAG else IMAGE_TAG,
       countdownVisible := data.cardType == TYPE_VIDEO && data.isVideoPlaying)
  }

  /** `startVideoSimulation()`: the new holder and the lines logged. */
  function Start(h: Holder, position: int): (r: (Holder, seq<string>))
    ensures Playing(h) ==> r == (h, [])
    ensures !Playing(h) ==>
      && r.1 == [StartLog(position)]
      && Playing(r.0)
      && r.0.clock == Restart(h.clock)
      && r.0 == h.(countdownVisible := true, clock := r.0.clock)
  {
    if Playing(h) then (h, [])
    else (h.(countdownVisible := true, clock := Restart(h.clock)), [StartLog(position)])
  }

  /** `stopVideoSimulation()`: the countdown is cancelled but the field still names it. */
  function Stop(h: Holder, position: int): (r: (Holder, seq<string>))
    ensures !Playing(h) ==> r == (h, [])
    ensures Playing(h) ==>
      && r.1 == [StopLog(position)]
      && !Playing(r.0)
      && r.0.clock == Cancel(h.clock)
      && r.0 == h.(countdownVisible := false, clock := r.0.clock)
  {
    if !Playing(h) then (h, [])
    else (h.(countdownVisible := false, clock := Cancel(h.clock)), [StopLog(position)])
  }

  /** `onTick` of timer `t`. */
  function Tick(h: Holder, t: nat, millisUntilFinished: nat): (r: Holder)
    requires t < |h.clock.timers|
    ensures Running(h.clock.timers[t]) ==>
      r == h.(countdownText := PlayingText(millisUntilFinished), clock := Ticked(h.clock, t, millisUntilFinished))
    ensures !Running(h.clock.timers[t]) ==> r == h
  {
    if Running(h.clock.timers[t]) then
      h.(countdownText := PlayingText(millisUntilFinished), clock := Ticked(h.clock, t, millisUntilFinished))
    else h
  }

  /** `onFinish` of timer `t`. */
  function Finish(h: Holder, t: nat): (r: Holder)
    requires t < |h.clock.timers|
    ensures Running(h.clock.timers[t]) ==> r == h.(countdownText := FINISHED_TEXT, clock := Finished(h.clock, t))
    ensures !Running(h.clock.timers[t]) ==> r == h
  {
    if Running(h.clock.timers[t]) then h.(countdownText := FINISHED_TEXT, clock := Finished(h.clock, t)) else h
  }

  lemma StartIdempotent(h: Holder, position: int)
    ensures var (once, _) := Start(h, position);
      Start(once, position) == (once, [])
  {
  }

  lemma StopIdempotent(h: Holder, position: int)
    ensures var (once, _) := Stop(h, position);
      Stop(once, position) == (once, [])
  {
  }

  /**
   * A stop silences every countdown yet keeps the handle; the next start
   * cancels that already-cancelled timer again and runs exactly one new one.
   */
  lemma StopThenStart(h: Holder, position: int, i: nat)
    requires Valid(h.clock) && Playing(h)
    requires i < |Start(Stop(h, position).0, position).0.clock.timers|
    ensures var stopped := Stop(h, position).0;
      && Silent(stopped.clock) && stopped.clock.handle == h.clock.handle
      && var restarted := Start(stopped, position).0;
      && Valid(restarted.clock)
      && (Running(restarted.clock.timers[i]) <==> i == |h.clock.timers|)
  {
    RestartLeavesOneRunning(Stop(h, position).0.clock, i);
  }

  /**
   * No card is ever flagged as playing, so a bind hides the countdown of every
   * generated card, video or not.
   */
  lemma BindHidesGeneratedCards(h: Holder, page: int, draws: seq<ActivityRepository.CardDraw>, ids: seq<string>, i: nat)
    requires |draws| >= ActivityRepository.PAGE_SIZE && |ids| >= ActivityRepository.PAGE_SIZE
    requires i < ActivityRepository.PAGE_SIZE
    ensures !Playing(Bound(h, ActivityRepository.Page(page, draws, ids)[i]))
  {
    ActivityRepository.PageCards(page, draws, ids, i);
  }

  /** The card holder object. `layoutPosition` is maintained by the list widget. */
  class FeedViewHolder {
    var title: string
    var coverRatio: string
    var coverUrl: string
    var tag: string
    var countdownVisible: bool
    var countdownText: string
    var clock: Slot
    var layoutPosition: int

    function Snapshot(): Holder
      reads this
    {
      Holder(title, coverRatio, coverUrl, tag, countdownVisible, countdownText, clock)
    }

    constructor (layoutPosition: int)
      ensures Snapshot() == Fresh && this.layoutPosition == layoutPosition
    {
      title, coverRatio, coverUrl, tag := "", "", "", "";
      countdownVisible := false;
      countdownText := "";
      clock := Empty;
      this.layoutPosition := layoutPosition;
    }

    method Bind(data: Card)
      modifies this
      ensures Snapshot() == Bound(old(Snapshot()), data) && layoutPosition == old(layoutPosition)
    {
      title := data.title;
      coverRatio := if data.spanType == SPAN_SINGLE_COLUMN then "16:9" else "3:4";
      coverUrl := data.imageUrl;
      if data.cardType == TYPE_VIDEO {
        tag := VIDEO_TAG;
        countdownVisible := data.isVideoPlaying;
      } else {
        tag := IMAGE_TAG;
        countdownVisible := false;
      }
    }

    method StartVideoSimulation() returns (log: seq<string>)
      modifies this
      ensures (Snapshot(), log) == Start(old(Snapshot()), layoutPosition) && layoutPosition == old(layoutPosition)
    {
      if countdownVisible {
        return [];
      }
      countdownVisible := true;
      log := [StartLog(layoutPosition)];
      clock := Cancel(clock);
      clock := Slot(clock.timers + [Timer(MILLIS_IN_FUTURE, false, false)], Some(|clock.timers|));
    }

    method StopVideoSimulation() returns (log: seq<string>)
      modifies this
      ensures (Snapshot(), log) == Stop(old(Snapshot()), layoutPosition) && layoutPosition == old(layoutPosition)
    {
      if !countdownVisible {
        return [];
      }
      countdownVisible := false;
      clock := Cancel(clock);
      log := [StopLog(layoutPosition)];
    }

    method OnTick(t: nat, millisUntilFinished: nat)
      requires t < |clock.timers|
      modifies this
      ensures Snapshot() == Tick(old(Snapshot()), t, millisUntilFinished) && layoutPosition == old(layoutPosition)
    {
      if Running(clock.timers[t]) {
        countdownText := PlayingText(millisUntilFinished);
        clock := Ticked(clock, t, millisUntilFinished);
      }
    }

    method OnFinish(t: nat)
      requires t < |clock.timers|
      modifies this
      ensures Snapshot() == Finish(old(Snapshot()), t) && layoutPosition == old(layoutPosition)
    {
      if Running(clock.timers[t]) {
        countdownText := FINISHED_TEXT;
        clock := Finished(clock, t);
      }
    }
  }

  /** A created holder: a card holder or the footer. */
  datatype ViewHolder = CardHolder(holder: FeedViewHolder) | FooterHolder

  class Adapter {
    var items: seq<Card>

    constructor ()
      ensures items == []
    {
      items := [];
    }

    /** `submitList(newList)`: the cards are replaced wholesale. */
    method SubmitList(newList: seq<Card>)
      modifies this
      ensures items == newList
    {
      items := [];
      items := items + newList;
    }

    /** `onCreateViewHolder(viewType)`: a card holder for the item type, the footer otherwise. */
    method OnCreateViewHolder(viewType: int) returns (vh: ViewHolder)
      ensures vh.CardHolder? <==> viewType == VIEW_TYPE_ITEM
      ensures vh.CardHolder? ==> fresh(vh.holder) && vh.holder.Snapshot() == Fresh
    {
      if viewType == VIEW_TYPE_ITEM {
        var h := new FeedViewHolder(-1);
        vh := CardHolder(h);
      } else {
        vh := FooterHolder;
      }
    }

    /** `onBindViewHolder(holder, position)`: a card holder at a card slot is bound to that card. */
    method OnBindViewHolder(vh: ViewHolder, position: nat)
      modifies if vh.CardHolder? then {vh.holder} else {}
      ensures vh.CardHolder? && position < |items| ==>
        vh.holder.Snapshot() == Bound(old(vh.holder.Snapshot()), items[position])
      ensures vh.CardHolder? && position >= |items| ==> vh.holder.Snapshot() == old(vh.holder.Snapshot())
      ensures vh.CardHolder? ==> vh.holder.layoutPosition == old(vh.holder.layoutPosition)
    {
      if vh.CardHolder? && position < |items| {
        vh.holder.Bind(items[position]);
      }
    }
  }
}
