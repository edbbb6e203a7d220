/**
 * The video tile holder's simulated playback. The "player" is the visibility of
 * the tile's video container: visible means playing. Starting shows the
 * container and runs a ten-second countdown in the timer text; stopping hides
 * it and cancels the countdown. Both are idempotent and log once per real
 * change. The log callback is modelled by returning the lines it receives.
 */
module VideoCardBinder {
  import opened FeedCard
  import opened Text
  import opened Nullable
  import opened CountDownTimer

  const VIDEO_TAG: string := "视频"
  const LOADING_TEXT: string := "加载中..."
  const FINISHED_TEXT: string := "↺ 播放结束"

  function StartLog(position: int): string {
    "▶️ [自动播放] Item " + IntToString(position)
  }

  function StopLog(position: int): string {
    "⏹ [停止播放] Item " + IntToString(position)
  }

  /** The countdown text for a tick: whole seconds left (a `Long` division of a non-negative value). */
  function PlayingText(millisUntilFinished: nat): string {
    "▶ 播放中 " + IntToString(millisUntilFinished / 1000) + "s"
  }

  /** What a video holder shows and the timers it owns. */
  datatype Holder = Holder(
    title: string,
    tag: string,
    coverUrl: string,
    containerVisible: bool,
    timerText: string,
    clock: Slot)

  /** A holder straight after inflation: nothing bound, no timer. */
  const Fresh: Holder := Holder("", "", "", false, "", Empty)

  predicate Playing(h: Holder) {
    h.containerVisible
  }

  /**
   * `bind`: title, tag and cover of the card; the container is hidden, but the
   * timer is neither cancelled nor dropped.
   */
  function Bound(h: Holder, data: Card): (r: Holder)
    ensures r.title == data.title && r.tag == VIDEO_TAG && r.coverUrl == data.imageUrl
    ensures !Playing(r)
    ensures r.clock == h.clock && r.timerText == h.timerText
  {
    h.(title := data.title, tag := VIDEO_TAG, coverUrl := data.imageUrl, containerVisible := false)
  }

  /** `startSimulation`: the new holder and the lines logged. */
  function Start(h: Holder, position: int): (r: (Holder, seq<string>))
    // already playing: nothing happens and nothing is logged
    ensures Playing(h) ==> r == (h, [])
    // otherwise one line is logged, the container shows "loading" and a fresh countdown replaces the old one
    ensures !Playing(h) ==>
      && r.1 == [StartLog(position)]
      && Playing(r.0) && r.0.timerText == LOADING_TEXT
      && r.0.clock == Restart(h.clock)
      && r.0.title == h.title && r.0.tag == h.tag && r.0.coverUrl == h.coverUrl
  {
    if Playing(h) then (h, [])
    else (h.(containerVisible := true, timerText := LOADING_TEXT, clock := Restart(h.clock)), [StartLog(position)])
  }

  /** `stopSimulation`: the new holder and the lines logged. */
  function Stop(h: Holder, position: int): (r: (Holder, seq<string>))
    ensures !Playing(h) ==> r == (h, [])
    ensures Playing(h) ==>
      && r.1 == [StopLog(position)]
      && !Playing(r.0)
      && r.0.clock == Release(h.clock)
      && r.0.timerText == h.timerText && r.0.title == h.title && r.0.tag == h.tag && r.0.coverUrl == h.coverUrl
  {
    if !Playing(h) then (h, [])
    else (h.(containerVisible := false, clock := Release(h.clock)), [StopLog(position)])
  }

  /** `onTick(millisUntilFinished)` of timer `t`: a running timer shows the seconds left. */
  function Tick(h: Holder, t: nat, millisUntilFinished: nat): (r: Holder)
    requires t < |h.clock.timers|
    ensures Running(h.clock.timers[t]) ==>
      r == h.(timerText := PlayingText(millisUntilFinished), clock := Ticked(h.clock, t, millisUntilFinished))
    ensures !Running(h.clock.timers[t]) ==> r == h
  {
    if Running(h.clock.timers[t]) then
      h.(timerText := PlayingText(millisUntilFinished), clock := Ticked(h.clock, t, millisUntilFinished))
    else h
  }

  /** `onFinish` of timer `t`. */
  function Finish(h: Holder, t: nat): (r: Holder)
    requires t < |h.clock.timers|
    ensures Running(h.clock.timers[t]) ==> r == h.(timerText := FINISHED_TEXT, clock := Finished(h.clock, t))
    ensures !Running(h.clock.timers[t]) ==> r == h
  {
    if Running(h.clock.timers[t]) then h.(timerText := FINISHED_TEXT, clock := Finished(h.clock, t)) else h
  }

  /** Starting twice is starting once; the second call logs nothing. */
  lemma StartIdempotent(h: Holder, position: int)
    ensures var (once, _) := Start(h, position);
      Start(once, position) == (once, [])
  {
  }

  /** Stopping twice is stopping once; the second call logs nothing. */
  lemma StopIdempotent(h: Holder, position: int)
    ensures var (once, _) := Stop(h, position);
      Stop(once, position) == (once, [])
  {
  }

  /** A start from stopped leaves exactly one countdown running: the new one, at ten seconds. */
  lemma StartRunsOneCountdown(h: Holder, position: int, i: nat)
    requires Valid(h.clock) && !Playing(h)
    requires i < |Start(h, position).0.clock.timers|
    ensures var c := Start(h, position).0.clock;
      && Valid(c)
      && c.handle == Some(|h.clock.timers|)
      && c.timers[|h.clock.timers|].remainingMs == MILLIS_IN_FUTURE
      && (Running(c.timers[i]) <==> i == |h.clock.timers|)
  {
    RestartLeavesOneRunning(h.clock, i);
  }

  /** A stop from playing leaves no countdown running and drops the handle. */
  lemma StopSilences(h: Holder, position: int)
    requires Valid(h.clock) && Playing(h)
    ensures Silent(Stop(h, position).0.clock) && Stop(h, position).0.clock.handle == None
  {
  }

  /**
   * `bind` does not cancel: a countdown running before a rebind still ticks
   * afterwards and writes its text into the hidden container.
   */
  lemma BoundHolderKeepsTicking(h: Holder, data: Card, t: nat, millisUntilFinished: nat)
    requires t < |h.clock.timers| && Running(h.clock.timers[t])
    ensures Tick(Bound(h, data), t, millisUntilFinished).timerText == PlayingText(millisUntilFinished)
    ensures !Playing(Tick(Bound(h, data), t, millisUntilFinished))
  {
  }

  /** Ticks delivered to timer `t`, in order. */
  function Ticks(h: Holder, t: nat, millis: seq<nat>): (r: Holder)
    requires t < |h.clock.timers|
    ensures |r.clock.timers| == |h.clock.timers|
    decreases |millis|
  {
    if millis == [] then h else Ticks(Tick(h, t, millis[0]), t, millis[1..])
  }

  /**
   * A running countdown keeps running through its ticks, shows the seconds of
   * the last one, and shows the end text once it finishes.
   */
  lemma {:induction false} CountdownShowsLastTickThenEnd(h: Holder, t: nat, millis: seq<nat>)
    requires t < |h.clock.timers| && Running(h.clock.timers[t])
    ensures Running(Ticks(h, t, millis).clock.timers[t])
    ensures millis != [] ==> Ticks(h, t, millis).timerText == PlayingText(millis[|millis| - 1])
    ensures Finish(Ticks(h, t, millis), t).timerText == FINISHED_TEXT
    ensures Playing(Finish(Ticks(h, t, millis), t)) == Playing(h)
    decreases |millis|
  {
    if millis != [] {
      var next := Tick(h, t, millis[0]);
      CountdownShowsLastTickThenEnd(next, t, millis[1..]);
      if |millis| > 1 {
        assert millis[1..][|millis[1..]| - 1] == millis[|millis| - 1];
      }
    }
  }

  /** A cancelled countdown's callbacks change nothing. */
  lemma StoppedCountdownIsInert(h: Holder, position: int, t: nat, millis: seq<nat>)
    requires Valid(h.clock) && Playing(h) && t < |h.clock.timers|
    ensures var stopped := Stop(h, position).0;
      Ticks(stopped, t, millis) == stopped && Finish(stopped, t) == stopped
  {
    var stopped := Stop(h, position).0;
    InertTicks(stopped, t, millis);
  }

  lemma {:induction false} InertTicks(h: Holder, t: nat, millis: seq<nat>)
    requires t < |h.clock.timers| && !Running(h.clock.timers[t])
    ensures Ticks(h, t, millis) == h
    decreases |millis|
  {
    if millis != [] {
      InertTicks(h, t, millis[1..]);
    }
  }

  /** The holder object. `layoutPosition` is maintained by the list widget. */
  class VideoHolder {
    var title: string
    var tag: string
    var coverUrl: string
    var containerVisible: bool
    var timerText: string
    var clock: Slot
    var layoutPosition: int

    function Snapshot(): Holder
      reads this
    {
      Holder(title, tag, coverUrl, containerVisible, timerText, clock)
    }

    constructor (layoutPosition: int)
      ensures Snapshot() == Fresh && this.layoutPosition == layoutPosition
    {
      title, tag, coverUrl := "", "", "";
      containerVisible := false;
      timerText := "";
      clock := Empty;
      this.layoutPosition := layoutPosition;
    }

    method Bind(data: Card)
      modifies this
      ensures Snapshot() == Bound(old(Snapshot()), data)
      ensures layoutPosition == old(layoutPosition)
    {
      title := data.title;
      tag := VIDEO_TAG;
      containerVisible := false;
      coverUrl := data.imageUrl;
    }

    method StartSimulation() returns (log: seq<string>)
      modifies this
      ensures (Snapshot(), log) == Start(old(Snapshot()), layoutPosition)
      ensures layoutPosition == old(layoutPosition)
    {
      if containerVisible {
        return [];
      }
      log := [StartLog(layoutPosition)];
      containerVisible := true;
      timerText := LOADING_TEXT;
      clock := Cancel(clock);
      clock := Slot(clock.timers + [Timer(MILLIS_IN_FUTURE, false, false)], Some(|clock.timers|));
    }

    method StopSimulation() returns (log: seq<string>)
      modifies this
      ensures (Snapshot(), log) == Stop(old(Snapshot()), layoutPosition)
      ensures layoutPosition == old(layoutPosition)
    {
      if !containerVisible {
        return [];
      }
      log := [StopLog(layoutPosition)];
      containerVisible := false;
      clock := Cancel(clock);
      clock := clock.(handle := None);
    }

    /** The platform delivering `onTick` to timer `t`. */
    method OnTick(t: nat, millisUntilFinished: nat)
      requires t < |clock.timers|
      modifies this
      ensures Snapshot() == Tick(old(Snapshot()), t, millisUntilFinished)
      ensures layoutPosition == old(layoutPosition)
    {
      if Running(clock.timers[t]) {
        timerText := PlayingText(millisUntilFinished);
        clock := Ticked(clock, t, millisUntilFinished);
      }
    }

    /** The platform delivering `onFinish` to timer `t`. */
    method OnFinish(t: nat)
      requires t < |clock.timers|
      modifies this
      ensures Snapshot() == Finish(old(Snapshot()), t)
      ensures layoutPosition == old(layoutPosition)
    {
      if Running(clock.timers[t]) {
        timerText := FINISHED_TEXT;
        clock := Finished(clock, t);
      }
    }
  }
}
