/**
 * The `timer` field of a video tile holder and the `CountDownTimer(10000, 1000)`
 * objects it points to. The field is modelled together with every timer the
 * holder ever started (`timers`) and the index the field points at (`handle`),
 * because a timer that the field no longer names keeps firing unless it was
 * cancelled. Real-time scheduling is abstracted: the platform's `onTick` and
 * `onFinish` callbacks become explicit calls, and a cancelled or finished
 * timer gets no further callbacks.
 */
module CountDownTimer {
  import opened Nullable

  /** `CountDownTimer(10000, 1000)`: ten seconds, one tick a second. */
  const MILLIS_IN_FUTURE: nat := 10000
  const COUNTDOWN_INTERVAL: nat := 1000

  /** One timer object: the last `millisUntilFinished` it reported and whether it has stopped. */
  datatype Timer = Timer(remainingMs: nat, cancelled: bool, finished: bool)

  /** A timer whose callbacks still fire. */
  predicate Running(t: Timer) {
    !t.cancelled && !t.finished
  }

  /** The holder's timers and its `timer` field (`None` is `null`). */
  datatype Slot = Slot(timers: seq<Timer>, handle: Option<nat>)

  /** No timer at all, as in a newly created holder. */
  const Empty: Slot := Slot([], None)

  /** The field names an existing timer, and no other timer still fires. */
  predicate Valid(s: Slot) {
    && (s.handle.Some? ==> s.handle.value < |s.timers|)
    && forall i :: 0 <= i < |s.timers| && s.handle != Some(i) ==> !Running(s.timers[i])
  }

  /** No timer of the slot fires any more. */
  predicate Silent(s: Slot) {
    forall i :: 0 <= i < |s.timers| ==> !Running(s.timers[i])
  }

  /** `timer?.cancel()`: the timer the field names, if any, stops; nothing else changes. */
  function Cancel(s: Slot): (r: Slot)
    ensures |r.timers| == |s.timers| && r.handle == s.handle
    ensures s.handle.Some? && s.handle.value < |s.timers| ==> r.timers[s.handle.value].cancelled
    ensures forall i :: 0 <= i < |s.timers| && s.handle != Some(i) ==> r.timers[i] == s.timers[i]
    ensures Valid(s) ==> Valid(r) && Silent(r)
  {
    match s.handle
    case None => s
    case Some(h) =>
      if h < |s.timers| then s.(timers := s.timers[h := s.timers[h].(cancelled := true)]) else s
  }

  /**
   * `timer?.cancel(); timer = object : CountDownTimer(10000, 1000) {…}.start()`:
   * the previous timer stops and a new one, started at ten seconds, becomes the handle.
   */
  function Restart(s: Slot): (r: Slot)
    ensures |r.timers| == |s.timers| + 1
    ensures r.handle == Some(|s.timers|)
    ensures r.timers[|s.timers|] == Timer(MILLIS_IN_FUTURE, false, false)
    ensures r.timers[..|s.timers|] == Cancel(s).timers
    ensures Valid(s) ==> Valid(r)
  {
    Slot(Cancel(s).timers + [Timer(MILLIS_IN_FUTURE, false, false)], Some(|s.timers|))
  }

  /** `timer?.cancel(); timer = null`. */
  function Release(s: Slot): (r: Slot)
    ensures r.timers == Cancel(s).timers && r.handle == None
    ensures Valid(s) ==> Valid(r) && Silent(r)
  {
    Slot(Cancel(s).timers, None)
  }

  /** A tick delivered to timer `t` records the remaining time; only a running timer ticks. */
  function Ticked(s: Slot, t: nat, millisUntilFinished: nat): (r: Slot)
    requires t < |s.timers| && Running(s.timers[t])
    ensures r.handle == s.handle && |r.timers| == |s.timers|
    ensures r.timers[t] == Timer(millisUntilFinished, false, false)
    ensures forall i :: 0 <= i < |s.timers| && i != t ==> r.timers[i] == s.timers[i]
    ensures Valid(s) ==> Valid(r)
  {
    s.(timers := s.timers[t := Timer(millisUntilFinished, false, false)])
  }

  /** `onFinish` delivered to timer `t`: it stops for good. */
  function Finished(s: Slot, t: nat): (r: Slot)
    requires t < |s.timers| && Running(s.timers[t])
    ensures r.handle == s.handle && |r.timers| == |s.timers|
    ensures r.timers[t].finished && !Running(r.timers[t])
    ensures forall i :: 0 <= i < |s.timers| && i != t ==> r.timers[i] == s.timers[i]
    ensures Valid(s) ==> Valid(r)
  {
    s.(timers := s.timers[t := s.timers[t].(finished := true)])
  }

  /** After a restart exactly one timer fires: the new one. */
  lemma RestartLeavesOneRunning(s: Slot, i: nat)
    requires Valid(s) && i < |Restart(s).timers|
    ensures Running(Restart(s).timers[i]) <==> i == |s.timers|
  {
    if i < |s.timers| {
      assert Restart(s).timers[i] == Restart(s).timers[..|s.timers|][i];
    }
  }
}
