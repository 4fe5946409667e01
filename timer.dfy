/**
 * The study-session stopwatch: start, pause/resume, the elapsed-seconds
 * display value and the minutes a stop records. Instants are milliseconds.
 */
module Timer {
  import opened Wrappers
  import opened Tasks

  /** `state.activeTimer`; `pauseStart` is `null` while running. */
  datatype Session = Session(taskId: Id, start: int, totalPaused: int, isPaused: bool, pauseStart: Option<int>)

  /** The shape every session the planner builds has: paused exactly when a pause instant is recorded. */
  predicate WellFormed(s: Session) {
    s.isPaused == s.pauseStart.Some?
  }

  /** `startTimer`: a running session for `taskId` with nothing paused yet. */
  function Start(taskId: Id, now: int): (s: Session)
    ensures WellFormed(s) && !s.isPaused && s.taskId == taskId
    ensures s.start == now && s.totalPaused == 0 && s.pauseStart == None
  {
    Session(taskId, now, 0, false, None)
  }

  /**
   * `toggleTimer`: a paused session resumes, adding the length of the pause
   * to `totalPaused`; a running session pauses at `now`.
   */
  function Toggle(s: Session, now: int): (r: Session)
    ensures r.taskId == s.taskId && r.start == s.start
    ensures WellFormed(r) && r.isPaused == !s.isPaused
    ensures s.isPaused ==> r.totalPaused == s.totalPaused + (now - s.pauseStart.GetOr(0)) && r.pauseStart == None
    ensures !s.isPaused ==> r.totalPaused == s.totalPaused && r.pauseStart == Some(now)
  {
    if s.isPaused then
      s.(totalPaused := s.totalPaused + (now - s.pauseStart.GetOr(0)), isPaused := false, pauseStart := None)
    else
      s.(isPaused := true, pauseStart := Some(now))
  }

  /** The instant elapsed time is measured up to: the pause instant while paused. */
  function EffectiveNow(s: Session, now: int): int {
    if s.isPaused then s.pauseStart.GetOr(0) else now
  }

  /** Milliseconds studied so far. */
  function EffectiveMs(s: Session, now: int): int {
    EffectiveNow(s, now) - s.start - s.totalPaused
  }

  /** `Math.floor(a / b)` for a positive divisor. */
  function FloorDiv(a: int, b: int): (q: int)
    requires b > 0
    ensures q * b <= a < (q + 1) * b
  {
    a / b
  }

  /** `Math.ceil(a / b)` for a positive divisor. */
  function CeilDiv(a: int, b: int): (q: int)
    requires b > 0
    ensures (q - 1) * b < a <= q * b
  {
    -((-a) / b)
  }

  /** The display value: whole seconds studied, never negative. */
  function ElapsedSeconds(s: Session, now: int): (secs: nat)
    ensures secs == 0 || secs * 1000 <= EffectiveMs(s, now) < (secs + 1) * 1000
    ensures EffectiveMs(s, now) >= 1000 ==> secs > 0
  {
    var q := FloorDiv(EffectiveMs(s, now), 1000);
    if q < 0 then 0 else q
  }

  /** The minutes a stop at `now` records: studied milliseconds rounded up to whole minutes. */
  function StopMinutes(s: Session, now: int): (mins: int)
    ensures (mins - 1) * 60000 < EffectiveMs(s, now) <= mins * 60000
    ensures mins > 0 <==> EffectiveMs(s, now) > 0
  {
    CeilDiv(EffectiveMs(s, now), 60000)
  }

  /** While paused, the elapsed time is frozen. */
  lemma ElapsedFrozenWhilePaused(s: Session, now1: int, now2: int)
    requires s.isPaused
    ensures ElapsedSeconds(s, now1) == ElapsedSeconds(s, now2)
    ensures StopMinutes(s, now1) == StopMinutes(s, now2)
  {
  }

  /** While running, the elapsed time never decreases. */
  lemma ElapsedMonotoneWhileRunning(s: Session, now1: int, now2: int)
    requires !s.isPaused && now1 <= now2
    ensures ElapsedSeconds(s, now1) <= ElapsedSeconds(s, now2)
    ensures StopMinutes(s, now1) <= StopMinutes(s, now2)
  {
    var a, b := EffectiveMs(s, now1), EffectiveMs(s, now2);
    FloorDivMonotone(a, b, 1000);
    CeilDivMonotone(a, b, 60000);
  }

  lemma FloorDivMonotone(a: int, b: int, d: int)
    requires a <= b && d > 0
    ensures FloorDiv(a, d) <= FloorDiv(b, d)
  {
    var qa, qb := FloorDiv(a, d), FloorDiv(b, d);
    MulLessCancels(qa, qb + 1, d);
  }

  lemma CeilDivMonotone(a: int, b: int, d: int)
    requires a <= b && d > 0
    ensures CeilDiv(a, d) <= CeilDiv(b, d)
  {
    var qa, qb := CeilDiv(a, d), CeilDiv(b, d);
    MulLessCancels(qa - 1, qb, d);
  }

  lemma MulLessCancels(x: int, y: int, d: int)
    requires d > 0 && x * d < y * d
    ensures x < y
  {
    if x >= y {
      MulMonotone(y, x, d);
    }
  }

  lemma MulMonotone(x: int, y: int, d: int)
    requires d > 0 && x <= y
    ensures x * d <= y * d
  {
  }

  /** Pausing freezes the elapsed time at its value at the pause instant. */
  lemma PauseFreezes(s: Session, pauseAt: int, now: int)
    requires !s.isPaused
    ensures ElapsedSeconds(Toggle(s, pauseAt), now) == ElapsedSeconds(s, pauseAt)
  {
  }

  /** After a pause and a resume, the time in between does not count. */
  lemma ResumeSkipsPause(s: Session, pauseAt: int, resumeAt: int, now: int)
    requires !s.isPaused
    ensures EffectiveMs(Toggle(Toggle(s, pauseAt), resumeAt), now) == EffectiveMs(s, now) - (resumeAt - pauseAt)
    ensures !Toggle(Toggle(s, pauseAt), resumeAt).isPaused
  {
  }

  /** A session started at t0, paused for p milliseconds and stopped at t1 records ceil((t1 - t0 - p) / 60000) minutes. */
  lemma StopAfterOnePause(taskId: Id, t0: int, pauseAt: int, resumeAt: int, t1: int)
    ensures StopMinutes(Toggle(Toggle(Start(taskId, t0), pauseAt), resumeAt), t1)
      == CeilDiv(t1 - t0 - (resumeAt - pauseAt), 60000)
  {
  }
}
