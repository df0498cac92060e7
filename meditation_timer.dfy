/**
 * The meditation countdown slot that both the routines tab and the dashboard keep
 * (`meditationTimer` in each), as values: what starting, stopping and one firing of
 * the countdown effect do to it, and what a sequence of firings emits.
 */
module MeditationTimer {
  import opened Wrappers

  /** `{routineId, timeLeft, isRunning, totalTime, startTime}`; times are in seconds. */
  datatype Slot = Slot(
    routineId: Option<string>,
    timeLeft: int,
    isRunning: bool,
    totalTime: int,
    startTime: int)

  /** The empty slot: the initial state, and what stopping or expiring leaves. */
  const Idle := Slot(None, 0, false, 0, 0)

  /** What every reachable slot satisfies: the countdown lies within its total, and a slot that is not running is empty. */
  predicate Valid(s: Slot)
  {
    && 0 <= s.timeLeft <= s.totalTime
    && (s.isRunning ==> s.routineId.Some?)
    && (!s.isRunning ==> s == Idle)
  }

  /** The `if (meditationTimer.routineId)` test: JavaScript truthiness, so an empty id fails it. */
  predicate HasOwner(s: Slot)
  {
    s.routineId.Some? && s.routineId.value != ""
  }

  /**
   * `startMeditation(routine)`: a full countdown of `duration` minutes for `id`, started at
   * the clock reading `now`. It does not depend on the previous slot, which is discarded.
   */
  function Start(id: string, duration: nat, now: int): (s: Slot)
    ensures Valid(s) && s.isRunning && s.routineId == Some(id)
    ensures s.timeLeft == s.totalTime == duration * 60 && s.startTime == now
  {
    Slot(Some(id), duration * 60, true, duration * 60, now)
  }

  /** One firing of the countdown effect: the new slot and the routine it completed, if any. */
  datatype StepResult = StepResult(slot: Slot, completed: Option<string>)

  /**
   * The countdown effect: a running slot with time left loses one second; a running slot
   * at zero with an owner completes that owner and empties; anything else is left alone.
   */
  function Step(s: Slot): (r: StepResult)
    ensures Valid(s) ==> Valid(r.slot)
    ensures r.completed.Some? ==> r.slot == Idle && r.completed == s.routineId && r.completed.value != ""
    ensures r.completed.None? && r.slot != s ==> r.slot == s.(timeLeft := s.timeLeft - 1)
  {
    if s.isRunning && s.timeLeft > 0 then
      StepResult(s.(timeLeft := s.timeLeft - 1), None)
    else if s.timeLeft == 0 && s.isRunning && HasOwner(s) then
      StepResult(Idle, s.routineId)
    else
      StepResult(s, None)
  }

  /** The slot after `n` firings of the effect, and the completions they emitted, in order. */
  datatype RunResult = RunResult(slot: Slot, completions: seq<string>)

  function Run(s: Slot, n: nat): (r: RunResult)
    ensures Valid(s) ==> Valid(r.slot)
    ensures |r.completions| <= n
    decreases n
  {
    if n == 0 then RunResult(s, [])
    else
      var first := Step(s);
      var rest := Run(first.slot, n - 1);
      RunResult(rest.slot, (if first.completed.Some? then [first.completed.value] else []) + rest.completions)
  }

  /** The idle slot is a fixed point: firing the effect on it changes nothing and completes nothing. */
  lemma IdleIsFixedPoint()
    ensures Step(Idle) == StepResult(Idle, None)
  {
  }

  /** Any number of firings after the slot emptied changes nothing and completes nothing. */
  lemma {:induction false} RunFromIdle(n: nat)
    ensures Run(Idle, n) == RunResult(Idle, [])
  {
    if n > 0 {
      IdleIsFixedPoint();
      RunFromIdle(n - 1);
    }
  }

  /** A tick removes exactly one second and keeps the owner, the total and the start time. */
  lemma TickDecrements(s: Slot)
    requires Valid(s) && s.isRunning && s.timeLeft > 0
    ensures Step(s).completed == None
    ensures Step(s).slot == s.(timeLeft := s.timeLeft - 1)
    ensures Step(s).slot.isRunning && 0 <= Step(s).slot.timeLeft < s.timeLeft <= s.totalTime
  {
  }

  /** Expiry of an owned slot completes its owner exactly once and empties the slot. */
  lemma ExpiryCompletesOwner(s: Slot)
    requires s.isRunning && s.timeLeft == 0 && HasOwner(s)
    ensures Step(s) == StepResult(Idle, s.routineId)
  {
  }

  /** While time is left, `k` firings only count down: no completion is emitted. */
  lemma {:induction false} CountsDown(s: Slot, k: nat)
    requires s.isRunning && k <= s.timeLeft
    ensures Run(s, k) == RunResult(s.(timeLeft := s.timeLeft - k), [])
    decreases k
  {
    if k > 0 {
      var next := s.(timeLeft := s.timeLeft - 1);
      assert Step(s) == StepResult(next, None);
      CountsDown(next, k - 1);
      assert next.(timeLeft := next.timeLeft - (k - 1)) == s.(timeLeft := s.timeLeft - k);
    }
  }

  /** An owned running slot with `timeLeft < n` is done after `n` firings, with exactly one completion for its owner. */
  lemma {:induction false} ExpiresWithin(s: Slot, n: nat)
    requires s.isRunning && HasOwner(s) && 0 <= s.timeLeft < n
    ensures Run(s, n) == RunResult(Idle, [s.routineId.value])
    decreases n
  {
    if s.timeLeft > 0 {
      var next := s.(timeLeft := s.timeLeft - 1);
      assert Step(s) == StepResult(next, None);
      ExpiresWithin(next, n - 1);
    } else {
      assert Step(s) == StepResult(Idle, s.routineId);
      RunFromIdle(n - 1);
    }
  }

  /**
   * The natural expiry of a started countdown: `duration * 60` ticks leave it running at
   * zero with nothing emitted, and every longer run ends idle having completed `id` once.
   * With `duration == 0` the first firing already expires.
   */
  lemma NaturalExpiry(id: string, duration: nat, now: int, n: nat)
    requires id != "" && n > duration * 60
    ensures Run(Start(id, duration, now), duration * 60) == RunResult(Start(id, duration, now).(timeLeft := 0), [])
    ensures Run(Start(id, duration, now), n) == RunResult(Idle, [id])
  {
    CountsDown(Start(id, duration, now), duration * 60);
    ExpiresWithin(Start(id, duration, now), n);
  }

  /**
   * A running slot whose id is the empty string never passes the owner test: at zero it
   * stays running forever and completes nothing.
   */
  lemma {:induction false} EmptyOwnerStalls(s: Slot, n: nat)
    requires s.isRunning && s.timeLeft == 0 && s.routineId == Some("")
    ensures Run(s, n) == RunResult(s, [])
    decreases n
  {
    if n > 0 {
      assert Step(s) == StepResult(s, None);
      EmptyOwnerStalls(s, n - 1);
    }
  }
}
