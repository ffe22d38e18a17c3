/**
 * The Pomodoro timer engine (src/hooks/useTimer.ts): a work/break session
 * state machine whose countdown is computed from a wall-clock anchor rather
 * than by counting ticks.
 *
 * Time is integer milliseconds; every operation that reads the clock takes
 * the current time `now` as a parameter. The source keeps the anchor's
 * remaining time in (fractional) seconds; here it is kept in milliseconds,
 * which agrees with the source up to the binary rounding of its fractional
 * seconds (see README, Left out). The tick
 * interval is the boolean `ticking` (the interval handle is non-null); the
 * ghost counter `liveIntervals` counts the intervals the browser would still
 * fire, so that "at most one interval" is something the model proves.
 *
 * Each operation ends with the idle-display effect (src/hooks/useTimer.ts
 * lines 161-170), which React runs after a render in which one of its
 * dependencies changed; the model stores the dependencies it last ran with
 * and compares.
 */
module Timer {
  import opened Wrappers

  datatype Session = Work | Break
  datatype Status = Idle | Running | Paused

  const DEFAULT_WORK_MINUTES: int := 25
  const DEFAULT_BREAK_MINUTES: int := 5
  const DEFAULT_CYCLES: int := 4
  const MAX_WORK_MINUTES: int := 120
  const MAX_BREAK_MINUTES: int := 60
  const MAX_CYCLES: int := 20

  /** A JavaScript number as the setters may receive it from an input field. */
  datatype JsNumber = Finite(value: real) | NaN | PosInfinity | NegInfinity

  /** `Math.floor`. */
  function JsFloor(n: JsNumber): JsNumber {
    match n
    case Finite(x) => Finite(x.Floor as real)
    case _ => n
  }

  function Min(a: int, b: int): int { if a <= b then a else b }
  function Max(a: int, b: int): int { if a >= b then a else b }

  /**
   * `Math.max(1, Math.min(hi, Math.floor(n) || 1))`: `NaN` and `0` are falsy
   * and become 1; infinities saturate. The result always lies in [1, hi],
   * anything below 1 becomes 1, anything from hi up becomes hi, and a number
   * already in range keeps its integer part.
   */
  function ClampSetting(n: JsNumber, hi: int): (r: int)
    requires hi >= 1
    ensures 1 <= r <= hi
    ensures n.NaN? || n.NegInfinity? ==> r == 1
    ensures n.PosInfinity? ==> r == hi
    ensures n.Finite? && n.value < 1.0 ==> r == 1
    ensures n.Finite? && n.value >= hi as real ==> r == hi
    ensures n.Finite? && 1.0 <= n.value < (hi + 1) as real ==> r == n.value.Floor
  {
    var floored := JsFloor(n);
    var orOne := if floored == NaN || floored == Finite(0.0) then Finite(1.0) else floored;
    match orOne
    case Finite(f) => Max(1, Min(hi, f.Floor))
    case PosInfinity => hi
    case NegInfinity => 1
    case NaN => 1
  }

  /** `Math.ceil(ms / 1000)`: the least whole number of seconds covering `ms`. */
  function CeilSeconds(ms: int): (r: int)
    ensures 1000 * (r - 1) < ms <= 1000 * r
  {
    (ms + 999) / 1000
  }

  /** Whole seconds shown at `now` for a countdown anchored at `anchorTs` with `anchorMs` left. */
  function ShownSeconds(anchorMs: int, anchorTs: int, now: int): int {
    CeilSeconds(anchorMs - (now - anchorTs))
  }

  /** Where the run is: the session and the cycle it belongs to. */
  datatype Phase = Phase(session: Session, cycle: int)

  /**
   * What follows the end of a phase (`transitionToNextSession`): work is
   * followed by a break of the same cycle; a break ends the run when its
   * cycle is the last one (nothing comes next), and otherwise is followed by
   * the next cycle's work.
   */
  function NextPhase(p: Phase, totalCycles: int): (r: Option<Phase>)
    ensures r.None? <==> p.session.Break? && p.cycle >= totalCycles
    ensures r.Some? ==> r.value.session != p.session
    ensures r.Some? && r.value.session == Break ==> r.value.cycle == p.cycle
    ensures r.Some? && r.value.session == Work ==> r.value.cycle == p.cycle + 1
  {
    if p.session == Work then Some(Phase(Break, p.cycle))
    else if p.cycle >= totalCycles then None
    else Some(Phase(Work, p.cycle + 1))
  }

  /** The phase reached from a fresh start after `n` phase ends (nothing once the run is over). */
  function AfterPhaseEnds(totalCycles: int, n: nat): Option<Phase> {
    if n == 0 then Some(Phase(Work, 1))
    else match AfterPhaseEnds(totalCycles, n - 1)
      case None => None
      case Some(p) => NextPhase(p, totalCycles)
  }

  /**
   * The schedule of a run: phases alternate work, break, work, ... and the
   * k-th work and k-th break both belong to cycle k; the last cycle's break
   * is played.
   */
  lemma {:induction false} RunSchedule(totalCycles: int, n: nat)
    requires n < 2 * totalCycles
    ensures AfterPhaseEnds(totalCycles, n) == Some(Phase(if n % 2 == 0 then Work else Break, n / 2 + 1))
  {
    if n > 0 {
      RunSchedule(totalCycles, n - 1);
    }
  }

  /** A run of `totalCycles` cycles is complete after exactly 2 × totalCycles phase ends. */
  lemma RunCompletes(totalCycles: int)
    requires totalCycles >= 1
    ensures AfterPhaseEnds(totalCycles, 2 * totalCycles).None?
    ensures forall n :: 0 <= n < 2 * totalCycles ==> AfterPhaseEnds(totalCycles, n).Some?
  {
    forall n | 0 <= n < 2 * totalCycles ensures AfterPhaseEnds(totalCycles, n).Some? {
      RunSchedule(totalCycles, n);
    }
    RunSchedule(totalCycles, 2 * totalCycles - 1);
  }

  /** While any time is left, at least one second is shown: zero appears only once the session has ended. */
  lemma ShownSecondsPositive(anchorMs: int, anchorTs: int, now: int)
    requires anchorMs - (now - anchorTs) > 0
    ensures ShownSeconds(anchorMs, anchorTs, now) >= 1
  {
  }

  /** The shown countdown never goes up as the clock moves forward. */
  lemma ShownSecondsMonotone(anchorMs: int, anchorTs: int, now1: int, now2: int)
    requires now1 <= now2
    ensures ShownSeconds(anchorMs, anchorTs, now2) <= ShownSeconds(anchorMs, anchorTs, now1)
  {
  }

  /**
   * Pausing at `pausedAt` freezes the time left; resuming at `resumedAt`
   * re-anchors there with it. Unless the session had already run out, what
   * is shown at `now` is what an uninterrupted countdown would show had the
   * pause never happened: no time is lost or gained.
   */
  lemma PauseResumeNoDrift(anchorMs: int, anchorTs: int, pausedAt: int, resumedAt: int, now: int)
    requires anchorMs - (pausedAt - anchorTs) >= 0
    ensures var frozen := Max(0, anchorMs - (pausedAt - anchorTs));
      ShownSeconds(frozen, resumedAt, now)
        == ShownSeconds(anchorMs, anchorTs + (resumedAt - pausedAt), now)
  {
  }

  /** What the deck controller and the alarm observe of the timer on each render. */
  datatype View = View(session: Session, status: Status, remaining: int, isComplete: bool)

  /** The dependencies of the idle-display effect. */
  datatype SyncDeps = SyncDeps(work: int, brk: int, status: Status, session: Session, complete: bool)

  class TimerEngine {
    // persisted settings (minutes, cycles)
    var workMinutes: int
    var breakMinutes: int
    var totalCycles: int
    // rendered state
    var remainingSeconds: int
    var session: Session
    var status: Status
    var currentCycle: int
    var isComplete: bool
    // refs
    var anchorTimestamp: Option<int>
    var anchorRemainingMs: int
    var ticking: bool
    ghost var liveIntervals: nat
    var lastSyncDeps: Option<SyncDeps>

    function SyncDepsNow(): SyncDeps
      reads this
    {
      SyncDeps(workMinutes, breakMinutes, status, session, isComplete)
    }

    function Observe(): View
      reads this
    {
      View(session, status, remainingSeconds, isComplete)
    }

    function CurrentPhase(): Phase
      reads this
    {
      Phase(session, currentCycle)
    }

    /** The length of a session of the given kind, in seconds, at the current settings. */
    function DurationSeconds(s: Session): int
      reads this
    {
      if s == Work then workMinutes * 60 else breakMinutes * 60
    }

    /** Milliseconds left at `now` according to the anchor. */
    function MsLeft(now: int): int
      reads this
      requires anchorTimestamp.Some?
    {
      anchorRemainingMs - (now - anchorTimestamp.value)
    }

    /** The interval handle and the intervals alive agree: at most one exists. */
    ghost predicate IntervalsCounted()
      reads this
    {
      liveIntervals == (if ticking then 1 else 0)
    }

    /**
     * The engine's invariant. The interval runs exactly while the timer runs,
     * and a running timer has an anchor. A paused timer has no anchor and
     * shows its frozen time. An idle timer that has not completed a run shows
     * the start of cycle 1's work session at the current work duration. The
     * idle-display effect has seen the current dependencies.
     */
    ghost predicate Valid()
      reads this
    {
      && IntervalsCounted()
      && (ticking <==> status == Running)
      && (status == Running ==> anchorTimestamp.Some?)
      && (status == Paused ==>
            anchorTimestamp.None? && anchorRemainingMs >= 0
            && remainingSeconds == CeilSeconds(anchorRemainingMs))
      && (status == Idle && !isComplete ==>
            session == Work && currentCycle == 1 && anchorTimestamp.None?
            && remainingSeconds == workMinutes * 60
            && anchorRemainingMs == workMinutes * 60000)
      && currentCycle >= 1
      && lastSyncDeps == Some(SyncDepsNow())
    }

    /** Mount, with the settings read back from storage; the idle-display effect runs once. */
    constructor (storedWork: int, storedBreak: int, storedCycles: int)
      ensures Valid()
      ensures workMinutes == storedWork && breakMinutes == storedBreak && totalCycles == storedCycles
      ensures status == Idle && session == Work && currentCycle == 1 && !isComplete
      ensures remainingSeconds == storedWork * 60 && !ticking
    {
      workMinutes, breakMinutes, totalCycles := storedWork, storedBreak, storedCycles;
      remainingSeconds := DEFAULT_WORK_MINUTES * 60;
      session, status, currentCycle, isComplete := Work, Idle, 1, false;
      anchorTimestamp := None;
      anchorRemainingMs := DEFAULT_WORK_MINUTES * 60000;
      ticking := false;
      liveIntervals := 0;
      lastSyncDeps := None;
      new;
      RunSyncEffect();
    }

    /**
     * The idle-display effect: when one of its dependencies changed and the
     * timer is idle without a completed run, show the current session's full
     * duration and make it the anchor's remaining time.
     */
    method RunSyncEffect()
      modifies this`remainingSeconds, this`anchorRemainingMs, this`lastSyncDeps
      ensures lastSyncDeps == Some(SyncDepsNow())
      ensures old(lastSyncDeps) != Some(SyncDepsNow()) && status == Idle && !isComplete ==>
        remainingSeconds == DurationSeconds(session) && anchorRemainingMs == DurationSeconds(session) * 1000
      ensures !(old(lastSyncDeps) != Some(SyncDepsNow()) && status == Idle && !isComplete) ==>
        remainingSeconds == old(remainingSeconds) && anchorRemainingMs == old(anchorRemainingMs)
    {
      var deps := SyncDepsNow();
      if lastSyncDeps != Some(deps) {
        lastSyncDeps := Some(deps);
        if status == Idle && !isComplete {
          var seconds := if session == Work then workMinutes * 60 else breakMinutes * 60;
          remainingSeconds := seconds;
          anchorRemainingMs := seconds * 1000;
        }
      }
    }

    /** `stopInterval`: clear the interval if there is one. */
    method StopInterval()
      requires IntervalsCounted()
      modifies this`ticking, this`liveIntervals
      ensures IntervalsCounted() && !ticking && liveIntervals == 0
    {
      if ticking {
        liveIntervals := liveIntervals - 1;
        ticking := false;
      }
    }

    /** `startInterval`: stop any existing interval first, then start one; so exactly one is alive. */
    method StartInterval()
      requires IntervalsCounted()
      modifies this`ticking, this`liveIntervals
      ensures IntervalsCounted() && ticking && liveIntervals == 1
    {
      StopInterval();
      ticking := true;
      liveIntervals := liveIntervals + 1;
    }

    /**
     * `transitionToNextSession`, at `now`: move to the phase `NextPhase`
     * names, with its full duration shown and anchored at `now`; or, when the
     * last cycle's break has ended, stop the interval and become idle and
     * complete, showing zero (the anchor is left as it was).
     */
    method TransitionToNextSession(now: int)
      requires IntervalsCounted() && currentCycle >= 1
      modifies this`session, this`currentCycle, this`remainingSeconds, this`anchorRemainingMs,
        this`anchorTimestamp, this`status, this`isComplete, this`ticking, this`liveIntervals
      ensures IntervalsCounted() && currentCycle >= 1
      ensures NextPhase(old(CurrentPhase()), totalCycles).Some? ==>
        && CurrentPhase() == NextPhase(old(CurrentPhase()), totalCycles).value
        && remainingSeconds == DurationSeconds(session)
        && anchorRemainingMs == DurationSeconds(session) * 1000
        && anchorTimestamp == Some(now)
        && status == old(status) && isComplete == old(isComplete) && ticking == old(ticking)
      ensures NextPhase(old(CurrentPhase()), totalCycles).None? ==>
        && status == Idle && isComplete && remainingSeconds == 0 && !ticking
        && CurrentPhase() == old(CurrentPhase())
        && anchorTimestamp == old(anchorTimestamp) && anchorRemainingMs == old(anchorRemainingMs)
    {
      if session == Work {
        var breakSec := breakMinutes * 60;
        session := Break;
        remainingSeconds := breakSec;
        anchorRemainingMs := breakSec * 1000;
        anchorTimestamp := Some(now);
      } else {
        if currentCycle >= totalCycles {
          StopInterval();
          status := Idle;
          isComplete := true;
          remainingSeconds := 0;
          return;
        }
        var workSec := workMinutes * 60;
        currentCycle := currentCycle + 1;
        session := Work;
        remainingSeconds := workSec;
        anchorRemainingMs := workSec * 1000;
        anchorTimestamp := Some(now);
      }
    }

    /**
     * `tick` at `now`. Without an anchor nothing happens. Otherwise the time
     * left is the anchor's remaining time minus the wall-clock time elapsed
     * since the anchor, whatever number of ticks came before: while some is
     * left, the whole seconds covering it are shown (at least one) and the
     * anchor stays; once none is left the session ends.
     */
    method Tick(now: int)
      requires Valid()
      modifies this
      ensures Valid()
      ensures old(anchorTimestamp).None? ==> unchanged(this)
      ensures old(anchorTimestamp).Some? && old(MsLeft(now)) > 0 ==>
        && remainingSeconds == CeilSeconds(old(MsLeft(now))) && remainingSeconds >= 1
        && remainingSeconds == ShownSeconds(old(anchorRemainingMs), old(anchorTimestamp).value, now)
        && anchorTimestamp == old(anchorTimestamp) && anchorRemainingMs == old(anchorRemainingMs)
        && CurrentPhase() == old(CurrentPhase()) && status == old(status)
        && isComplete == old(isComplete) && ticking == old(ticking)
      ensures old(anchorTimestamp).Some? && old(MsLeft(now)) <= 0 && NextPhase(old(CurrentPhase()), totalCycles).Some? ==>
        && CurrentPhase() == NextPhase(old(CurrentPhase()), totalCycles).value
        && remainingSeconds == DurationSeconds(session)
        && anchorRemainingMs == DurationSeconds(session) * 1000
        && anchorTimestamp == Some(now)
        && status == old(status) && isComplete == old(isComplete) && ticking == old(ticking)
      ensures old(anchorTimestamp).Some? && old(MsLeft(now)) <= 0 && NextPhase(old(CurrentPhase()), totalCycles).None? ==>
        && status == Idle && isComplete && remainingSeconds == 0 && !ticking
        && CurrentPhase() == old(CurrentPhase())
        && anchorTimestamp == old(anchorTimestamp) && anchorRemainingMs == old(anchorRemainingMs)
      ensures workMinutes == old(workMinutes) && breakMinutes == old(breakMinutes) && totalCycles == old(totalCycles)
    {
      if anchorTimestamp == None {
        return;
      }
      var elapsedMs := now - anchorTimestamp.value;
      var leftMs := anchorRemainingMs - elapsedMs;
      if leftMs <= 0 {
        remainingSeconds := 0;
        TransitionToNextSession(now);
      } else {
        remainingSeconds := CeilSeconds(leftMs);
      }
      RunSyncEffect();
    }

    /**
     * `start`, from any status: cycle 1's work session, running, not
     * complete, its full duration shown and anchored at `now`, and exactly
     * one interval.
     */
    method Start(now: int)
      requires Valid()
      modifies this
      ensures Valid()
      ensures status == Running && session == Work && currentCycle == 1 && !isComplete
      ensures remainingSeconds == workMinutes * 60 && anchorRemainingMs == workMinutes * 60000
      ensures anchorTimestamp == Some(now) && ticking && liveIntervals == 1
      ensures workMinutes == old(workMinutes) && breakMinutes == old(breakMinutes) && totalCycles == old(totalCycles)
    {
      var seconds := workMinutes * 60;
      isComplete := false;
      session := Work;
      currentCycle := 1;
      remainingSeconds := seconds;
      status := Running;
      anchorRemainingMs := seconds * 1000;
      anchorTimestamp := Some(now);
      StartInterval();
      RunSyncEffect();
    }

    /**
     * `pause` at `now`. Without an anchor nothing happens. Otherwise the time
     * left, floored at zero, is frozen as the anchor's remaining time, the
     * anchor is cleared, the frozen time is shown in whole seconds, the
     * status becomes paused and the interval stops.
     */
    method Pause(now: int)
      requires Valid()
      modifies this
      ensures Valid()
      ensures old(anchorTimestamp).None? ==> unchanged(this)
      ensures old(anchorTimestamp).Some? ==>
        && anchorRemainingMs == Max(0, old(MsLeft(now)))
        && anchorTimestamp.None?
        && remainingSeconds == CeilSeconds(anchorRemainingMs)
        && status == Paused && !ticking && liveIntervals == 0
        && CurrentPhase() == old(CurrentPhase()) && isComplete == old(isComplete)
      ensures workMinutes == old(workMinutes) && breakMinutes == old(breakMinutes) && totalCycles == old(totalCycles)
    {
      if anchorTimestamp == None {
        return;
      }
      var elapsedMs := now - anchorTimestamp.value;
      var paused := Max(0, anchorRemainingMs - elapsedMs);
      anchorRemainingMs := paused;
      anchorTimestamp := None;
      remainingSeconds := CeilSeconds(paused);
      status := Paused;
      StopInterval();
      RunSyncEffect();
    }

    /**
     * `resume` at `now`: re-anchor at `now` with the remaining time as it
     * stands, run, and (re)start the single interval. The source does not
     * check the status; its only caller offers it while paused.
     */
    method Resume(now: int)
      requires Valid()
      modifies this
      ensures Valid()
      ensures anchorTimestamp == Some(now) && anchorRemainingMs == old(anchorRemainingMs)
      ensures status == Running && ticking && liveIntervals == 1
      ensures remainingSeconds == old(remainingSeconds)
      ensures CurrentPhase() == old(CurrentPhase()) && isComplete == old(isComplete)
      ensures workMinutes == old(workMinutes) && breakMinutes == old(breakMinutes) && totalCycles == old(totalCycles)
    {
      anchorTimestamp := Some(now);
      status := Running;
      StartInterval();
      RunSyncEffect();
    }

    /**
     * `reset`, from any state: interval stopped, anchor cleared, idle and not
     * complete at cycle 1's work session with its full duration shown.
     */
    method Reset()
      requires Valid()
      modifies this
      ensures Valid()
      ensures !ticking && liveIntervals == 0 && anchorTimestamp.None?
      ensures status == Idle && !isComplete && session == Work && currentCycle == 1
      ensures remainingSeconds == workMinutes * 60 && anchorRemainingMs == workMinutes * 60000
      ensures workMinutes == old(workMinutes) && breakMinutes == old(breakMinutes) && totalCycles == old(totalCycles)
    {
      StopInterval();
      anchorTimestamp := None;
      var seconds := workMinutes * 60;
      anchorRemainingMs := seconds * 1000;
      remainingSeconds := seconds;
      session := Work;
      currentCycle := 1;
      status := Idle;
      isComplete := false;
      RunSyncEffect();
    }

    /**
     * `setWorkDuration`: store the clamped value in [1, 120]; while idle
     * without a completed run, the display and the anchor follow it at once.
     */
    method SetWorkDuration(minutes: JsNumber)
      requires Valid()
      modifies this
      ensures Valid()
      ensures workMinutes == ClampSetting(minutes, MAX_WORK_MINUTES)
      ensures 1 <= workMinutes <= MAX_WORK_MINUTES
      ensures old(status) == Idle && !old(isComplete) ==>
        remainingSeconds == workMinutes * 60 && anchorRemainingMs == workMinutes * 60000
      ensures !(old(status) == Idle && !old(isComplete)) ==>
        remainingSeconds == old(remainingSeconds) && anchorRemainingMs == old(anchorRemainingMs)
      ensures breakMinutes == old(breakMinutes) && totalCycles == old(totalCycles)
      ensures status == old(status) && CurrentPhase() == old(CurrentPhase()) && isComplete == old(isComplete)
      ensures anchorTimestamp == old(anchorTimestamp) && ticking == old(ticking)
    {
      workMinutes := ClampSetting(minutes, MAX_WORK_MINUTES);
      RunSyncEffect();
    }

    /**
     * `setBreakDuration`: store the clamped value in [1, 60]. An idle timer
     * without a completed run shows work, so nothing else changes.
     */
    method SetBreakDuration(minutes: JsNumber)
      requires Valid()
      modifies this
      ensures Valid()
      ensures breakMinutes == ClampSetting(minutes, MAX_BREAK_MINUTES)
      ensures 1 <= breakMinutes <= MAX_BREAK_MINUTES
      ensures workMinutes == old(workMinutes) && totalCycles == old(totalCycles)
      ensures remainingSeconds == old(remainingSeconds) && anchorRemainingMs == old(anchorRemainingMs)
      ensures status == old(status) && CurrentPhase() == old(CurrentPhase()) && isComplete == old(isComplete)
      ensures anchorTimestamp == old(anchorTimestamp) && ticking == old(ticking)
    {
      breakMinutes := ClampSetting(minutes, MAX_BREAK_MINUTES);
      RunSyncEffect();
    }

    /** `setTotalCycles`: store the clamped value in [1, 20]; nothing else changes. */
    method SetTotalCycles(cycles: JsNumber)
      requires Valid()
      modifies this
      ensures Valid()
      ensures totalCycles == ClampSetting(cycles, MAX_CYCLES)
      ensures 1 <= totalCycles <= MAX_CYCLES
      ensures workMinutes == old(workMinutes) && breakMinutes == old(breakMinutes)
      ensures remainingSeconds == old(remainingSeconds) && anchorRemainingMs == old(anchorRemainingMs)
      ensures status == old(status) && CurrentPhase() == old(CurrentPhase()) && isComplete == old(isComplete)
      ensures anchorTimestamp == old(anchorTimestamp) && ticking == old(ticking)
    {
      totalCycles := ClampSetting(cycles, MAX_CYCLES);
      RunSyncEffect();
    }

    /** Unmount: the interval is stopped; nothing else changes. */
    method Unmount()
      requires Valid()
      modifies this`ticking, this`liveIntervals
      ensures !ticking && liveIntervals == 0
    {
      StopInterval();
    }
  }

  /**
   * Ticks that fire late, early or not at all inside a session do not change
   * what is shown: a timer ticked at `mid` and then at `now` shows what an
   * identical timer ticked only at `now` shows.
   */
  method TicksDoNotDrift(a: TimerEngine, b: TimerEngine, mid: int, now: int)
    requires a != b && a.Valid() && b.Valid()
    requires a.status == Running && b.status == Running
    requires a.anchorTimestamp == b.anchorTimestamp && a.anchorRemainingMs == b.anchorRemainingMs
    requires a.CurrentPhase() == b.CurrentPhase() && a.totalCycles == b.totalCycles
    requires a.anchorTimestamp.Some? && a.MsLeft(mid) > 0 && a.MsLeft(now) > 0
    modifies a, b
    ensures a.remainingSeconds == b.remainingSeconds
    ensures a.anchorTimestamp == b.anchorTimestamp && a.anchorRemainingMs == b.anchorRemainingMs
  {
    a.Tick(mid);
    a.Tick(now);
    b.Tick(now);
  }

  /**
   * Pausing a running timer and resuming it later loses and gains no time:
   * what a tick shows after the resume is what an uninterrupted countdown,
   * started the length of the pause later, would show.
   */
  method PauseResumeKeepsTime(t: TimerEngine, pausedAt: int, resumedAt: int, now: int)
    requires t.Valid() && t.status == Running
    requires t.MsLeft(pausedAt) >= 0
    modifies t
    ensures t.Valid()
    ensures var anchorMs, anchorTs := old(t.anchorRemainingMs), old(t.anchorTimestamp).value;
      anchorMs - (pausedAt - anchorTs) - (now - resumedAt) > 0 ==>
        && t.status == Running
        && t.remainingSeconds == ShownSeconds(anchorMs, anchorTs + (resumedAt - pausedAt), now)
  {
    ghost var anchorMs, anchorTs := t.anchorRemainingMs, t.anchorTimestamp.value;
    t.Pause(pausedAt);
    t.Resume(resumedAt);
    PauseResumeNoDrift(anchorMs, anchorTs, pausedAt, resumedAt, now);
    t.Tick(now);
  }
}
