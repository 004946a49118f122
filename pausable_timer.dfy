/**
  The pausable stopwatch: a start instant, the time banked from earlier
  running segments, and whether the stopwatch is running or paused.
  The monotonic clock is not read here: every operation that would call
  `Instant::now()` receives the current instant as `now`, and since that
  clock never goes backwards, `now` is never earlier than `startTime`.
 */
module PausableTimer {
  import opened Durations

  /** An instant of the monotonic clock, as the time elapsed since an arbitrary origin. */
  type Instant = Duration

  datatype State = InProgress | Paused

  class Timer {
    var startTime: Instant
    var accumulatedTime: Duration
    var state: State

    /** `Timer::default()`: a running stopwatch that starts at `now` with nothing banked. */
    constructor Default(now: Instant)
      ensures startTime == now && accumulatedTime == ZERO && state == InProgress
      ensures Elapsed(now) == ZERO
    {
      startTime := now;
      accumulatedTime := ZERO;
      state := InProgress;
    }

    /**
      The running time at `now`: the bank alone while paused, the bank plus the
      live segment (saturating) while running. Reads the timer, changes nothing.
     */
    function Elapsed(now: Instant): (r: Duration)
      reads this
      requires startTime <= now
      ensures accumulatedTime <= r <= accumulatedTime + (now - startTime)
      ensures state == Paused ==> r == accumulatedTime
      ensures state == InProgress && accumulatedTime + (now - startTime) <= MAX_DURATION ==>
                r == accumulatedTime + (now - startTime)
      ensures state == InProgress && accumulatedTime + (now - startTime) > MAX_DURATION ==>
                r == MAX_DURATION
      ensures r == accumulatedTime <==> state == Paused || now == startTime || accumulatedTime == MAX_DURATION
    {
      match state
      case InProgress => SaturatingAdd(accumulatedTime, now - startTime)
      case Paused => accumulatedTime
    }

    /** `reset_time`: empties the bank and restarts the segment at `now`; running or paused stays as it was. */
    method ResetTime(now: Instant)
      requires startTime <= now
      modifies this
      ensures startTime == now && accumulatedTime == ZERO && state == old(state)
      ensures Elapsed(now) == ZERO
      ensures state == Paused ==> forall later: Instant :: now <= later ==> Elapsed(later) == ZERO
    {
      startTime := now;
      accumulatedTime := ZERO;
    }

    /**
      `pause`: folds the segment since `startTime` into the bank and marks the timer paused.
      Nothing guards against a second call: pausing a paused timer banks the same segment again.
     */
    method Pause(now: Instant)
      requires startTime <= now
      modifies this
      ensures accumulatedTime == SaturatingAdd(old(accumulatedTime), now - old(startTime))
      ensures state == Paused && startTime == old(startTime)
      ensures old(state) == InProgress ==> Elapsed(now) == old(Elapsed(now))
      ensures old(state) == Paused ==> Elapsed(now) == SaturatingAdd(old(Elapsed(now)), now - startTime)
      ensures forall later: Instant :: now <= later ==> Elapsed(later) == Elapsed(now)
    {
      accumulatedTime := SaturatingAdd(accumulatedTime, now - startTime);
      state := Paused;
    }

    /**
      `resume`: starts a new segment at `now` and marks the timer running, keeping the bank.
      Nothing guards against a second call: resuming a running timer discards its live segment.
     */
    method Resume(now: Instant)
      requires startTime <= now
      modifies this
      ensures startTime == now && state == InProgress && accumulatedTime == old(accumulatedTime)
      ensures Elapsed(now) == accumulatedTime
      ensures old(state) == Paused ==> Elapsed(now) == old(Elapsed(now))
    {
      startTime := now;
      state := InProgress;
    }
  }

  /** The elapsed time never decreases as the clock advances, and stays constant while paused. */
  lemma ElapsedMonotone(t: Timer, now: Instant, later: Instant)
    requires t.startTime <= now <= later
    ensures t.Elapsed(now) <= t.Elapsed(later)
    ensures t.state == Paused ==> t.Elapsed(later) == t.Elapsed(now)
  {
  }

  /**
    Pausing and resuming at the same instant changes nothing that can be observed
    afterwards: at every later instant the elapsed time is what it would have been
    without the pause.
   */
  method PauseThenResume(t: Timer, now: Instant)
    requires t.startTime <= now && t.state == InProgress
    modifies t
    ensures t.state == InProgress && t.startTime == now
    ensures forall later: Instant :: now <= later ==> t.Elapsed(later) == old(t.Elapsed(later))
  {
    t.Pause(now);
    t.Resume(now);
    forall later: Instant | now <= later
      ensures t.Elapsed(later) == old(t.Elapsed(later))
    {
      SaturatingAddAssociates(old(t.accumulatedTime), now - old(t.startTime), later - now);
    }
  }

  /** A second `pause` at the same instant banks the segment since `startTime` a second time. */
  method PauseTwice() returns (once: Duration, twice: Duration)
    ensures once == 10 && twice == 20
  {
    var t := new Timer.Default(0);
    t.Pause(10);
    once := t.Elapsed(10);
    t.Pause(10);
    twice := t.Elapsed(10);
  }

  /** A `resume` on a running timer throws away the time of its live segment. */
  method ResumeWhileRunning() returns (before: Duration, after: Duration)
    ensures before == 10 && after == 0
  {
    var t := new Timer.Default(0);
    before := t.Elapsed(10);
    t.Resume(10);
    after := t.Elapsed(10);
  }
}
