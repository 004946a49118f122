/**
  What `update`, `handle_events` and the main loop guarantee together: the
  exact effect of each message, the round trips between Increase and
  Decrease, the navigation cycle, and what sequences of key presses do.
 */
module AppProperties {
  import opened Durations
  import opened App

  const FIVE_MINUTES: nat := 300 * NANOS_PER_SEC

  /** Quit finishes the application from any state and changes no other field. */
  lemma QuitFinishes(s: Snapshot)
    ensures Step(s, Quit) == s.(runningState := Done)
  {
  }

  /**
    Increase adds five minutes to the focused duration, stopping at `Duration::MAX`;
    with the timer panel focused it changes nothing.
   */
  lemma IncreaseEffect(s: Snapshot)
    ensures s.selectedWidgetBlock == SittingOption ==>
              Step(s, Increase) == s.(sittingDuration :=
                if s.sittingDuration + FIVE_MINUTES <= MAX_DURATION then s.sittingDuration + FIVE_MINUTES
                else MAX_DURATION)
    ensures s.selectedWidgetBlock == StandingOption ==>
              Step(s, Increase) == s.(standingDuration :=
                if s.standingDuration + FIVE_MINUTES <= MAX_DURATION then s.standingDuration + FIVE_MINUTES
                else MAX_DURATION)
    ensures s.selectedWidgetBlock == Timer ==> Step(s, Increase) == s
  {
  }

  /**
    Decrease removes five minutes from the focused duration, stopping at zero;
    with the timer panel focused it changes nothing.
   */
  lemma DecreaseEffect(s: Snapshot)
    ensures s.selectedWidgetBlock == SittingOption ==>
              Step(s, Decrease) == s.(sittingDuration :=
                if s.sittingDuration >= FIVE_MINUTES then s.sittingDuration - FIVE_MINUTES else 0)
    ensures s.selectedWidgetBlock == StandingOption ==>
              Step(s, Decrease) == s.(standingDuration :=
                if s.standingDuration >= FIVE_MINUTES then s.standingDuration - FIVE_MINUTES else 0)
    ensures s.selectedWidgetBlock == Timer ==> Step(s, Decrease) == s
  {
  }

  /** Pause and Resume set the timer flag and nothing else. */
  lemma PauseResumeEffect(s: Snapshot)
    ensures Step(s, Pause) == s.(timerState := Paused)
    ensures Step(s, Resume) == s.(timerState := InProgress)
  {
  }

  /** The unit tests of `update`, on `Model::default()` with the fields they set. */
  lemma UpdateTests()
    ensures Step(DEFAULT_MODEL, Quit).runningState == Done
    ensures Step(DEFAULT_MODEL.(sittingDuration := FromSecs(1800), selectedWidgetBlock := SittingOption),
                 Increase).sittingDuration == FromSecs(2100)
    ensures Step(DEFAULT_MODEL.(standingDuration := FromSecs(1800), selectedWidgetBlock := StandingOption),
                 Increase).standingDuration == FromSecs(2100)
    ensures Step(DEFAULT_MODEL.(sittingDuration := FromSecs(1800), selectedWidgetBlock := SittingOption),
                 Decrease).sittingDuration == FromSecs(1500)
    ensures Step(DEFAULT_MODEL.(standingDuration := FromSecs(1800), selectedWidgetBlock := StandingOption),
                 Decrease).standingDuration == FromSecs(1500)
    ensures Step(DEFAULT_MODEL.(timerState := InProgress), Pause).timerState == Paused
    ensures Step(DEFAULT_MODEL.(timerState := Paused), Resume).timerState == InProgress
    ensures Step(DEFAULT_MODEL.(selectedWidgetBlock := Timer), Navigate).selectedWidgetBlock == SittingOption
    ensures Step(DEFAULT_MODEL.(selectedWidgetBlock := SittingOption), Navigate).selectedWidgetBlock == StandingOption
    ensures Step(DEFAULT_MODEL.(selectedWidgetBlock := StandingOption), Navigate).selectedWidgetBlock == Timer
  {
  }

  /** Decrease undoes Increase on the focused duration unless the Increase saturated. */
  lemma IncreaseThenDecrease(s: Snapshot)
    requires s.selectedWidgetBlock == SittingOption ==> s.sittingDuration + FIVE_MINUTES <= MAX_DURATION
    requires s.selectedWidgetBlock == StandingOption ==> s.standingDuration + FIVE_MINUTES <= MAX_DURATION
    ensures Step(Step(s, Increase), Decrease) == s
  {
  }

  /** Increase undoes Decrease on the focused duration unless the Decrease stopped at zero. */
  lemma DecreaseThenIncrease(s: Snapshot)
    requires s.selectedWidgetBlock == SittingOption ==> s.sittingDuration >= FIVE_MINUTES
    requires s.selectedWidgetBlock == StandingOption ==> s.standingDuration >= FIVE_MINUTES
    ensures Step(Step(s, Decrease), Increase) == s
  {
  }

  /** Three Navigates bring the focus back where it was, through the two other panels. */
  lemma NavigateThreeTimes(s: Snapshot)
    ensures Step(s, Navigate).selectedWidgetBlock != s.selectedWidgetBlock
    ensures Step(Step(s, Navigate), Navigate).selectedWidgetBlock !in
              {s.selectedWidgetBlock, Step(s, Navigate).selectedWidgetBlock}
    ensures Step(Step(Step(s, Navigate), Navigate), Navigate) == s
  {
  }

  // ---------------------------------------------------------------------------
  // Sequences of polls

  /** The main loop ends exactly when a q or Q was pressed (or it had already ended). */
  lemma {:induction false} OnlyQuitKeyFinishes(s: Snapshot, polls: seq<Poll>)
    ensures RunEvents(s, polls).runningState == Done <==>
              s.runningState == Done || exists i :: 0 <= i < |polls| && IsQuitKey(polls[i])
    decreases |polls|
  {
    if polls != [] && s.runningState != Done {
      var next := Apply(s, HandleEvents(polls[0], s));
      OnlyQuitKeyFinishes(next, polls[1..]);
      if exists i :: 0 <= i < |polls| && IsQuitKey(polls[i]) {
        var i :| 0 <= i < |polls| && IsQuitKey(polls[i]);
        if i > 0 {
          assert polls[1..][i - 1] == polls[i];
        }
      } else {
        forall i | 0 <= i < |polls| - 1
          ensures !IsQuitKey(polls[1..][i])
        {
          assert polls[1..][i] == polls[i + 1];
        }
      }
    }
  }

  /** Timeouts, non-key events, key releases and repeats, and unbound keys leave the model as it was. */
  lemma {:induction false} IgnoredInputs(s: Snapshot, polls: seq<Poll>)
    requires forall i :: 0 <= i < |polls| ==> !IsCommandKey(polls[i])
    ensures RunEvents(s, polls) == s
    decreases |polls|
  {
    if polls != [] && s.runningState != Done {
      assert !IsCommandKey(polls[0]);
      IgnoredInputs(s, polls[1..]);
    }
  }

  /** n polls that each read a press of the key `code`. */
  function Presses(code: KeyCode, n: nat): (polls: seq<Poll>)
    ensures |polls| == n && forall i :: 0 <= i < n ==> Pressed(polls[i], code)
  {
    seq(n, i => Ready(Key(KeyEvent(code, Press))))
  }

  /**
    Pressing l n times while the sitting panel has the focus adds n times five
    minutes to the sitting duration, stopping at `Duration::MAX`; nothing else changes.
   */
  lemma {:induction false} RepeatedIncrease(s: Snapshot, n: nat)
    requires s.runningState == Running && s.selectedWidgetBlock == SittingOption
    ensures RunEvents(s, Presses(Char('l'), n)) == s.(sittingDuration :=
              if s.sittingDuration + n * FIVE_MINUTES <= MAX_DURATION then s.sittingDuration + n * FIVE_MINUTES
              else MAX_DURATION)
    decreases n
  {
    if n > 0 {
      var polls := Presses(Char('l'), n);
      assert polls[1..] == Presses(Char('l'), n - 1);
      RepeatedIncrease(Step(s, Increase), n - 1);
    }
  }

  /**
    Pressing h n times while the standing panel has the focus removes n times
    five minutes from the standing duration, stopping at zero; nothing else changes.
   */
  lemma {:induction false} RepeatedDecrease(s: Snapshot, n: nat)
    requires s.runningState == Running && s.selectedWidgetBlock == StandingOption
    ensures RunEvents(s, Presses(Char('h'), n)) == s.(standingDuration :=
              if s.standingDuration >= n * FIVE_MINUTES then s.standingDuration - n * FIVE_MINUTES else 0)
    decreases n
  {
    if n > 0 {
      var polls := Presses(Char('h'), n);
      assert polls[1..] == Presses(Char('h'), n - 1);
      RepeatedDecrease(Step(s, Decrease), n - 1);
    }
  }

  /** Three presses of Tab leave the model exactly as it was. */
  lemma TabThreeTimes(s: Snapshot)
    ensures RunEvents(s, Presses(Tab, 3)) == s
  {
  }

  /** The space bar is a toggle: pressing it twice leaves the model exactly as it was. */
  lemma SpaceTwice(s: Snapshot)
    ensures RunEvents(s, Presses(Char(' '), 2)) == s
  {
  }
}
