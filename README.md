# get-up: the interaction state machine and the pausable stopwatch

get-up reminds its user to alternate between sitting and standing. Its terminal
application keeps a `Model` record: the phase (sitting or standing), a paused or
running timer flag, the two interval lengths, a running/done flag and the focused
panel. A press of q, Q, space, Tab, h, H, l or L becomes a `Message`; any other
event becomes none. `update` applies a message to the model in place. The main
loop drains messages until `update` returns none and stops once the model is done.
Beside it, `Timer` is a pausable stopwatch. It banks the time of finished running
segments and adds the live segment when asked.

This project models both in Dafny:

- `durations.dfy` (module `Durations`): Rust's `Duration` as a number of
  nanoseconds bounded by `Duration::MAX`, with `saturating_add` and `saturating_sub`.
- `pausable_timer.dfy` (module `PausableTimer`): `Timer` as a class with its three
  fields. The monotonic clock is a `now` argument, and an `Instant` is the time
  since an arbitrary origin.
- `app.dfy` (module `App`): the enums of `src/main.rs`, the class `Model`, `Update`,
  the key decision of `handle_events`, the drain loop and the main loop. The main
  loop receives the results of its terminal polls as a sequence. `Step` is the
  effect of `update` on a `Snapshot` (the value of all of `Model`'s fields), and
  `RunEvents` is the effect of the main loop.
- `app_properties.dfy` (module `AppProperties`): lemmas about single messages
  and about sequences of key presses.

Facts about the code that the model keeps:

- The code does not clamp durations. Increase and Decrease only saturate at
  `Duration::MAX` and at zero.
- Navigate moves the focus in one direction only.
- Reset and Next change nothing.
- Pause and Resume only set the model's timer flag. `Model` owns no `Timer`.
- No message ends a phase or sends a notification.
- `Timer::pause` and `Timer::resume` are not guarded against repeat calls.
- `Timer::reset_time` keeps the paused/running state.

## Model

| member | source | states |
|---|---|---|
| `Durations.FromSecs` | src/main.rs:19 | `Duration::from_secs`: a whole number of seconds, so the step `INCREASE_STEP_DURATION = FromSecs(300)` is exactly 300 s |
| `Durations.SaturatingAdd` | src/main.rs:222-229 | the result is never below either operand; it is the exact sum exactly when the sum fits, and `Duration::MAX` otherwise |
| `Durations.SaturatingSub` | src/main.rs:235-242 | the result is never above the minuend; it is the exact difference exactly when the subtrahend fits, and zero otherwise |
| `Durations.SubUndoesAdd` | src/main.rs:220-245 | subtracting a step just added restores the duration when the addition did not saturate |
| `Durations.AddUndoesSub` | src/main.rs:220-245 | adding back a step just subtracted restores the duration when the subtraction did not stop at zero |
| `PausableTimer.Timer.constructor` | src/pausable_timer.rs:44-51 | a new timer starts at `now`, runs, has nothing banked, and reports zero elapsed at `now` (the test at 58-64) |
| `PausableTimer.Timer.Elapsed` | src/pausable_timer.rs:34-41 | elapsed is at least the bank and at most bank plus live segment; paused it is the bank; running it is bank plus segment when that fits and `Duration::MAX` otherwise; it equals the bank exactly when paused, no time has passed or the bank is saturated |
| `PausableTimer.Timer.ResetTime` | src/pausable_timer.rs:17-20 | bank zeroed, segment restarted at `now`, state kept; elapsed is zero at `now`, and a paused timer stays at zero forever |
| `PausableTimer.Timer.Pause` | src/pausable_timer.rs:22-27 | the live segment is added to the bank (saturating) and the timer is paused; pausing a running timer keeps elapsed at `now`; pausing a paused timer adds the segment again; afterwards elapsed is constant |
| `PausableTimer.Timer.Resume` | src/pausable_timer.rs:29-32 | a new segment starts at `now`, the bank is kept and the timer runs; resuming a paused timer keeps elapsed at `now` |
| `PausableTimer.ElapsedMonotone` | src/pausable_timer.rs:34-41 | elapsed never decreases as the clock advances, and is constant while paused |
| `PausableTimer.PauseThenResume` | src/pausable_timer.rs:22-32 | pausing and resuming at one instant leaves elapsed at every later instant as it would have been without the pause |
| `PausableTimer.PauseTwice` | src/pausable_timer.rs:22-27 | a second pause at the same instant banks the segment twice (10 becomes 20) |
| `PausableTimer.ResumeWhileRunning` | src/pausable_timer.rs:29-32 | resuming a running timer throws away its live segment (10 becomes 0) |
| `App.NextBlock` | src/main.rs:249-253 | Navigate always moves the focus to a different panel |
| `App.Step` | src/main.rs:217-259 | phase never changes; the model is done exactly when it was or the message is Quit; only Pause/Resume touch the timer flag; exactly Navigate moves the focus; a duration changes only by Increase/Decrease on its own panel; Reset and Next change nothing |
| `App.Model.constructor` | src/main.rs:21-59 | `Model::default()`: sitting, in progress, both durations zero, running, timer panel focused |
| `App.Update` | src/main.rs:217-259 | the fields after the call are `Step` of the fields before, and no follow-up message is returned |
| `App.HandleEvents` | src/main.rs:184-214 | for each message, both directions of which key press yields it given the timer flag and the focus; no message exactly when the poll is not a press of q, Q, space, Tab, h, H, l or L |
| `App.RunEvents` | src/main.rs:78-86 | the main loop never changes the phase, and once done it ignores every further poll |
| `App.DrainMessages` | src/main.rs:83-85 | the drain loop terminates and leaves the model as the single message (if any) makes it |
| `App.RunMainLoop` | src/main.rs:76-86 | the loop reads a poll only while the model is not done, and stops early only when it is done; the model ends as `RunEvents` of all polls, which equals `RunEvents` of the consumed ones |
| `App.RunEventsSnoc` | src/main.rs:78-86 | one more poll continues the run from where it stopped, unless it is already done |
| `AppProperties.QuitFinishes` | src/main.rs:219 | Quit sets done from any state and changes nothing else |
| `AppProperties.IncreaseEffect` | src/main.rs:220-232 | Increase adds 300 s to the focused duration, capped at `Duration::MAX`; on the timer panel nothing changes |
| `AppProperties.DecreaseEffect` | src/main.rs:233-245 | Decrease removes 300 s from the focused duration, stopping at zero; on the timer panel nothing changes |
| `AppProperties.PauseResumeEffect` | src/main.rs:246-247 | Pause sets the flag to paused and Resume to in progress, nothing else |
| `AppProperties.UpdateTests` | src/main.rs:265-366 | the outcomes the unit tests of `update` assert (1800 s to 2100 s and 1500 s, flags, focus moves) |
| `AppProperties.IncreaseThenDecrease` | src/main.rs:220-245 | Increase then Decrease restores the model when the increase did not saturate |
| `AppProperties.DecreaseThenIncrease` | src/main.rs:220-245 | Decrease then Increase restores the model when the focused duration is at least 300 s |
| `AppProperties.NavigateThreeTimes` | src/main.rs:248-254 | Navigate visits three distinct panels and three Navigates restore the model |
| `AppProperties.OnlyQuitKeyFinishes` | src/main.rs:78-86 | the main loop ends exactly when q or Q has been pressed |
| `AppProperties.IgnoredInputs` | src/main.rs:181-214 | timeouts, non-key events, releases, repeats and unbound keys leave the model unchanged |
| `AppProperties.RepeatedIncrease` | src/main.rs:202-208 | n presses of l on the sitting panel add n times 300 s, capped at `Duration::MAX`, and change nothing else |
| `AppProperties.RepeatedDecrease` | src/main.rs:195-201 | n presses of h on the standing panel remove n times 300 s, stopping at zero, and change nothing else |
| `AppProperties.TabThreeTimes` | src/main.rs:194 | three Tab presses leave the model unchanged |
| `AppProperties.SpaceTwice` | src/main.rs:187-193 | the space bar toggles: two presses leave the model unchanged |

## Left out

- `view` (src/main.rs:93-179): layout and drawing only, with fixed labels and ratios; no state.
- Terminal I/O: `ratatui::init` and `restore`, `terminal.draw`, `event::poll` and `event::read`. The main loop receives the poll results as a finite sequence. The real loop waits for more input forever, and its I/O errors are not modelled.
- Key codes other than characters and Tab are one `OtherKey` constructor; a character key keeps its character as `Char(c)`. Non-key events are one `NonKey` constructor. Presses of other characters or of `OtherKey`, releases, repeats and non-key events all yield no message, as in src/main.rs:209-214.
- `Instant::now()`: the clock is the `now` argument, which the monotonic clock keeps at or after `startTime`. An `Instant` is bounded by `Duration::MAX` because real instants never differ by more.
- `start_timer`, `format_time_after_duration`, `Schedule` and `FixedSchedule`: sleeping, printing, wall-clock formatting and notifications, none of which the interactive loop calls.
- src/notification.rs is not part of this model: it wraps operating-system notifications.
