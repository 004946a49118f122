/**
  The reminder's terminal application: the `Model` record, the `Message`s a
  key press turns into, `update`, which applies one message to the model in
  place, and the main loop that reads one input per iteration and drains the
  messages it produces until the user quits.
  Drawing the screen and reading the terminal are not modelled: the loop is
  handed the sequence of results its polls of the terminal would return.
 */
module App {
  import opened Durations

  /** `INCREASE_STEP_DURATION`: the five minutes one Increase or Decrease adds or removes. */
  const INCREASE_STEP_DURATION: Duration := FromSecs(300)

  datatype RunningState = Running | Done

  /** Which of the two activities is being timed. */
  datatype State = Sitting | Standing

  datatype TimerState = InProgress | Paused

  /** The panel that has the focus. */
  datatype WidgetBlock = Timer | SittingOption | StandingOption

  datatype Message = Increase | Decrease | Reset | Next | Quit | Pause | Resume | Navigate

  datatype Option<T> = None | Some(value: T)

  /** The values of all fields of a `Model` at one moment. */
  datatype Snapshot = Snapshot(
    state: State,
    timerState: TimerState,
    sittingDuration: Duration,
    standingDuration: Duration,
    runningState: RunningState,
    selectedWidgetBlock: WidgetBlock)

  /** `Model::default()`: every field at its type's default, both durations zero. */
  const DEFAULT_MODEL: Snapshot := Snapshot(Sitting, InProgress, ZERO, ZERO, Running, Timer)

  /** The focus after `Navigate`: Timer, then SittingOption, then StandingOption, then Timer again. */
  function NextBlock(b: WidgetBlock): (r: WidgetBlock)
    ensures r != b
  {
    match b
    case Timer => SittingOption
    case SittingOption => StandingOption
    case StandingOption => Timer
  }

  /**
    The effect of `update` on the model's fields. Phase never changes; only Quit
    finishes; only Pause and Resume touch the timer flag; only Navigate moves the
    focus; a duration changes only through Increase or Decrease while its own
    panel has the focus; Reset and Next change nothing.
   */
  function Step(s: Snapshot, message: Message): (r: Snapshot)
    ensures r.state == s.state
    ensures r.runningState == Done <==> s.runningState == Done || message == Quit
    ensures r.timerState != s.timerState ==> message == Pause || message == Resume
    ensures r.selectedWidgetBlock != s.selectedWidgetBlock <==> message == Navigate
    ensures r.sittingDuration != s.sittingDuration ==>
              s.selectedWidgetBlock == SittingOption && (message == Increase || message == Decrease)
    ensures r.standingDuration != s.standingDuration ==>
              s.selectedWidgetBlock == StandingOption && (message == Increase || message == Decrease)
    ensures message == Reset || message == Next ==> r == s
  {
    match message
    case Quit => s.(runningState := Done)
    case Increase =>
      (match s.selectedWidgetBlock
       case SittingOption =>
         s.(sittingDuration := SaturatingAdd(s.sittingDuration, INCREASE_STEP_DURATION))
       case StandingOption =>
         s.(standingDuration := SaturatingAdd(s.standingDuration, INCREASE_STEP_DURATION))
       case Timer => s)
    case Decrease =>
      (match s.selectedWidgetBlock
       case SittingOption =>
         s.(sittingDuration := SaturatingSub(s.sittingDuration, INCREASE_STEP_DURATION))
       case StandingOption =>
         s.(standingDuration := SaturatingSub(s.standingDuration, INCREASE_STEP_DURATION))
       case Timer => s)
    case Pause => s.(timerState := Paused)
    case Resume => s.(timerState := InProgress)
    case Navigate => s.(selectedWidgetBlock := NextBlock(s.selectedWidgetBlock))
    case Reset => s
    case Next => s
  }

  /** The model after an optional message: unchanged when there is none. */
  function Apply(s: Snapshot, message: Option<Message>): Snapshot
  {
    match message
    case None => s
    case Some(m) => Step(s, m)
  }

  /** The application state, updated in place by `Update`. */
  class Model {
    var state: State
    var timerState: TimerState
    var sittingDuration: Duration
    var standingDuration: Duration
    var runningState: RunningState
    var selectedWidgetBlock: WidgetBlock

    /** `Model::default()`. */
    constructor Default()
      ensures View() == DEFAULT_MODEL
    {
      state := Sitting;
      timerState := InProgress;
      sittingDuration := ZERO;
      standingDuration := ZERO;
      runningState := Running;
      selectedWidgetBlock := Timer;
    }

    function View(): Snapshot
      reads this
    {
      Snapshot(state, timerState, sittingDuration, standingDuration, runningState, selectedWidgetBlock)
    }
  }

  /** `update`: applies one message to the model in place and never asks for a follow-up message. */
  method Update(model: Model, message: Message) returns (followUp: Option<Message>)
    modifies model
    ensures model.View() == Step(old(model.View()), message)
    ensures followUp == None
  {
    match message {
      case Quit => model.runningState := Done;
      case Increase =>
        match model.selectedWidgetBlock {
          case SittingOption =>
            model.sittingDuration := SaturatingAdd(model.sittingDuration, INCREASE_STEP_DURATION);
          case StandingOption =>
            model.standingDuration := SaturatingAdd(model.standingDuration, INCREASE_STEP_DURATION);
          case Timer =>
        }
      case Decrease =>
        match model.selectedWidgetBlock {
          case SittingOption =>
            model.sittingDuration := SaturatingSub(model.sittingDuration, INCREASE_STEP_DURATION);
          case StandingOption =>
            model.standingDuration := SaturatingSub(model.standingDuration, INCREASE_STEP_DURATION);
          case Timer =>
        }
      case Pause => model.timerState := Paused;
      case Resume => model.timerState := InProgress;
      case Navigate => model.selectedWidgetBlock := NextBlock(model.selectedWidgetBlock);
      case Reset =>
      case Next =>
    }
    followUp := None;
  }

  // ---------------------------------------------------------------------------
  // Input

  datatype KeyEventKind = Press | Repeat | Release

  /** A key code: a character key keeps its character, and `OtherKey` stands for every non-character code other than Tab. */
  datatype KeyCode = Char(c: char) | Tab | OtherKey

  datatype KeyEvent = KeyEvent(code: KeyCode, kind: KeyEventKind)

  /** A terminal event: a key event, or any other kind (mouse, resize, focus, paste). */
  datatype Event = Key(key: KeyEvent) | NonKey

  /** The outcome of one poll of the terminal: nothing within the wait, or one event read. */
  datatype Poll = TimedOut | Ready(event: Event)

  /** The poll read a press of the key `code`. */
  predicate Pressed(p: Poll, code: KeyCode)
  {
    p.Ready? && p.event.Key? && p.event.key.kind == Press && p.event.key.code == code
  }

  predicate IsQuitKey(p: Poll)
  {
    Pressed(p, Char('q')) || Pressed(p, Char('Q'))
  }

  /** One of the keys the application reacts to was pressed. */
  predicate IsCommandKey(p: Poll)
  {
    || IsQuitKey(p)
    || Pressed(p, Char(' '))
    || Pressed(p, Tab)
    || Pressed(p, Char('h')) || Pressed(p, Char('H'))
    || Pressed(p, Char('l')) || Pressed(p, Char('L'))
  }

  /**
    The message `handle_events` makes of one poll, given the current model. Only
    key presses count. The space bar resumes a paused timer and pauses any other;
    h and l reset or skip while the timer panel has the focus and decrease or
    increase the focused duration otherwise.
   */
  function HandleEvents(p: Poll, s: Snapshot): (r: Option<Message>)
    ensures r == Some(Quit) <==> IsQuitKey(p)
    ensures r == Some(Resume) <==> Pressed(p, Char(' ')) && s.timerState == Paused
    ensures r == Some(Pause) <==> Pressed(p, Char(' ')) && s.timerState != Paused
    ensures r == Some(Navigate) <==> Pressed(p, Tab)
    ensures r == Some(Reset) <==>
              (Pressed(p, Char('h')) || Pressed(p, Char('H'))) && s.selectedWidgetBlock == Timer
    ensures r == Some(Decrease) <==>
              (Pressed(p, Char('h')) || Pressed(p, Char('H'))) && s.selectedWidgetBlock != Timer
    ensures r == Some(Next) <==>
              (Pressed(p, Char('l')) || Pressed(p, Char('L'))) && s.selectedWidgetBlock == Timer
    ensures r == Some(Increase) <==>
              (Pressed(p, Char('l')) || Pressed(p, Char('L'))) && s.selectedWidgetBlock != Timer
    ensures r == None <==> !IsCommandKey(p)
  {
    if p.Ready? && p.event.Key? && p.event.key.kind == Press then
      match p.event.key.code
      case Char(c) =>
        if c == 'q' || c == 'Q' then Some(Quit)
        else if c == ' ' then Some(if s.timerState == Paused then Resume else Pause)
        else if c == 'h' || c == 'H' then Some(if s.selectedWidgetBlock == Timer then Reset else Decrease)
        else if c == 'l' || c == 'L' then Some(if s.selectedWidgetBlock == Timer then Next else Increase)
        else None
      case Tab => Some(Navigate)
      case OtherKey => None
    else
      None
  }

  // ---------------------------------------------------------------------------
  // The main loop

  /**
    The state the main loop reaches from `s` on the given polls: each poll's
    message is applied in turn, and the loop stops at the first state that is
    `Done`, ignoring the polls after it.
   */
  function RunEvents(s: Snapshot, polls: seq<Poll>): (r: Snapshot)
    ensures r.state == s.state
    ensures s.runningState == Done ==> r == s
    decreases |polls|
  {
    if polls == [] || s.runningState == Done then s
    else RunEvents(Apply(s, HandleEvents(polls[0], s)), polls[1..])
  }

  /** The drain loop of `main`: applies messages until `update` returns none. */
  method DrainMessages(model: Model, first: Option<Message>)
    modifies model
    ensures model.View() == Apply(old(model.View()), first)
  {
    var currentMessage := first;
    while currentMessage.Some?
      invariant currentMessage.Some? ==> currentMessage == first && model.View() == old(model.View())
      invariant currentMessage.None? ==> model.View() == Apply(old(model.View()), first)
      decreases if currentMessage.Some? then 1 else 0
    {
      currentMessage := Update(model, currentMessage.value);
    }
  }

  /**
    `main` without the terminal: one poll per iteration while the model is not
    `Done`. Returns how many polls it consumed: it reads polls only while the
    model is not `Done`, and stops early only on `Done`.
   */
  method RunMainLoop(model: Model, polls: seq<Poll>) returns (consumed: nat)
    modifies model
    ensures consumed <= |polls|
    ensures consumed < |polls| ==> model.runningState == Done
    ensures forall k :: 0 <= k < consumed ==> RunEvents(old(model.View()), polls[..k]).runningState != Done
    ensures model.View() == RunEvents(old(model.View()), polls[..consumed])
    ensures model.View() == RunEvents(old(model.View()), polls)
  {
    consumed := 0;
    while model.runningState != Done && consumed < |polls|
      invariant consumed <= |polls|
      invariant model.View() == RunEvents(old(model.View()), polls[..consumed])
      invariant forall k :: 0 <= k < consumed ==> RunEvents(old(model.View()), polls[..k]).runningState != Done
      invariant RunEvents(model.View(), polls[consumed..]) == RunEvents(old(model.View()), polls)
    {
      ghost var before := model.View();
      var currentMessage := HandleEvents(polls[consumed], model.View());
      DrainMessages(model, currentMessage);
      RunEventsSnoc(old(model.View()), polls[..consumed], polls[consumed]);
      assert polls[..consumed + 1] == polls[..consumed] + [polls[consumed]];
      assert polls[consumed..][1..] == polls[consumed + 1..];
      consumed := consumed + 1;
    }
    assert consumed == |polls| ==> polls[..consumed] == polls;
  }

  /** Running on one more poll continues from where the shorter run stopped. */
  lemma {:induction false} RunEventsSnoc(s: Snapshot, polls: seq<Poll>, p: Poll)
    ensures RunEvents(s, polls + [p]) ==
              var t := RunEvents(s, polls);
              if t.runningState == Done then t else Apply(t, HandleEvents(p, t))
    decreases |polls|
  {
    if polls == [] {
      assert polls + [p] == [p];
    } else if s.runningState != Done {
      assert (polls + [p])[1..] == polls[1..] + [p];
      RunEventsSnoc(Apply(s, HandleEvents(polls[0], s)), polls[1..], p);
    }
  }
}
