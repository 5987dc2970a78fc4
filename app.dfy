/** The session state machine of `App`: three phases (writing, burning,
    released), the note's text, the flame and dimming flags, the sound
    switch, the double-Enter time stamp and the release count of the
    history hook. `AppState` and its step functions are the abstract
    model; `Session` keeps the same cells as fields and each of its
    handlers is proved to take the step of the same name. */
module App {
  import opened Wrappers
  import opened Text
  import RH = ReleaseHistory
  import PC = PaperCard

  datatype Phase = Writing | Burning | Released

  /** The largest gap, exclusive, between two Enter presses that burns. */
  const DoubleEnterWindow: int := 500

  /** The vibration pattern of a burn: 50 ms on, 30 ms off, 100 ms on. */
  const HapticPattern: seq<nat> := [50, 30, 100]

  const Prompts: seq<string> := [
    "What's weighing on you?",
    "What do you want to forgive?",
    "What fear can you release?",
    "What regret haunts you?",
    "What anger can you let go?"
  ]

  /** The prompt chips on screen: `PROMPTS.slice(0, 3)`. */
  const ShownPrompts: seq<string> := Prompts[..3]

  datatype AppState = AppState(
    phase: Phase,
    text: string,
    lastEnterTime: int,
    isFlameExcited: bool,
    isDimmed: bool,
    soundEnabled: bool,
    releaseCount: int)

  /** The state on mount, before the history has loaded. */
  const Start: AppState := AppState(Writing, "", 0, false, false, false, 0)

  /** The flame is excited exactly when the screen is dimmed: the two cells
      start equal and every handler sets them together. */
  predicate FlameMatchesDim(s: AppState)
  {
    s.isFlameExcited == s.isDimmed
  }

  // ---- What is on screen ----

  /** "Thoughts released: n" */
  predicate ShowsHistoryCounter(s: AppState) { s.releaseCount > 0 }

  /** The prompt chips: writing, with an empty note. */
  predicate ShowsPrompts(s: AppState) { s.phase == Writing && |s.text| == 0 }

  /** The draggable note, with its textarea. */
  predicate ShowsPaperCard(s: AppState) { s.phase == Writing }

  /** The burn animation, whose completion is the `BurnFinished` event. */
  predicate ShowsBurnEffect(s: AppState) { s.phase == Burning }

  /** The released screen with its "write again" button. */
  predicate ShowsReleaseState(s: AppState) { s.phase == Released }

  /** The flame: everywhere except on the released screen. */
  predicate ShowsFlame(s: AppState) { s.phase != Released }

  /** "Press Enter twice to release": writing, with a non-blank note. */
  predicate ShowsKeyboardHint(s: AppState) { s.phase == Writing && !IsBlank(s.text) }

  /** Exactly one of the three screens is shown; the keyboard hint and the
      prompt chips never appear together, and the hint comes only with the
      note and the flame. */
  lemma ScreensAreExclusive(s: AppState)
    ensures ShowsPaperCard(s) || ShowsBurnEffect(s) || ShowsReleaseState(s)
    ensures !(ShowsPaperCard(s) && ShowsBurnEffect(s)) && !(ShowsPaperCard(s) && ShowsReleaseState(s))
            && !(ShowsBurnEffect(s) && ShowsReleaseState(s))
    ensures !(ShowsKeyboardHint(s) && ShowsPrompts(s))
    ensures ShowsKeyboardHint(s) ==> ShowsPaperCard(s) && ShowsFlame(s)
  {
  }

  // ---- The handlers as steps on AppState ----

  /** `handleBurn`: nothing happens to a blank note; otherwise the session
      starts burning, the flame calms, the dimming lifts and the history
      records one release. It has no phase guard of its own. */
  function BurnStep(s: AppState): AppState
  {
    if IsBlank(s.text) then s
    else s.(phase := Burning, isFlameExcited := false, isDimmed := false,
             releaseCount := s.releaseCount + 1)
  }

  /** `handleBurnComplete`: released, unconditionally. */
  function BurnCompleteStep(s: AppState): AppState
  {
    s.(phase := Released)
  }

  /** `handleWriteAgain`: an empty note, back to writing. */
  function WriteAgainStep(s: AppState): AppState
  {
    s.(text := "", phase := Writing)
  }

  /** `toggleSound` */
  function ToggleSoundStep(s: AppState): AppState
  {
    s.(soundEnabled := !s.soundEnabled)
  }

  /** `handlePromptClick(prompt)`: the prompt and one space. */
  function PromptClickStep(s: AppState, prompt: string): AppState
  {
    s.(text := prompt + " ")
  }

  /** `handleDragUpdate(isNearFlame)`: flame and dimming follow proximity. */
  function DragUpdateStep(s: AppState, isNearFlame: bool): AppState
  {
    s.(isFlameExcited := isNearFlame, isDimmed := isNearFlame)
  }

  /** The textarea's `onChange`, which is `setText`. */
  function TextInputStep(s: AppState, newText: string): AppState
  {
    s.(text := newText)
  }

  /** A key press the handler acts on: Enter without Shift, while writing
      a non-blank note. */
  predicate QualifyingEnter(s: AppState, key: string, shiftKey: bool)
  {
    s.phase == Writing && key == "Enter" && !shiftKey && !IsBlank(s.text)
  }

  /** A qualifying Enter within the window of the stored time stamp: the
      handler prevents the default and burns. */
  predicate SecondEnter(s: AppState, key: string, shiftKey: bool, now: int)
  {
    QualifyingEnter(s, key, shiftKey) && now - s.lastEnterTime < DoubleEnterWindow
  }

  /** The window `keydown` handler at time `now`. */
  function KeyDownStep(s: AppState, key: string, shiftKey: bool, now: int): AppState
  {
    if s.phase != Writing then s
    else if key == "Enter" && !shiftKey && !IsBlank(s.text) then
      if now - s.lastEnterTime < DoubleEnterWindow then BurnStep(s)
      else s.(lastEnterTime := now)
    else s
  }

  // ---- Properties of single steps ----

  /** Burning a blank note changes nothing at all. */
  lemma BurnBlankIsNoop(s: AppState)
    requires IsBlank(s.text)
    ensures BurnStep(s) == s
  {
  }

  /** Burning a non-blank note moves to burning, clears both flags, adds
      exactly one to the count and leaves text, sound and time stamp. */
  lemma BurnNonBlank(s: AppState)
    requires !IsBlank(s.text)
    ensures var r := BurnStep(s);
            && r.phase == Burning && !r.isFlameExcited && !r.isDimmed
            && r.releaseCount == s.releaseCount + 1
            && r.text == s.text && r.soundEnabled == s.soundEnabled
            && r.lastEnterTime == s.lastEnterTime
  {
  }

  /** The burned text survives until the next note: the burn animation is
      shown the same text and the released screen keeps it. */
  lemma BurnCompleteKeepsText(s: AppState)
    ensures BurnCompleteStep(s).phase == Released && BurnCompleteStep(s).text == s.text
    ensures BurnCompleteStep(s).releaseCount == s.releaseCount
  {
  }

  /** "Write again" always gives an empty note in the writing phase, and
      with it the prompt chips. */
  lemma WriteAgainResets(s: AppState)
    ensures WriteAgainStep(s).phase == Writing && WriteAgainStep(s).text == ""
    ensures ShowsPrompts(WriteAgainStep(s)) && !ShowsKeyboardHint(WriteAgainStep(s))
  {
  }

  /** Toggling the sound twice restores it. */
  lemma ToggleSoundTwice(s: AppState)
    ensures ToggleSoundStep(ToggleSoundStep(s)) == s
    ensures ToggleSoundStep(s).soundEnabled != s.soundEnabled
  {
  }

  /** A prompt click leaves a non-blank note (the prompt and one space), so
      a burn is possible right after it. */
  lemma PromptClickMakesNonBlank(s: AppState, prompt: string)
    requires prompt in ShownPrompts
    ensures PromptClickStep(s, prompt).text == prompt + " "
    ensures !IsBlank(PromptClickStep(s, prompt).text)
  {
    assert prompt[0] == 'W' && !IsWhitespace(prompt[0]);
    AppendWhitespaceKeepsBlankness(prompt, " ");
  }

  /** The key handler changes nothing outside writing, for any key other
      than Enter, with Shift held, or on a blank note. */
  lemma KeyDownIgnored(s: AppState, key: string, shiftKey: bool, now: int)
    requires s.phase != Writing || key != "Enter" || shiftKey || IsBlank(s.text)
    ensures KeyDownStep(s, key, shiftKey, now) == s
  {
  }

  /** A qualifying Enter less than 500 ms after the stored one burns and
      keeps the stored time stamp. */
  lemma KeyDownQuick(s: AppState, key: string, shiftKey: bool, now: int)
    requires SecondEnter(s, key, shiftKey, now)
    ensures KeyDownStep(s, key, shiftKey, now) == BurnStep(s)
    ensures KeyDownStep(s, key, shiftKey, now).phase == Burning
    ensures KeyDownStep(s, key, shiftKey, now).lastEnterTime == s.lastEnterTime
  {
  }

  /** A qualifying Enter 500 ms or more after the stored one only stores
      the new time and does not burn. */
  lemma KeyDownSlow(s: AppState, key: string, shiftKey: bool, now: int)
    requires QualifyingEnter(s, key, shiftKey) && now - s.lastEnterTime >= DoubleEnterWindow
    ensures KeyDownStep(s, key, shiftKey, now) == s.(lastEnterTime := now)
  {
  }

  /** Whenever a key press has any effect, the keyboard hint was on screen. */
  lemma KeyDownActsOnlyWithHint(s: AppState, key: string, shiftKey: bool, now: int)
    requires KeyDownStep(s, key, shiftKey, now) != s
    ensures ShowsKeyboardHint(s)
  {
  }

  /** Two Enter presses on a non-blank note, the first more than the window
      after the stored time stamp and the second within the window of the
      first, release the note. */
  lemma DoubleEnterReleases(s: AppState, t1: int, t2: int)
    requires s.phase == Writing && !IsBlank(s.text)
    requires t1 - s.lastEnterTime >= DoubleEnterWindow && t2 - t1 < DoubleEnterWindow
    ensures var r := KeyDownStep(KeyDownStep(s, "Enter", false, t1), "Enter", false, t2);
            r.phase == Burning && r.releaseCount == s.releaseCount + 1 && r.lastEnterTime == t1
  {
  }

  /** Enter presses at `times`, in order. */
  function PressEnter(s: AppState, times: seq<int>): AppState
    decreases |times|
  {
    if times == [] then s else PressEnter(KeyDownStep(s, "Enter", false, times[0]), times[1..])
  }

  /** Every press at least the window after the previous one (the first
      after the stored time stamp). */
  predicate SlowPresses(last: int, times: seq<int>)
    decreases |times|
  {
    times == [] || (times[0] - last >= DoubleEnterWindow && SlowPresses(times[0], times[1..]))
  }

  /** Enter presses that are never within 500 ms of each other never
      release: phase, text and count stay as they were. */
  lemma {:induction false} SlowPressesNeverRelease(s: AppState, times: seq<int>)
    requires SlowPresses(s.lastEnterTime, times)
    ensures var r := PressEnter(s, times);
            r.phase == s.phase && r.text == s.text && r.releaseCount == s.releaseCount
    decreases |times|
  {
    if times != [] {
      var s' := KeyDownStep(s, "Enter", false, times[0]);
      SlowPressOnlyStamps(s, times[0]);
      assert SlowPresses(s'.lastEnterTime, times[1..]) by {
        if times[1..] != [] {
          assert times[1..][0] - s'.lastEnterTime >= times[1..][0] - times[0];
        }
      }
      SlowPressesNeverRelease(s', times[1..]);
    }
  }

  /** A press at least the window after the stored time stamp leaves the
      state alone or only stores the new time. */
  lemma SlowPressOnlyStamps(s: AppState, t: int)
    requires t - s.lastEnterTime >= DoubleEnterWindow
    ensures KeyDownStep(s, "Enter", false, t) == s || KeyDownStep(s, "Enter", false, t) == s.(lastEnterTime := t)
  {
  }

  // ---- Runs of events ----

  /** The events the session reacts to, named after the callback that
      delivers them. */
  datatype Event =
    | TextInput(newText: string)                   // textarea onChange = setText
    | DragProximity(isNearFlame: bool)             // PaperCard onDragEnd = handleDragUpdate
    | Drop                                         // PaperCard onBurn = handleBurn
    | BurnFinished                                 // BurnEffect onComplete = handleBurnComplete
    | WriteAgainClicked                            // ReleaseState onWriteAgain = handleWriteAgain
    | SoundToggled                                 // the sound button = toggleSound
    | PromptClicked(prompt: string)                // a prompt chip = handlePromptClick
    | KeyPressed(key: string, shiftKey: bool, now: int)  // the window keydown listener

  /** An event can occur only while the element that delivers it is on
      screen; the sound button and the keydown listener always are. */
  predicate Enabled(s: AppState, e: Event)
  {
    match e
    case TextInput(_) => ShowsPaperCard(s)
    case DragProximity(_) => ShowsPaperCard(s)
    case Drop => ShowsPaperCard(s)
    case BurnFinished => ShowsBurnEffect(s)
    case WriteAgainClicked => ShowsReleaseState(s)
    case SoundToggled => true
    case PromptClicked(p) => ShowsPrompts(s) && p in ShownPrompts
    case KeyPressed(_, _, _) => true
  }

  function Step(s: AppState, e: Event): AppState
  {
    match e
    case TextInput(t) => TextInputStep(s, t)
    case DragProximity(near) => DragUpdateStep(s, near)
    case Drop => BurnStep(s)
    case BurnFinished => BurnCompleteStep(s)
    case WriteAgainClicked => WriteAgainStep(s)
    case SoundToggled => ToggleSoundStep(s)
    case PromptClicked(p) => PromptClickStep(s, p)
    case KeyPressed(k, sh, t) => KeyDownStep(s, k, sh, t)
  }

  function Run(s: AppState, es: seq<Event>): AppState
    decreases |es|
  {
    if es == [] then s else Run(Step(s, es[0]), es[1..])
  }

  /** Every event of the run is enabled in the state it meets. */
  predicate EnabledRun(s: AppState, es: seq<Event>)
    decreases |es|
  {
    es == [] || (Enabled(s, es[0]) && EnabledRun(Step(s, es[0]), es[1..]))
  }

  /** The number of steps of the run that leave writing for burning. */
  function Releases(s: AppState, es: seq<Event>): nat
    decreases |es|
  {
    if es == [] then 0
    else
      var s' := Step(s, es[0]);
      (if s.phase == Writing && s'.phase == Burning then 1 else 0) + Releases(s', es[1..])
  }

  /** The phase moves only around the cycle writing, burning, released,
      writing. */
  predicate PhaseAdvance(a: Phase, b: Phase)
  {
    a == b || (a == Writing && b == Burning) || (a == Burning && b == Released)
    || (a == Released && b == Writing)
  }

  /** Every enabled event keeps the phase on the cycle, and every event of
      any kind keeps the flame and the dimming equal. */
  lemma StepProperties(s: AppState, e: Event)
    ensures FlameMatchesDim(s) ==> FlameMatchesDim(Step(s, e))
    ensures Enabled(s, e) ==> PhaseAdvance(s.phase, Step(s, e).phase)
  {
  }

  /** One event adds at most one to the count; an enabled one adds one
      exactly when it moves from writing to burning. */
  lemma StepCount(s: AppState, e: Event)
    ensures Step(s, e).releaseCount == s.releaseCount || Step(s, e).releaseCount == s.releaseCount + 1
    ensures Enabled(s, e) ==>
              Step(s, e).releaseCount
                == s.releaseCount + (if s.phase == Writing && Step(s, e).phase == Burning then 1 else 0)
  {
  }

  /** The flame and the dimming stay equal along every run. */
  lemma {:induction false} RunKeepsFlameMatchesDim(s: AppState, es: seq<Event>)
    requires FlameMatchesDim(s)
    ensures FlameMatchesDim(Run(s, es))
    decreases |es|
  {
    if es != [] {
      StepProperties(s, es[0]);
      RunKeepsFlameMatchesDim(Step(s, es[0]), es[1..]);
    }
  }

  /** Along a run of enabled events the count grows by exactly one for
      each release, that is, for each move from writing to burning. */
  lemma {:induction false} RunCountsReleases(s: AppState, es: seq<Event>)
    requires EnabledRun(s, es)
    ensures Run(s, es).releaseCount == s.releaseCount + Releases(s, es)
    decreases |es|
  {
    if es != [] {
      StepCount(s, es[0]);
      RunCountsReleases(Step(s, es[0]), es[1..]);
    }
  }

  /** The count never decreases, whatever the events. */
  lemma {:induction false} RunCountNeverDecreases(s: AppState, es: seq<Event>)
    ensures Run(s, es).releaseCount >= s.releaseCount
    decreases |es|
  {
    if es != [] {
      StepCount(s, es[0]);
      RunCountNeverDecreases(Step(s, es[0]), es[1..]);
    }
  }

  /** With a stored count of 3: type "hello", press Enter twice within the
      window, let the burn finish, then write again. */
  lemma EndToEnd(t1: int, t2: int)
    requires t1 >= DoubleEnterWindow && t2 - t1 < DoubleEnterWindow
    ensures var s0 := Start.(releaseCount := 3);
            var s3 := Run(s0, [TextInput("hello"), KeyPressed("Enter", false, t1), KeyPressed("Enter", false, t2)]);
            var s4 := Step(s3, BurnFinished);
            var s5 := Step(s4, WriteAgainClicked);
            && s3.phase == Burning
            && s4.phase == Released && s4.releaseCount == 4 && ShowsHistoryCounter(s4)
            && s5.phase == Writing && s5.text == "" && s5.releaseCount == 4
  {
    assert !IsWhitespace("hello"[0]);
    var s0 := Start.(releaseCount := 3);
    var s1 := Step(s0, TextInput("hello"));
    DoubleEnterReleases(s1, t1, t2);
    var es := [TextInput("hello"), KeyPressed("Enter", false, t1), KeyPressed("Enter", false, t2)];
    assert es[1..][1..][1..] == [];
    assert Run(s0, es) == Run(s1, es[1..]);
    assert Run(s1, es[1..]) == Run(KeyDownStep(s1, "Enter", false, t1), es[1..][1..]);
  }

  // ---- The component ----

  /** What a burn asks of the device: a vibration pattern (empty when the
      device cannot vibrate) and whether the fire sound is played. */
  datatype Feedback = Feedback(vibration: seq<nat>, playsSound: bool)

  const NoFeedback: Feedback := Feedback([], false)

  /** What a burn of state `s` would request. */
  function BurnFeedback(s: AppState, canVibrate: bool): Feedback
  {
    if IsBlank(s.text) then NoFeedback
    else Feedback(if canVibrate then HapticPattern else [], s.soundEnabled)
  }

  class Session {
    var phase: Phase
    var text: string
    var isFlameExcited: bool
    var soundEnabled: bool
    var isDimmed: bool
    var lastEnterTime: int
    /** the history hook */
    const history: RH.History
    /** the page's storage */
    const store: RH.Storage

    function Model(): AppState
      reads this, history
    {
      AppState(phase, text, lastEnterTime, isFlameExcited, isDimmed, soundEnabled, history.count)
    }

    ghost predicate Valid()
      reads this, history
    {
      FlameMatchesDim(Model())
    }

    /** The storage entry `recordRelease` leaves after a burn of the current
        state with the given write outcome. */
    ghost predicate StoredAfterBurn(before: AppState, oldEntries: map<string, RH.StoredValue>,
                                    writeSucceeds: bool, at: string)
      reads this, history, store
    {
      RH.HistoryState(history.count, store.entries)
        == if IsBlank(before.text) then RH.HistoryState(before.releaseCount, oldEntries)
           else RH.RecordStep(RH.HistoryState(before.releaseCount, oldEntries), RH.WriteAttempt(writeSucceeds, at))
    }

    /** Mounting `App` on a page with storage `store`. */
    constructor (store: RH.Storage)
      ensures Valid() && Model() == Start
      ensures this.store == store && fresh(history)
    {
      phase := Writing;
      text := "";
      isFlameExcited := false;
      soundEnabled := false;
      isDimmed := false;
      lastEnterTime := 0;
      history := new RH.History();
      this.store := store;
    }

    /** The history hook's mount effect. */
    method LoadHistory(readSucceeds: bool)
      requires Valid()
      modifies history
      ensures Valid()
      ensures Model() == old(Model()).(releaseCount :=
                RH.AfterLoad(old(history.count), readSucceeds, RH.Lookup(store.entries, RH.StorageKey)))
    {
      history.Load(store, readSucceeds);
    }

    method SetText(newText: string)
      requires Valid() && ShowsPaperCard(Model())
      modifies this
      ensures Valid() && Model() == TextInputStep(old(Model()), newText)
    {
      text := newText;
    }

    method HandleDragUpdate(isNearFlame: bool)
      requires Valid()
      modifies this
      ensures Valid() && Model() == DragUpdateStep(old(Model()), isNearFlame)
    {
      isFlameExcited := isNearFlame;
      isDimmed := isNearFlame;
    }

    /** `handleBurn`; the write outcome and the time stamp are what storage
        and the clock give, `canVibrate` whether the device has vibration. */
    method HandleBurn(writeSucceeds: bool, at: string, canVibrate: bool) returns (fx: Feedback)
      requires Valid()
      modifies this, history, store
      ensures Valid() && Model() == BurnStep(old(Model()))
      ensures StoredAfterBurn(old(Model()), old(store.entries), writeSucceeds, at)
      ensures fx == BurnFeedback(old(Model()), canVibrate)
    {
      ghost var before := Model();
      if IsBlank(text) {
        return NoFeedback;
      }
      ghost var after := BurnStep(before);
      assert after == before.(phase := Burning, isFlameExcited := false, isDimmed := false,
                              releaseCount := before.releaseCount + 1);
      phase := Burning;
      isFlameExcited := false;
      isDimmed := false;
      fx := Feedback(if canVibrate then HapticPattern else [], soundEnabled);
      history.RecordRelease(store, writeSucceeds, at);
    }

    method HandleBurnComplete()
      requires Valid()
      modifies this
      ensures Valid() && Model() == BurnCompleteStep(old(Model()))
    {
      phase := Released;
    }

    method HandleWriteAgain()
      requires Valid()
      modifies this
      ensures Valid() && Model() == WriteAgainStep(old(Model()))
    {
      text := "";
      phase := Writing;
    }

    method ToggleSound()
      requires Valid()
      modifies this
      ensures Valid() && Model() == ToggleSoundStep(old(Model()))
    {
      soundEnabled := !soundEnabled;
    }

    /** A click on one of the prompt chips, which are shown only while the
        note is empty. */
    method HandlePromptClick(prompt: string)
      requires Valid() && ShowsPrompts(Model()) && prompt in ShownPrompts
      modifies this
      ensures Valid() && Model() == PromptClickStep(old(Model()), prompt)
    {
      text := prompt + " ";
    }

    /** The window `keydown` listener, `now` being `Date.now()`. It prevents
        the default and calls `handleBurn` on a second Enter in time. */
    method HandleKeyDown(key: string, shiftKey: bool, now: int, writeSucceeds: bool, at: string, canVibrate: bool)
      returns (prevented: bool, fx: Feedback)
      requires Valid()
      modifies this, history, store
      ensures Valid() && Model() == KeyDownStep(old(Model()), key, shiftKey, now)
      ensures prevented == SecondEnter(old(Model()), key, shiftKey, now)
      ensures prevented ==> StoredAfterBurn(old(Model()), old(store.entries), writeSucceeds, at)
      ensures !prevented ==> store.entries == old(store.entries) && fx == NoFeedback
      ensures prevented ==> fx == BurnFeedback(old(Model()), canVibrate)
    {
      ghost var before := Model();
      prevented, fx := false, NoFeedback;
      if phase != Writing {
        return;
      }
      if key == "Enter" && !shiftKey && !IsBlank(text) {
        if now - lastEnterTime < DoubleEnterWindow {
          assert KeyDownStep(before, key, shiftKey, now) == BurnStep(before);
          prevented := true;
          fx := HandleBurn(writeSucceeds, at, canVibrate);
        } else {
          assert KeyDownStep(before, key, shiftKey, now) == before.(lastEnterTime := now);
          lastEnterTime := now;
        }
      }
    }

    /** One gesture event on the note, which is on screen only while
        writing and which `App` never disables: the card's handler runs on
        the current text and its callbacks go to `handleDragUpdate` and
        `handleBurn` (`App` passes no `onDragStart`). */
    method HandleCardDrag(card: PC.Card, active: bool, mx: real, my: real,
                          flameRect: Option<PC.Rect>, cardRect: Option<PC.Rect>,
                          writeSucceeds: bool, at: string, canVibrate: bool)
      returns (fired: PC.Fired, fx: Feedback)
      requires Valid() && ShowsPaperCard(Model()) && !card.disabled
      modifies this, history, store, card
      ensures Valid()
      ensures card.isDragging == active
      ensures fired.burn ==> Model() == BurnStep(old(Model()))
                             && StoredAfterBurn(old(Model()), old(store.entries), writeSucceeds, at)
                             && fx == BurnFeedback(old(Model()), canVibrate)
      ensures !fired.burn ==> store.entries == old(store.entries) && fx == NoFeedback
      ensures !fired.burn && fired.dragEnd.Some? ==> Model() == DragUpdateStep(old(Model()), fired.dragEnd.value)
      ensures fired.burn <==> !active && PC.CheckFlameCollision(flameRect, cardRect, my) && !IsBlank(old(text))
      ensures active ==> fired.dragEnd == Some(PC.CheckFlameCollision(flameRect, cardRect, my))
                         && card.x == mx && card.y == my
      ensures !active && !fired.burn ==> fired.dragEnd == Some(false) && card.x == 0.0 && card.y == 0.0
      ensures fired.burn ==> card.x == old(card.x) && card.y == old(card.y)
    {
      fired := card.OnDrag(active, mx, my, flameRect, cardRect, text);
      fx := NoFeedback;
      if fired.dragEnd.Some? {
        HandleDragUpdate(fired.dragEnd.value);
      }
      if fired.burn {
        fx := HandleBurn(writeSucceeds, at, canVibrate);
      }
    }
  }

  /** With a count of 3 in storage: load, type, press Enter twice, finish
      the burn and write again; storage then holds a count of 4. */
  method EndToEndSession(at: string)
  {
    var store := new RH.Storage(map[RH.StorageKey := RH.Written(3, "earlier")]);
    var app := new Session(store);
    app.LoadHistory(true);
    assert app.Model().releaseCount == 3;
    app.SetText("hello");
    assert !IsWhitespace("hello"[0]);
    var prevented, fx := app.HandleKeyDown("Enter", false, 10000, true, at, false);
    assert !prevented && app.phase == Writing;
    prevented, fx := app.HandleKeyDown("Enter", false, 10300, true, at, false);
    assert prevented && app.phase == Burning;
    app.HandleBurnComplete();
    assert app.phase == Released && app.history.count == 4;
    assert RH.Lookup(store.entries, RH.StorageKey) == Some(RH.Written(4, at));
    app.HandleWriteAgain();
    assert app.phase == Writing && app.text == "";
  }

  /** On fresh storage the count loads as 0 and one release persists a
      count of 1 with its time stamp. */
  method FreshStorageSession(at: string)
  {
    var store := new RH.Storage(map[]);
    var history := new RH.History();
    history.Load(store, true);
    assert history.count == 0;
    history.RecordRelease(store, true, at);
    var stored := RH.Lookup(store.entries, RH.StorageKey);
    assert stored == Some(RH.Record(RH.Number(1), Some(at)));
  }
}
