# letgo: the release ritual, modelled in Dafny

letgo is a small web page: the user writes a thought on a paper note, drags
it into a campfire (or presses Enter twice) and watches it burn; a counter in
browser storage remembers how many thoughts were released. Everything except
a short piece of state logic is rendering. This project models that logic:

- `Text` (text.dfy): JavaScript's `String.prototype.trim` and the blank test
  `s.trim().length === 0` that guards every release.
- `ReleaseHistory` (release_history.dfy): the `useReleaseHistory` hook. The
  in-memory count, the load effect, `recordRelease`, and storage under the
  key `letgo_release_history`. What `JSON.parse` makes of the stored text is
  a datatype (`StoredValue`). Whether `getItem`/`setItem` throw is a boolean
  input.
- `PaperCard` (paper_card.dfy): the drop-zone test `checkFlameCollision` and
  the `useDrag` callback. The callback moves the card, reports proximity,
  asks for a burn or snaps the card back. Rectangles and movements are
  `real` inputs; a missing element reference is `None`.
- `Flame` (flame.dfy): the spark buffer. Appending keeps the last 15 sparks
  and adds the new one. A cleanup timeout drops the oldest spark. The
  interval and the timeout are events, and which timers are set is state.
- `App` (app.dfy): the session state machine. `AppState` and one step
  function per handler form the abstract model. `Event`, `Enabled`, `Step`
  and `Run` describe runs of user and timer events. The class `Session`
  holds the same state cells as fields, and each handler is proved to take
  its step. Burns go through the history object and storage.

Time (`Date.now()`) is an integer input. The ISO time stamp written with the
count is an opaque string input. Vibration and sound are returned as a
`Feedback` request (the pattern, and whether the clip is played), not
performed.

Points where the code behaves in a way a reader might not expect, which
the model keeps:
- `handleBurn`, `handleBurnComplete` and `handleWriteAgain` have no phase
  guards (src/App.jsx:75-100); the keydown handler checks the phase itself
  (src/App.jsx:115). `handleBurn` checks only for a blank note,
  `handleBurnComplete` sets "released" unconditionally and
  `handleWriteAgain` resets from any phase. The phase discipline comes from
  which element is on screen to deliver the event (`App.Enabled`). Under
  that discipline the phase only moves around the cycle writing → burning →
  released → writing (`App.StepProperties`).
- A malformed or `null` stored entry leaves the count as it was
  (src/hooks/useReleaseHistory.js:14-21), so it is 0 only because loading
  runs on mount (`ReleaseHistory.AfterLoad`).
- A burn keeps `lastEnterTime` (src/App.jsx:118-120): the first press's
  time stamp stays stored after the release (`App.KeyDownQuick`).

## Model

| member | source | states |
|---|---|---|
| `Text.Trim` | src/App.jsx:76 | the trimmed text neither starts nor ends with whitespace and is no longer than the note |
| `Text.TrimIsSlice` | src/App.jsx:76 | the trimmed text is a contiguous slice of the note with only whitespace before and after it |
| `Text.TrimEmptyIffBlank` | src/App.jsx:116 | `text.trim().length === 0` holds exactly when every character of the note is whitespace |
| `Text.AppendWhitespaceKeepsBlankness` | src/App.jsx:108-110 | appending whitespace (the prompt's trailing space) never changes whether a note is blank |
| `ReleaseHistory.CountOrZero` | src/hooks/useReleaseHistory.js:17 | `data.count` or 0 is 0 exactly for a falsy or zero count, otherwise the stored integer |
| `ReleaseHistory.Restore` | src/hooks/useReleaseHistory.js:13-21 | the count is set only for an entry that parses to a non-null value, and then to `data.count` or 0; missing, empty, malformed or `null` entries set nothing |
| `ReleaseHistory.AfterLoad` | src/hooks/useReleaseHistory.js:12-22 | a failed read or an unusable entry leaves the count unchanged; a usable one replaces it |
| `ReleaseHistory.History.constructor` | src/hooks/useReleaseHistory.js:9 | the count is 0 before loading |
| `ReleaseHistory.History.Load` | src/hooks/useReleaseHistory.js:12-22 | the new count is `AfterLoad` of the entry under the fixed key; storage is not written |
| `ReleaseHistory.RecordStep` | src/hooks/useReleaseHistory.js:26-36 | the count advances by exactly 1; a successful write replaces only the entry under `letgo_release_history` with `{count, lastRelease}`; a failed write changes no storage |
| `ReleaseHistory.History.RecordRelease` | src/hooks/useReleaseHistory.js:25-38 | the new count and storage are those of `RecordStep`, whether or not the write throws |
| `ReleaseHistory.RecordThenLoad` | src/hooks/useReleaseHistory.js:29-32 | round trip: loading the entry a successful write left gives back the in-memory count, zero and negative counts included |
| `ReleaseHistory.LastSuccess` | src/hooks/useReleaseHistory.js:33-35 | the index of the last write that did not throw; every later write threw |
| `ReleaseHistory.RecordAllEffect` | src/hooks/useReleaseHistory.js:25-38 | N calls give initial + N; no other key changes; the entry is the one the last successful write left, or the old one when every write failed |
| `ReleaseHistory.PersistedMatchesMemory` | src/hooks/useReleaseHistory.js:29-36 | after a run whose last write succeeded, reloading storage gives exactly the in-memory count |
| `PaperCard.CheckFlameCollision` | src/components/PaperCard.jsx:36-46 | a hit needs both elements mounted and a drag of more than 80; given both, it is a hit exactly when card bottom + 30 > flame top |
| `PaperCard.ThresholdIsStrict` | src/components/PaperCard.jsx:45 | a vertical drag of 80 or less never collides, whatever the rectangles |
| `PaperCard.CollisionMonotone` | src/components/PaperCard.jsx:42-45 | a lower card edge or a longer drag keeps a hit a hit |
| `PaperCard.Card.constructor` | src/components/PaperCard.jsx:17-21 | a new card is not dragging and sits at (0,0) |
| `PaperCard.Card.OnDrag` | src/components/PaperCard.jsx:49-74 | disabled: nothing changes and no callback fires; otherwise `isDragging` follows `active`; an active event moves to the movement and reports the collision; a release over the flame with non-blank text asks for a burn and keeps the position; any other release snaps to (0,0) and reports "not near" |
| `Flame.JsSlice` | src/components/Flame.jsx:18 | `slice(start)` with a negative start keeps the last `-start` elements, with a non-negative one drops the first `start`, clamped to the array |
| `Flame.Appended` | src/components/Flame.jsx:18 | appending gives length min(n, 15) + 1 ≤ 16, the new spark last, and the last min(n, 15) old sparks before it in their order |
| `Flame.Dropped` | src/components/Flame.jsx:28 | cleanup removes exactly the oldest spark and keeps the rest in order |
| `Flame.AppendedIsLast` | src/components/Flame.jsx:18 | one append leaves exactly the 16 most recent sparks |
| `Flame.AppendAllIsWindow` | src/components/Flame.jsx:12-19 | after any non-empty run of interval ticks the buffer is exactly the 16 most recent sparks, in the order added |
| `Flame.SparkBuffer.constructor` | src/components/Flame.jsx:6-10 | a mounted flame has no sparks and no cleanup timer; its interval is set exactly when mounted excited |
| `Flame.SparkBuffer.SetExcited` | src/components/Flame.jsx:9-22 | the interval is set exactly while excited; changing the prop leaves the sparks and the cleanup timer alone |
| `Flame.SparkBuffer.SparksChanged` | src/components/Flame.jsx:25-31 | the cleanup effect keeps "a timeout is pending exactly when there are sparks" |
| `Flame.SparkBuffer.IntervalTick` | src/components/Flame.jsx:12-19 | a tick happens only while excited (so the drop hint is hidden) and the sparks become `Appended` of the old ones, at most 16 |
| `Flame.SparkBuffer.CleanupTimeout` | src/components/Flame.jsx:25-31 | the timeout is only pending with sparks present, and it removes the oldest one |
| `App.ScreensAreExclusive` | src/App.jsx:214-282 | exactly one of note, burn animation and released screen is shown; prompt chips and keyboard hint never appear together; the hint appears only with the note and the flame |
| `App.BurnBlankIsNoop` | src/App.jsx:76 | burning a blank note changes nothing: phase, count and flags all stay |
| `App.BurnNonBlank` | src/App.jsx:75-82 | burning a non-blank note moves to burning, clears excited and dimmed, adds exactly 1 to the count, and keeps text, sound and time stamp |
| `App.BurnCompleteKeepsText` | src/App.jsx:92-94 | burn-complete moves to released from any phase and keeps the text (shown at line 254) and the count |
| `App.WriteAgainResets` | src/App.jsx:97-100 | write-again gives an empty note in writing, so the prompt chips show and the hint does not |
| `App.ToggleSoundTwice` | src/App.jsx:103-105 | toggling flips the sound switch; toggling twice restores it |
| `App.PromptClickMakesNonBlank` | src/App.jsx:108-110 | a prompt click sets the text to the prompt plus one space, which is non-blank |
| `App.KeyDownIgnored` | src/App.jsx:115-116 | outside writing, for keys other than Enter, with Shift held, or on a blank note, a key press changes nothing |
| `App.KeyDownQuick` | src/App.jsx:117-120 | a qualifying Enter less than 500 ms after the stored time burns and keeps the stored time |
| `App.KeyDownSlow` | src/App.jsx:117-123 | a qualifying Enter 500 ms or more after the stored time only stores the new time |
| `App.KeyDownActsOnlyWithHint` | src/App.jsx:113-129 | a key press that changes anything happens only while the "press Enter twice" hint is shown |
| `App.DoubleEnterReleases` | src/App.jsx:113-125 | two Enters on a non-blank note, the second within 500 ms of the first, release the note and add one to the count |
| `App.SlowPressOnlyStamps` | src/App.jsx:118-123 | an Enter at least 500 ms after the stored time either changes nothing or only stores the new time |
| `App.SlowPressesNeverRelease` | src/App.jsx:117-123 | Enter presses always 500 ms or more apart never release: phase, text and count stay |
| `App.StepProperties` | src/App.jsx:69-100 | every handler keeps the flame excited exactly when the screen is dimmed; every event that can occur keeps the phase on the cycle writing → burning → released → writing |
| `App.StepCount` | src/App.jsx:75-82 | one event adds 0 or 1 to the count, and an event that can occur adds 1 exactly when it moves from writing to burning |
| `App.RunKeepsFlameMatchesDim` | src/App.jsx:29-31 | flame excitement and dimming stay equal along every run of events |
| `App.RunCountsReleases` | src/App.jsx:75-82 | along a run of events that can occur, the count grows by exactly the number of releases |
| `App.RunCountNeverDecreases` | src/App.jsx:82 | the count never decreases, whatever the events |
| `App.EndToEnd` | src/App.jsx:92-129 | from a count of 3: typing "hello" and two quick Enters burn, completion shows released with count 4, write-again gives writing with an empty note |
| `App.Session.constructor` | src/App.jsx:27-38 | on mount the session is in writing with an empty note, no flags, sound off, time stamp 0 and a fresh history at 0 |
| `App.Session.LoadHistory` | src/App.jsx:38 | the history's mount effect changes only the count, to `AfterLoad` of what is stored |
| `App.Session.SetText` | src/App.jsx:239-241 | the textarea, shown only while writing, replaces the text and nothing else |
| `App.Session.HandleDragUpdate` | src/App.jsx:69-72 | flame excitement and dimming are both set to the proximity |
| `App.Session.HandleBurn` | src/App.jsx:75-89 | the new state is `BurnStep` of the old; storage changes only as `recordRelease` writes it, and only for a non-blank note; vibration and sound are requested exactly on a burn, sound only when enabled |
| `App.Session.HandleBurnComplete` | src/App.jsx:92-94 | the new state is `BurnCompleteStep` of the old |
| `App.Session.HandleWriteAgain` | src/App.jsx:97-100 | the new state is `WriteAgainStep` of the old |
| `App.Session.ToggleSound` | src/App.jsx:103-105 | the new state is `ToggleSoundStep` of the old |
| `App.Session.HandlePromptClick` | src/App.jsx:108-110 | a prompt chip, shown only for an empty note while writing, sets the text to the prompt and a space |
| `App.Session.HandleKeyDown` | src/App.jsx:113-129 | the new state is `KeyDownStep` of the old; the default is prevented and a burn recorded exactly on a second Enter in time; otherwise storage is untouched |
| `App.Session.HandleCardDrag` | src/App.jsx:239-246 | a gesture event on the note drives `handleDragUpdate` with the reported proximity, or `handleBurn` exactly when released over the flame with non-blank text |

## Left out

- Rendering: JSX, CSS classes, framer-motion variants, the spring, tilt and
  scale values of the card (src/components/PaperCard.jsx:24-33), and the
  drag hint text. These are cosmetic.
- Random presentation values: fireflies and ambient particles
  (src/App.jsx:41-59), and each spark's id, offset and delay
  (src/components/Flame.jsx:13-17). Sparks are opaque values.
- src/components/BurnEffect.jsx is not part of this model. Its 2.5 s
  completion timer is the `BurnFinished` event, enabled while burning.
- src/components/ReleaseState.jsx is not part of this model. Its quote, its
  breathing cycle and the 5 s delay before the "write again" button are not
  modelled. `WriteAgainClicked` is enabled whenever the released screen is
  shown.
- `navigator.vibrate` and `audio.play` are not performed. A burn returns
  what it asks of them (`Feedback`). Whether the device can vibrate is an
  input. The audio element is always rendered, so the clip is requested
  exactly when sound is on. Playback errors cannot affect the state.
- `localStorage`, `JSON.parse` and `JSON.stringify` are abstracted.
  `StoredValue` says what a parse yields; whether `getItem` or `setItem`
  throws is a boolean input; the ISO time stamp is an opaque string input.
- `ReleaseHistory.CountOrZero`: a truthy `count` that is not an integer (a
  string, a fraction, an object) is not modelled. JavaScript would then
  concatenate or use floating point on the next `prev + 1`.
- JavaScript numbers are modelled as unbounded integers (counts, time
  stamps) and reals (coordinates). Double-precision rounding is not
  modelled.
- React scheduling: each state update takes effect before the next event.
  Render batching, closure staleness between renders, and re-running
  updaters twice in development mode are not modelled.
- `@use-gesture/react`: the movement `(mx, my)` of an event is an input.
  `from`, `filterTaps` and `rubberband` are library behaviour and are not
  modelled, and neither is the card's bounding rectangle while it is
  animating.
- The textarea's `disabled` while dragging (src/components/PaperCard.jsx:126)
  is not modelled. `Session.SetText` is allowed whenever the note is shown.
- Flame timers: only whether the 80 ms interval and the 900 ms timeout are
  set is modelled, not their timing. Mounting and unmounting the flame with
  the phase (src/App.jsx:270) is not tied to `Session`. A remount is a new
  `SparkBuffer`, and its `isExcited` prop is the session's `isFlameExcited`.
- The onboarding flag `letgo-drag-hint-seen` lives outside these files and is
  not modelled.
