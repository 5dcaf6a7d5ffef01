# Raffle screen: roll lifecycle and settings validation in Dafny

This is a verified model of the two pieces of logic in a one-screen raffle number display.

**The roll lifecycle of the page component (`Home`, app/page.tsx).** Pressing the button (`generateNumber`) does three things:
- It fixes the final number at the press.
- It starts a 50 ms interval that keeps showing throw-away numbers from the same range.
- It starts a 3000 ms timeout. When that fires, the page reveals the fixed number, appends it to the history, writes the history to browser storage and, if enabled, raises the confetti flag.

The page also has a sound toggle, `saveConfig`, `resetNumbers`, the load-on-mount effect and the "Anteriores" strip of the last five numbers.

**The settings dialog (components/config-modal.tsx).** It keeps its own form state, which is reset from the page's values whenever the dialog opens. Its number inputs store `Number.parseInt(text) || 1`. Its save handler applies three ordered checks. If one fails, it shows that check's message. If all pass, it hands the exact triple to the page and closes.

Modules:
- `RaffleState` (raffle_state.dfy) is the page as a state machine on values. `Load`, `GenerateNumber`, `IntervalTick`, `RollComplete`, `ToggleSound`, `SaveConfig` and `ResetNumbers` are the page's handlers and timer callbacks. `Run` replays any sequence of such events.
- `RafflePage` (raffle_page.dfy) is the same component as a class with the page's state fields. Its methods update those fields in place and are each proved to make exactly the `RaffleState` transition.
- `ConfigModal` (config_modal.dfy) holds the validator, the input fallback and the form as a class.
- `JsParseInt` (js_parse_int.dfy) models ECMAScript's `parseInt` without a radix (section 19.2.5 of ECMA-262), on integers.
- `Optional` (optional.dfy) is the Option type.

Timers become explicit events. A press carries `k`, the offset of the committed number from `minNumber`. Each tick carries its own offset and the outcome of `audio.play()`. The timer callbacks work on what the press captured: the range, the history, the confetti setting and whether sound is attempted. That capture is the `Roll` value in `pending`. As in the source:
- A reset during a roll is overwritten by that roll's completion.
- A saved configuration does not affect the roll already running.
- Toggling sound mid-roll does not change whether that roll's ticks try to play.
- On the very first roll with sound on, the callbacks hold the `audio` value from before it was loaded, so no tick sound is attempted.

The range read from storage is not validated by the page, and `saveConfig` does not validate either; only the dialog checks the range. Because the page's only caller of `saveConfig` is the dialog (app/page.tsx:195), the range stays proper on a page that starts from the defaults. Three more facts about the code shape the model:
- The page has no way to cancel a running roll.
- Stored text that is not valid JSON makes the mount effect throw; it is not treated as absent.
- A press with `minNumber >= maxNumber` is not refused. The model excludes it by a precondition instead.

## Model

| member | source | states |
|---|---|---|
| `RaffleState.Draw` | app/page.tsx:74 | every drawn number, committed or shown by a tick, is `min + k` with `k <= max - min`, so it lies in `[min, max]` |
| `RaffleState.Load` | app/page.tsx:23-38 | the mounted page holds the stored history (empty if the key is absent) and the stored range. A stored config without `confetti` gives confetti on. The page is idle with no number shown, sound is on, and the invariant holds |
| `RaffleState.GenerateNumber` | app/page.tsx:53-74 | a press during a roll leaves the page exactly as it was. Otherwise the page is rolling with confetti lowered. It commits `minNumber + k` in `[minNumber, maxNumber]` and captures that range, the current history and confetti setting, and whether sound is on with the audio already loaded. The audio counts as loaded afterwards when sound was on. Every other field is untouched, and the invariant is kept |
| `RaffleState.IntervalTick` | app/page.tsx:77-96 | a tick shows its own draw `min + k` from the captured range, never the committed number unless it draws the same offset. It turns sound off exactly when sound is attempted and `play()` fails with `NotAllowedError`. Nothing else changes: not the history, not storage, not the pending roll and its committed number |
| `RaffleState.RollComplete` | app/page.tsx:99-115 | completion shows the committed number and ends the roll. The history becomes the captured history plus that one number, and storage holds the same list. Confetti is up exactly when it was enabled at the press. Range, settings, sound and the loaded audio are unchanged |
| `RaffleState.ToggleSound` | app/page.tsx:118-120 | flips `soundEnabled` and nothing else |
| `RaffleState.SaveConfig` | app/page.tsx:122-129 | `minNumber`, `maxNumber` and `confettiEnabled` become exactly the arguments, and storage holds the same triple. Nothing else changes, including a running roll |
| `RaffleState.ResetNumbers` | app/page.tsx:131-134 | the history is empty and its storage key removed. Nothing else changes, including a running roll's captured history |
| `RaffleState.ReloadRestores` | app/page.tsx:25-37 | from any state that keeps the invariant, loading what was stored gives back the same history, range and confetti setting |
| `RaffleState.Last` | app/page.tsx:184 | `slice(-n)` for `n >= 1`: the last `n` entries, or all of them when there are fewer, in insertion order |
| `RaffleState.PreviousStrip` | app/page.tsx:182-184 | the strip is shown exactly when the history is non-empty. It holds 1 to 5 entries, the last ones of the history, oldest first |
| `RaffleState.StripAfterRoll` | app/page.tsx:182-184 | after a roll completes, the strip is the last four captured entries followed by the revealed number |
| `RaffleState.RunPreservesInv` | app/page.tsx:53-134 | every sequence of events keeps the invariant. Rolling holds exactly while timers are pending, and the committed number lies in the range. Stored history and config equal the in-memory ones |
| `RaffleState.DuringRoll` | app/page.tsx:92-96 | until the timeout fires, no event (tick, press, toggle, save, reset) changes the pending roll or raises confetti |
| `RaffleState.TickInPressRange` | app/page.tsx:73-96 | after a press, whatever events come before the timeout, every tick shows a number in the range in force at the press, and whether it tries to play was fixed at the press |
| `RaffleState.FirstRollSilent` | app/page.tsx:56-78 | whatever happens after mounting before the first press (sound toggles, saves, resets), the first roll never tries to play the tick sound. Its press loads the audio exactly when sound is on at that moment |
| `RaffleState.RangeStaysProper` | app/page.tsx:122-129 | when every saved configuration is one the dialog accepts, a page that starts with `minNumber < maxNumber` keeps it through any sequence of events |
| `RaffleState.FreshPageRollable` | app/page.tsx:18-19 | a page mounted with nothing stored, whose configuration changes only through the dialog, always has a proper range, so an idle press always meets the model's precondition |
| `RaffleState.CommittedNumberRevealed` | app/page.tsx:73-115 | press with offset `k`, then any events but the timeout, then the timeout. The page shows `minNumber + k`, the number fixed before the first tick, and the history is the press-time history plus exactly that number, also in storage. The roll has ended, and confetti is up exactly when it was enabled at the press |
| `RafflePage.Home.constructor` | app/page.tsx:12-38 | the fields after the first render and the mount effect are `Load` of the stored entries |
| `RafflePage.Home.GenerateNumber` | app/page.tsx:53-74 | makes the `GenerateNumber` transition in place, and changes no field while a roll runs |
| `RafflePage.Home.IntervalTick` | app/page.tsx:92-96 | makes the `IntervalTick` transition in place |
| `RafflePage.Home.RollComplete` | app/page.tsx:99-115 | makes the `RollComplete` transition in place. It shows the committed number and stores the captured history plus it |
| `RafflePage.Home.ToggleSound` | app/page.tsx:118-120 | makes the `ToggleSound` transition in place |
| `RafflePage.Home.SaveConfig` | app/page.tsx:122-129 | makes the `SaveConfig` transition in place |
| `RafflePage.Home.ResetNumbers` | app/page.tsx:131-134 | makes the `ResetNumbers` transition in place |
| `ConfigModal.Validate` | components/config-modal.tsx:47-61 | accepts exactly when `1 <= min < max <= 9999`, and then returns the exact triple. `min >= max` gives the ordering error. `min < 1` gives its error only when `min < max`. `max > 9999` gives its error only when both earlier checks pass |
| `ConfigModal.Message` | components/config-modal.tsx:48-61 | each refusal has a non-empty message, so the error line is shown |
| `ConfigModal.MessagesDistinct` | components/config-modal.tsx:48-61 | the three refusals carry three different messages, so the text shown names the first check that failed |
| `ConfigModal.FieldValue` | components/config-modal.tsx:105 | an input never stores 0. A non-zero parsed number is stored as it is, and NaN or 0 stores 1 |
| `ConfigModal.FieldValueOfNumeral` | components/config-modal.tsx:105 | typing the numeral of a non-zero integer stores it; typing `0` stores 1 |
| `ConfigModal.ConfigForm.constructor` | components/config-modal.tsx:30-33 | the form starts with the props' values and no error |
| `ConfigModal.ConfigForm.SyncWithProps` | components/config-modal.tsx:35-43 | when open, the form takes the props' values and the error is cleared. When closed, nothing changes |
| `ConfigModal.ConfigForm.ChangeMin` | components/config-modal.tsx:105 | `min` becomes `FieldValue(text)` |
| `ConfigModal.ConfigForm.ChangeMax` | components/config-modal.tsx:115 | `max` becomes `FieldValue(text)` |
| `ConfigModal.ConfigForm.ChangeConfetti` | components/config-modal.tsx:127 | `confetti` becomes the checkbox state |
| `ConfigModal.ConfigForm.HandleSave` | components/config-modal.tsx:46-66 | a refusal sets the first failing check's message and calls nothing. An acceptance calls `onSave(min, max, confetti)` and then `onClose`, and leaves any earlier error text. The form values are never changed |
| `JsParseInt.ParseInt` | components/config-modal.tsx:105 | `Number.parseInt` without a radix. A cleared input (empty text) gives NaN. Its round trip and white-space properties are `ParseIntNumeral` and `ParseIntSkipsWhiteSpace` |
| `JsParseInt.ParseIntNumeral` | components/config-modal.tsx:105 | `parseInt` of an integer's numeral, followed by anything that does not continue the number, gives that integer back |
| `JsParseInt.ParseIntSkipsWhiteSpace` | components/config-modal.tsx:105 | leading white space never changes what `parseInt` reads. This is a fact about `parseInt`; a number input's value never starts with white space |

## Left out

- Rendering: all JSX, the number display, the animated transition, the button, the logos and the dialog's markup. They are presentation only.
- The confetti particle schedule (components/confetti-effect.tsx). It drives an animation library from timers; the model keeps only the `showConfetti` flag it is triggered by.
- Real time: the 50 ms cadence and the 3000 ms duration are not counted. Ticks are events that may happen any number of times, only while their roll is pending, and always before its timeout.
- The gap at `await tickSound.load()` before `isRolling` is set (app/page.tsx:61-71). A press is one atomic step, so two presses racing through that gap are not modelled.
- `Math.random` and the floating-point `floor` formula. The caller supplies the integer offset `k`, within `[0, max - min]`.
- Audio itself: creating, loading, rewinding and playing the sound. Only whether a tick attempts to play, and the error name a failed `play()` reports, are modelled.
- The fullscreen key handler (app/page.tsx:41-50).
- The dialog's visibility (`isConfigOpen`, the close button, the backdrop click). The dialog's reset button calls the page's `resetNumbers`, which is modelled.
- Browser storage and JSON. Each key is an optional slot holding the value the page writes. Stored text that does not parse makes the source throw; the model has no such input.
- `RaffleState.GenerateNumber`: requires `minNumber < maxNumber` for a press when idle. The source draws without checking, and the value drawn from an inverted range is not modelled.
- `RafflePage.Home.GenerateNumber`: the same precondition as `RaffleState.GenerateNumber`.
- What a `type="number"` input's value can be (components/config-modal.tsx:103, 113). A browser reduces it to `""` or a valid floating-point numeral, so white space and `0x` never reach `parseInt` there; the model accepts any text.
- `JsParseInt.ParseIntNumeral`: exact integers. A JavaScript number loses precision beyond 2^53, and `-0` is folded into 0, which the `|| 1` fallback treats the same way.
