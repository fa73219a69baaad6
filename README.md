# counter-app: a verified model of the bounded counter

`counter-app` is a Lit web component. It shows a number and two buttons,
"ini+" and "ini-". Its only logic is a bounded counter with three reactive
properties, `counter` (starting at 0), `min` (1) and `max` (9):

- `increase` adds one only when the result stays at or below `max`;
- `decrease` subtracts one only when the result stays at or above `min`;
- the post-update hook `updated` calls `makeItRain` (a confetti effect) when
  `counter` is among the changed properties and now equals 7.

The model has two modules.

- `CounterSpec` (counter_spec.dfy) gives the value-level meaning: `Increased`
  and `Decreased` for one handler, the celebration condition `Celebrates`, and
  `Run` / `CelebrationsIn` for a sequence of button presses. The lemmas about
  these state range preservation, the ±1 step, the no-ops at the bounds, the
  pinned range `min == max`, and the closed form of `n` presses from the
  constructor's state.
- `CounterElement` (counter_app.dfy) is the element as a class. `counter`,
  `min` and `max` are fields. `celebrations` counts the calls of `makeItRain`.
  `Increase`, `Decrease` and `Updated` mutate the fields as the source does,
  and their `ensures` tie the new state to the `CounterSpec` functions.
  `PressPlus` / `PressMinus` are a click followed by the update it causes.
  `SetCounter`, `SetMin` and `SetMax` are writes of the public properties
  from outside. A few scenario methods drive a fresh element and state the
  outcome.

Facts about the code that shape the contracts:

- The constructor sets the counter to 0, below `min` = 1, and nothing clamps
  it. So range preservation is stated as "inside before implies inside after".
  The model also proves the unconditional bound
  `Min(start, min) <= counter <= Max(start, max)`. From the constructor's
  state the counter stays in 0..9. It stays on 0 exactly when every press was
  "ini-", and after any "ini+" it lies in 1..9.
- Writing `min` or `max` does not re-clamp the counter
  (`LoweredMaxIsNotReclamped`).
- With `min == max`, the counter is frozen, with both presses doing nothing,
  exactly when it is on the pinned value (`PinnedFrozenIff`,
  `PinnedCounterNeverMoves`). A counter below the pinned value still rises
  under "ini+", and one above it still falls under "ini-"
  (`PinnedRangeDoesNotFreezeOutsideCounter`).
- No code checks `min <= max`, and the model does not require it.

## Model

| member | source | states |
|---|---|---|
| `CounterSpec.Increased` | counter-app.js:81-86 | the counter never drops and rises by at most one; it rises exactly when `counter + 1 <= max`; a counter at or below `max` stays at or below it; at or above `max` it is a no-op |
| `CounterSpec.Decreased` | counter-app.js:88-92 | the counter never rises and drops by at most one; it drops exactly when `counter - 1 >= min`; a counter at or above `min` stays at or above it; at or below `min` it is a no-op |
| `CounterSpec.Celebrates` | counter-app.js:96-98 | the hook's condition as written: `counter` is among the changed properties and equals 7; what it means for presses is proved in `OnePressCelebrates`, `NoOpNeverCelebrates` and `PlusPressesCelebrateOnce`, and for the class in `Updated` |
| `CounterSpec.Step` | counter-app.js:131-132 | "ini+" runs `increase` and never lowers the counter, "ini-" runs `decrease` and never raises it; a press moves the counter by at most one and keeps it inside `[min, max]` if it was inside |
| `CounterSpec.CelebrationsIn` | counter-app.js:94-102 | a sequence of presses celebrates at most once per press, and only if 7 lies between the smaller of start and `min` and the larger of start and `max` |
| `CounterSpec.PressPreservesRange` | counter-app.js:81-92 | inside `[min, max]`, both handlers keep the counter inside, and both are no-ops exactly when `min == max` |
| `CounterSpec.NoOpNeverCelebrates` | counter-app.js:94-102 | a press that leaves the counter unchanged never celebrates |
| `CounterSpec.OnePressCelebrates` | counter-app.js:94-102 | one press celebrates exactly when it moves the counter onto 7 from another value |
| `CounterSpec.RunStaysWithinReach` | counter-app.js:81-92 | after any sequence of presses, the counter lies between the smaller of its start and `min` and the larger of its start and `max` |
| `CounterSpec.RunPreservesRange` | counter-app.js:81-92 | a counter inside `[min, max]` stays inside for any sequence of presses |
| `CounterSpec.RunMovesAtMostOnePerPress` | counter-app.js:81-92 | `k` presses move the counter by at most `k` |
| `CounterSpec.PinnedCounterNeverMoves` | counter-app.js:81-92 | with `min == max == counter`, no sequence of presses moves the counter or celebrates |
| `CounterSpec.PinnedFrozenIff` | counter-app.js:81-92 | with `min == max`, both presses leave the counter unchanged exactly when it is on the pinned value; below it "ini+" adds one, above it "ini-" subtracts one |
| `CounterSpec.PinnedRangeDoesNotFreezeOutsideCounter` | counter-app.js:81-92 | with `min == max == 5` and counter 0, `increase` still moves: two presses of "ini+" reach 2 |
| `CounterSpec.PlusPresses` | counter-app.js:81-86 | `n` presses of "ini+" give `counter + n` capped at `max`, and leave a counter already above `max` unchanged |
| `CounterSpec.MinusPresses` | counter-app.js:88-92 | `n` presses of "ini-" give `counter - n` floored at `min`, and leave a counter already below `min` unchanged |
| `CounterSpec.PlusPressesCelebrateOnce` | counter-app.js:81-102 | `n` presses of "ini+" celebrate exactly once if they pass 7 on the way up (which needs `7 <= max`), otherwise never; resting at `max` does not re-fire |
| `CounterSpec.InitialPresses` | counter-app.js:36-102 | from (0, 1, 9): a first "ini-" is a no-op; `n` presses of "ini+" give `min(n, 9)` and exactly one celebration once `n >= 7` |
| `CounterSpec.ReturnsToZeroOnlyByMinusPresses` | counter-app.js:81-92 | with bounds (1, 9) and a counter on 0 or in 1..9, a sequence of presses ends on 0 exactly when it started on 0 and every press was "ini-" |
| `CounterSpec.InitialRunsStayBetweenZeroAndNine` | counter-app.js:36-92 | from (0, 1, 9), any sequence of presses keeps the counter in 0..9; it is on 0 exactly when every press was "ini-"; after any "ini+" it lies in `[1, 9]` |
| `CounterElement.CounterApp.constructor` | counter-app.js:36-38 | counter 0, `min` 1, `max` 9, no celebration yet; the counter starts outside `[min, max]` |
| `CounterElement.CounterApp.Increase` | counter-app.js:81-86 | the new counter is `Increased(old counter, max)`: +1 when `counter + 1 <= max`, else unchanged; `min`/`max` untouched; inside the range before implies inside after |
| `CounterElement.CounterApp.Decrease` | counter-app.js:88-92 | the new counter is `Decreased(old counter, min)`: -1 when `counter - 1 >= min`, else unchanged; `min`/`max` untouched; inside the range before implies inside after |
| `CounterElement.CounterApp.Updated` | counter-app.js:94-102 | one more celebration exactly when the counter changed and now equals 7, otherwise none |
| `CounterElement.CounterApp.MakeItRain` | counter-app.js:104-122 | the celebration effect is started once |
| `CounterElement.CounterApp.PressPlus` | counter-app.js:131 | a click on "ini+" and its update: the counter follows `Run` and the celebrations follow `CelebrationsIn` for one `Plus` |
| `CounterElement.CounterApp.PressMinus` | counter-app.js:132 | a click on "ini-" and its update: the counter follows `Run` and the celebrations follow `CelebrationsIn` for one `Minus` |
| `CounterElement.CounterApp.SetCounter` | counter-app.js:48 | an outside write of `counter` is stored as given |
| `CounterElement.CounterApp.SetMin` | counter-app.js:46 | an outside write of `min` is stored as given and does not re-clamp the counter |
| `CounterElement.CounterApp.SetMax` | counter-app.js:47 | an outside write of `max` is stored as given and does not re-clamp the counter |
| `CounterElement.SevenPlusClicks` | counter-app.js:36-102 | a fresh element, its first update and seven "ini+" clicks: counter 7, one celebration |
| `CounterElement.PlusAtMaxIsNoOp` | counter-app.js:81-102 | after the first update, nine "ini+" clicks give 9 with one celebration; a tenth click leaves the counter and the celebrations unchanged |
| `CounterElement.FirstMinusClickIsNoOp` | counter-app.js:88-92 | after the first update, a first "ini-" click on a fresh element leaves 0 and does not celebrate |
| `CounterElement.LoweredMaxIsNotReclamped` | counter-app.js:46-92 | after five "ini+" clicks and `max := 3`, the counter stays at 5; "ini+" does nothing and "ini-" gives 4 |
| `CounterElement.OutsideWriteOfSevenCelebrates` | counter-app.js:94-102 | writing 7 into `counter` from outside and updating starts the confetti |

## Left out

- Rendering, the template and the scoped styles, including the `counter="9"`
  colour rule (counter-app.js:53-79, 125-141): presentation only.
- Localisation (`registerLocalization`, the locales URL, the `t` strings and
  `title`): a framework call with no logic of its own.
- The body of `makeItRain`: a dynamic import, a `setTimeout` and a DOM
  attribute write. They are asynchronous and DOM-bound. `MakeItRain` only counts
  that the effect was started.
- Lit's asynchronous, batched update scheduling and how `changedProperties`
  is built. Each update is modelled as a synchronous call of `Updated` with a
  flag saying whether `counter` changed. `PressPlus` / `PressMinus` set the flag
  when the counter holds a new value, as Lit's `!==` comparison does. Several
  property writes batched into one update are not modelled; a caller of
  `Updated` supplies the flag. `super.updated` is framework code and is not
  part of this model.
- `haxProperties`, the `tag` getter and `customElements.define`: packaging and
  registration.
- JavaScript `Number` values that are not integers (fractions, `NaN`,
  out-of-range doubles): `counter`, `min` and `max` are `int`.
- Button disabling at the bounds, validation of `min > max` and clamping on
  construction do not exist in the code, so they are not modelled.
