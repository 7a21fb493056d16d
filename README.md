# PinButtonEvents in Dafny

This project models PinButtonEvents, an Arduino library that turns the level of a button pin into gestures and proves properties of that model. The library:

- debounces the pin;
- tracks a Pressed/Released state with a hold count and a repeat count;
- looks up callbacks keyed by (state, hold count, repeat count), with a 255 wildcard and a catch-all;
- optionally matches the gesture tokens `Short`, `Long` and `Pause` against registered token patterns over a bounded rolling history.

The library comes in two variants. Both are modelled in one class, and both share the callback registry and `triggerEvent`:

- `src/PinButtonEvents.cpp` has the sequence matcher. Its `update()` is `Button.PinButtonEvents.Update`.
- `src/pinbuttonevents.cpp` has no matcher. Its `update()` is `Button.PinButtonEvents.UpdateNoSequence`.

The modules:

- `Clock` (clock.dfy) covers `elapsed` and `unsigned long` subtraction over a 32-bit tick counter.
- `Actions` (actions.dfy) defines opaque callback ids and `Option`.
- `Tokens` (tokens.dfy) defines the tokens and the lexicographic order `std::map` keeps its `std::vector` keys in. The numeric token values are not declared in the header, so the order is a parameter `rank` (any three distinct numbers). Only facts that hold for every rank are proved.
- `Dispatch` (dispatch.dfy) holds the key triple and `STATE_ANY`. It defines the callback trace (`Fired`) and `Dispatched`: the list of callbacks one `triggerEvent()` invokes, in order.
- `Sequences` (sequences.dfy) models `PinButtonSequence` as the class `SequenceMatcher`:
  - `_callback` is kept as a strictly sorted entry list, mirroring the key order of `std::map`, with `AsMap` as its map view;
  - `addSequence` is `AddSequence`, a trim loop followed by the first-match scan;
  - registration and removal are `Register` and `Unregister`, including the `_maxSize` recompute exactly as guarded in the code.
- `Button` (button.dfy) is the class `PinButtonEvents`:
  - it holds the fields of src/PinButtonEvents.h, the nullable matcher `_sequence` and a ghost `trace` of every callback invoked;
  - `triggerEvent()` is `TriggerEvent`;
  - each branch of `update()` is a step method, and each variant's update method calls them;
  - the ghost function `Classify` names the branch one call takes.
- `Scenarios` (scenarios.dfy) runs whole gestures on a fresh button and proves which callbacks fire.

`millis()` and `digitalRead()` become the parameters `now` and `level` of each update call. A callback is an `ActionId`. An invocation is a `Fired` entry appended to `trace`.

## Behaviour as written

The model follows the code, including where descriptions elsewhere of what the library does differ from it:

- **First match, not longest.** `addSequence` invokes the first key in `std::map` order that equals the tail of the history, and stops. A pattern sorts before its own extensions, so with `[Short]` and `[Short, Short]` both registered, two short clicks invoke `[Short]` twice and never `[Short, Short]`. See `Sequences.ShortShadowsDoubleShort`, `Sequences.FirstMatchIsLeast` and `Scenarios.DoubleClickWithShadowedPattern`.
- **Guarded recompute of the history bound.** After a removal, `_maxSize` is recomputed only when it equals the remaining number of patterns plus one (src/PinButtonEvents.cpp:119). Otherwise the old bound is kept, which can exceed the longest remaining pattern (`Sequences.BoundAfterEraseStale`). The history itself is never trimmed on removal, only on the next token fed.
- **Tick 0.** `_triggerTime` starts at 0, so a fresh button with the default delay ignores every sample before tick 30 (`Scenarios.FreshButtonIgnoresFirstTicks`). A press sampled at tick 0 stores 0, the "no timer" value, in `_pressTime`, so no hold step follows however long the button is held (`Scenarios.PressAtTickZeroNeverHolds`).
- **The 255 wildcard.** `STATE_ANY` is `-1` stored in an `unsigned char`, i.e. 255, the same value as a saturated count. A callback registered with `on(state, cb)` therefore fires twice on an event with hold count 0 or 255 and repeat count 255. It also fires on hold steps once the hold count has saturated, and never on hold steps below saturation.

## Model

| member | source | states |
|---|---|---|
| Clock.ElapsedModular | src/PinButtonEvents.cpp:41-44 | both branches of `elapsed` equal `(current - start) mod 2^32`, which is 0 exactly when the ticks are equal |
| Clock.SubModular | src/pinbuttonevents.cpp:89 | `unsigned long` subtraction `now - _triggerTime` is subtraction modulo 2^32 |
| Clock.ElapsedIsSub | src/pinbuttonevents.cpp:106 | the plain subtraction of the sequence-free variant measures the same duration as `elapsed` |
| Clock.ElapsedAfterAdvance | src/PinButtonEvents.cpp:41-44 | advancing the counter by `d` ticks, wrapping, and measuring from the start gives back `d` |
| Clock.ElapsedAcrossWrap | src/PinButtonEvents.cpp:43 | the wrapped branch counts across the wrap (16 ticks before it to 16 after it is 32) |
| Tokens.LexIrreflexive | src/PinButtonEvents.cpp:36 | no pattern key sorts before itself |
| Tokens.LexTransitive | src/PinButtonEvents.cpp:36 | the key order of the pattern map is transitive |
| Tokens.LexAsymmetric | src/PinButtonEvents.cpp:36 | the key order is asymmetric |
| Tokens.LexTrichotomy | src/PinButtonEvents.cpp:36 | with distinct token values, any two different patterns are ordered one way or the other |
| Tokens.PrefixBeforeExtension | src/PinButtonEvents.cpp:36 | for every token order, a pattern sorts before each of its proper extensions |
| Dispatch.StateAnyIsMinusOne | src/PinButtonEvents.cpp:31 | `STATE_ANY` is -1 converted to `unsigned char`: 255, the saturated count |
| Dispatch.FoundLookupKeys | src/PinButtonEvents.cpp:137-154 | the keyed invocations are the four lookups in order (two when the hold count is non-zero), each firing at most once |
| Dispatch.DispatchedNothingRegistered | src/PinButtonEvents.cpp:134-154 | with no catch-all and no key registered, an event fires nothing |
| Dispatch.DispatchedKeyed | src/PinButtonEvents.cpp:137-154 | a keyed callback fires exactly when its key is registered and is the exact key, the hold-specific repeat wildcard, or, with hold 0 only, one of the two hold wildcards |
| Dispatch.DispatchedCatchAll | src/PinButtonEvents.cpp:134-135 | the catch-all, when set, is invoked first with (state, hold, repeat), and nowhere else |
| Dispatch.DispatchedLength | src/PinButtonEvents.cpp:130-155 | at most five invocations per event, at most three when the hold count is non-zero |
| Dispatch.DispatchedFullOrder | src/PinButtonEvents.cpp:130-155 | with everything registered and a repeat count below 255, an event without hold steps fires catch-all, exact, (255,255), (255,repeat), (hold,255), in that order, each once under a distinct key |
| Dispatch.StateCallbackTwiceAtSaturatedRepeat | src/PinButtonEvents.cpp:141-154 | an `on(state, cb)` callback fires twice on an event with hold 0 and repeat 255 |
| Dispatch.StateCallbackOnSaturatedHold | src/PinButtonEvents.cpp:152-154 | an `on(state, cb)` callback fires on a hold step once the hold count is 255 (twice if the repeat count is 255 too) |
| Dispatch.StateCallbackSilentOnHoldSteps | src/PinButtonEvents.cpp:141-150 | an `on(state, cb)` callback never fires on a hold step below saturation |
| Sequences.SortedSize | src/PinButtonEvents.cpp:119 | `_callback.size()` is the number of entries, since sorted keys are distinct |
| Sequences.InsertElements | src/PinButtonEvents.cpp:113 | after `_callback[p] = cb` the map holds (p, cb), and otherwise only old entries |
| Sequences.InsertSorted | src/PinButtonEvents.cpp:113 | insertion keeps the keys in strict order |
| Sequences.InsertAsMap | src/PinButtonEvents.cpp:113 | insertion is map update: insert a new key or replace its callback |
| Sequences.EraseElements | src/PinButtonEvents.cpp:118 | erasing keeps exactly the entries with a different key |
| Sequences.EraseSorted | src/PinButtonEvents.cpp:118 | erasing keeps the keys in strict order |
| Sequences.EraseAsMap | src/PinButtonEvents.cpp:118 | erasing is map key removal |
| Sequences.MaxLengthIsMax | src/PinButtonEvents.cpp:121-123 | the recomputed bound is the length of a longest remaining pattern, and 0 with none left |
| Sequences.BoundAfterEraseCovers | src/PinButtonEvents.cpp:119-124 | the bound after a removal, recomputed or not, still covers every remaining pattern |
| Sequences.BoundAfterEraseStale | src/PinButtonEvents.cpp:119 | when the guard is false the bound stays stale: 3 with only a 1-token pattern left |
| Sequences.BoundAfterEraseShrinks | src/PinButtonEvents.cpp:119-124 | when the guard holds, the bound becomes the longest remaining pattern: no larger than before, attained by a remaining pattern, 0 with none left |
| Sequences.BoundAfterEraseShrinksExample | src/PinButtonEvents.cpp:119-124 | removing a two-token pattern and leaving `[Short]` recomputes the bound from 2 to 1 |
| Sequences.MaxPatternLength | src/PinButtonEvents.cpp:121-123 | the recompute loop computes the maximum pattern length |
| Sequences.AsMapLookup | src/PinButtonEvents.cpp:36 | each entry's key maps to that entry's own callback |
| Sequences.FirstMatchSpec | src/PinButtonEvents.cpp:89-99 | the invoked entry matches the history's tail and every earlier entry does not; nothing fires exactly when no entry matches |
| Sequences.FirstMatchIsLeast | src/PinButtonEvents.cpp:89-99 | the invoked pattern sorts before every other matching pattern (first match, not longest) |
| Sequences.FirstMatchByMap | src/PinButtonEvents.cpp:89-99 | on the map itself: no callback iff no registered pattern matches; otherwise the registered pair with the least matching pattern |
| Sequences.ScanFirstMatch | src/PinButtonEvents.cpp:89-100 | the `for`/`continue`/`break` scan returns the first matching entry |
| Sequences.Trim | src/PinButtonEvents.cpp:86-87 | trimming from the front keeps the last `min(size, bound)` tokens |
| Sequences.FedHistoryBound | src/PinButtonEvents.cpp:85-87 | after a token is fed, the history is a suffix of old history plus token, within the bound, ending with the token when the bound is positive |
| Sequences.ShortShadowsDoubleShort | src/PinButtonEvents.cpp:89-99 | `[Short]` sorts before `[Short, Short]` in either registration order, and every `Short` fired then invokes `[Short]` |
| Sequences.SequenceMatcher.constructor | src/PinButtonEvents.cpp:33-39 | a new matcher has no patterns, an empty history and bound 0 |
| Sequences.SequenceMatcher.AddSequence | src/PinButtonEvents.cpp:80-101 | no-op without patterns; otherwise the new history is the trimmed old history plus token and the result is the first match on it; patterns and bound unchanged |
| Sequences.SequenceMatcher.Register | src/PinButtonEvents.cpp:113-114 | maps the pattern to its action, bound becomes max(old, length), history unchanged, invariant kept |
| Sequences.SequenceMatcher.Unregister | src/PinButtonEvents.cpp:118-124 | removes the pattern, bound recomputed only under the guard, history unchanged, invariant kept |
| Button.RepeatWindowBoundary | src/PinButtonEvents.cpp:211 | the repeat window is inclusive, also across the counter wrap: a gap of exactly 500 counts a repeat, 501 resets |
| Button.PinButtonEvents.constructor | src/PinButtonEvents.h:63-78 | a default button is Released with zero counts and timers, debounce 30, released HIGH, pressed LOW, nothing registered |
| Button.PinButtonEvents.WithPin | src/pinbuttonevents.cpp:31-32 | the constructor stores pin and debounce delay; the other fields keep their header defaults |
| Button.PinButtonEvents.OnAll | src/PinButtonEvents.cpp:61-64 | sets or clears the catch-all and changes nothing else |
| Button.PinButtonEvents.OnKey | src/PinButtonEvents.cpp:66-73 | a callback inserts or replaces the key, an empty one erases it; the machine is untouched |
| Button.PinButtonEvents.OnState | src/PinButtonEvents.cpp:75-78 | the same on key (state, 255, 255) |
| Button.PinButtonEvents.OnSequence | src/PinButtonEvents.cpp:103-128 | empty pattern changes nothing; registration updates map and bound; removal erases and applies the guarded recompute; the matcher exists iff patterns remain |
| Button.PinButtonEvents.FireKey | src/PinButtonEvents.cpp:137-139 | one lookup appends the key's callback to the trace if the key is registered |
| Button.PinButtonEvents.TriggerEvent | src/PinButtonEvents.cpp:130-155 | stamps `_triggerTime` with now and appends exactly `Dispatched` for the current state and counts |
| Button.PinButtonEvents.Feed | src/PinButtonEvents.cpp:174 | feeding a token appends the matcher's first match to the trace and leaves patterns and bound alone |
| Button.PinButtonEvents.StepRelease | src/PinButtonEvents.cpp:164-177 | Released, press timer 0, release time now, one dispatch with the pre-release hold count; then repeat reset after hold steps, or `Short` fed without; hold count 0 |
| Button.PinButtonEvents.StepReleaseNoSequence | src/pinbuttonevents.cpp:95-102 | the same release edge, keeping the repeat count and feeding nothing |
| Button.PinButtonEvents.StepHold | src/PinButtonEvents.cpp:178-195 | increments the hold count and re-arms the timer below 255, disarms it at 255; one dispatch; `Long` fed only when the count becomes 1 |
| Button.PinButtonEvents.StepHoldNoSequence | src/pinbuttonevents.cpp:103-117 | the same hold step without feeding |
| Button.PinButtonEvents.StepPress | src/PinButtonEvents.cpp:207-223 | Pressed with timer now and no release time; repeat count counted up (saturating), reset or kept by the repeat window; one dispatch |
| Button.PinButtonEvents.Update | src/PinButtonEvents.cpp:157-225 | per branch: debounced or idle leaves everything; release, hold step, pause and press edge as above (history and trace included); configuration and patterns never change |
| Button.PinButtonEvents.UpdateNoSequence | src/pinbuttonevents.cpp:87-140 | per branch, the sequence-free update: debounce by subtraction, no feeding, repeat count kept on release |
| Button.PinButtonEvents.SetDebounceDelay | src/PinButtonEvents.cpp:232-235 | the getter returns the new delay (default 30); nothing else changes |
| Button.PinButtonEvents.SetPinReleased | src/PinButtonEvents.cpp:242-245 | the getter returns the new released level (default HIGH); nothing else changes |
| Button.PinButtonEvents.SetPinPressed | src/PinButtonEvents.cpp:252-255 | the getter returns the new pressed level (default LOW); nothing else changes |
| Scenarios.ShortPatternFiresFirst | src/PinButtonEvents.cpp:89-99 | with `[Short]` and `[Short, Short]` registered, a history ending in `Short` always fires `[Short]` |
| Scenarios.ShortPatternsButton | src/PinButtonEvents.cpp:103-115 | two registrations on a fresh button give that pattern map with bound 2 |
| Scenarios.PressWithoutCallbacks | src/PinButtonEvents.cpp:207-223 | a press edge with nothing registered changes only the machine |
| Scenarios.ReleaseWithoutCallbacks | src/PinButtonEvents.cpp:164-177 | a release edge with no keyed callbacks only feeds `Short` |
| Scenarios.ClickOnShortPatterns | src/PinButtonEvents.cpp:164-174 | one click on that button invokes `[Short]`, whatever the history |
| Scenarios.ClickedOnce | src/PinButtonEvents.cpp:164-177 | after one click, pressed at 100 and released at 300, `[Short]` has fired once and the history is `[Short]` |
| Scenarios.DoubleClickWithShadowedPattern | src/PinButtonEvents.cpp:89-99 | two quick clicks invoke `[Short]` twice and never `[Short, Short]`; the repeat count is 1 |
| Scenarios.PressAtTickZeroNeverHolds | src/PinButtonEvents.cpp:178 | a press at tick 0 leaves the press timer at 0, so no later sample makes a hold step |
| Scenarios.FreshButtonIgnoresFirstTicks | src/PinButtonEvents.cpp:159-160 | a fresh button ignores every sample before tick 30, whatever the level |

## Left out

- `setPin`, `pinMode` and the `ARDUINO_ARCH_STM32F1` conditionals (src/PinButtonEvents.cpp:51-59, src/pinbuttonevents.cpp:34-38) are hardware set-up. The constructor's `setPinMode` argument is accepted and ignored.
- `millis()` and `digitalRead()` are hardware reads. Each update takes one clock sample `now` and one pin level. The code reads each several times per call; the model assumes they do not change within one call.
- The one-argument `elapsed(startMillis)` reads the clock, and is `Elapsed(start, now)` here.
- Callback bodies are opaque `ActionId`s recorded in the ghost trace. Callbacks that re-enter the button (call `on`, `onSequence` or `update` from inside a callback) are not modelled.
- The numeric values of `Sequence::Short`, `Long` and `Pause` are not declared in the shown files. Pattern order is lexicographic over an abstract token rank.
- 64-bit `unsigned long` platforms are not modelled: all times are 32-bit, as on 32-bit Arduino targets and in `elapsed`'s `uint32_t`.
- In-place mutation inside `addSequence`: the code pushes and front-erases `_history` in place. The model trims a local copy in the same loop and assigns it back, with the same result.
- The class layout: the sequence-free variant has no `_sequence` field. The model uses one class for both variants, and `UpdateNoSequence` never touches the matcher.
- None of the quirks listed under "Behaviour as written" are fixed.
