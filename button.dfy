/** `PinButtonEvents`: the button state machine, its callback registry and its optional sequence matcher.
    `Update` is the `update()` of src/PinButtonEvents.cpp (with sequences); `UpdateNoSequence` is the
    `update()` of src/pinbuttonevents.cpp. Both share the registry and `TriggerEvent`. */
module Button {
  import opened Clock
  import opened Actions
  import opened Tokens
  import opened Dispatch
  import opened Sequences

  /** Arduino's pin levels. */
  const HIGH: int := 1
  const LOW: int := 0

  const DEFAULT_DEBOUNCE_DELAY: u32 := 30

  /** The fields `update()` and `triggerEvent()` change. */
  datatype MachineState = MachineState(
    state: State, holdCount: u8, repeatCount: u8, pressTime: u32, releaseTime: u32, triggerTime: u32)

  /** The fields only the registration calls, the constructor and the setters change. */
  datatype Configuration = Configuration(
    pin: u8, catchAll: Option<ActionId>, callbackMap: map<Key, ActionId>,
    debounceDelay: u32, pinReleased: int, pinPressed: int)

  /** Which branch of `update()` one call takes, from the state before it. */
  datatype Branch = Debounced | ReleaseEdge | HoldStep | PressedIdle | ReleasedIdle | PressEdge

  /** A sequence callback, as it appears in the trace. */
  function PatternTrace(fired: Option<Entry>): seq<Fired>
  {
    match fired
    case None => []
    case Some(e) => [Pattern(e.action, e.pattern)]
  }

  /** `_repeatCount` after a press edge: counted up (stopping at 255) when the press comes at most
      `REPEAT_INTERVAL` after a recorded release, reset when it comes later, kept when no release time is
      recorded (0 is "none"). The gap is the plain unsigned difference. */
  function RepeatAfterPress(repeatCount: u8, releaseTime: u32, now: u32): u8
  {
    if releaseTime == 0 then repeatCount
    else if Sub(now, releaseTime) <= REPEAT_INTERVAL then (if repeatCount < UCHAR_MAX then repeatCount + 1 else UCHAR_MAX)
    else 0
  }

  /** The repeat window is inclusive: a press exactly `REPEAT_INTERVAL` after the release counts as a
      repeat, one tick later it resets the count. */
  lemma RepeatWindowBoundary(repeatCount: u8, releaseTime: u32)
    requires releaseTime != 0
    ensures RepeatAfterPress(repeatCount, releaseTime, (releaseTime + REPEAT_INTERVAL) % TWO_32)
      == if repeatCount < UCHAR_MAX then repeatCount + 1 else UCHAR_MAX
    ensures RepeatAfterPress(repeatCount, releaseTime, (releaseTime + REPEAT_INTERVAL + 1) % TWO_32) == 0
  {
    var onTime := (releaseTime + REPEAT_INTERVAL) % TWO_32;
    var late := (releaseTime + REPEAT_INTERVAL + 1) % TWO_32;
    if releaseTime + REPEAT_INTERVAL + 1 < TWO_32 {
      assert onTime == releaseTime + REPEAT_INTERVAL && late == onTime + 1;
    } else if releaseTime + REPEAT_INTERVAL < TWO_32 {
      assert onTime == releaseTime + REPEAT_INTERVAL && late == 0;
    } else {
      assert onTime == releaseTime + REPEAT_INTERVAL - TWO_32 && late == onTime + 1;
    }
  }

  class PinButtonEvents {
    /** The order of gesture tokens used for the pattern map (see module Tokens). */
    const rank: Token -> nat

    var pin: u8
    var catchAll: Option<ActionId>
    var callbackMap: map<Key, ActionId>

    var state: State
    var holdCount: u8
    var repeatCount: u8

    var pressTime: u32
    var releaseTime: u32
    var triggerTime: u32
    var debounceDelay: u32

    var pinReleased: int
    var pinPressed: int

    /** `_sequence`: null until a pattern is registered, and again once the last one is removed. */
    var sequence: SequenceMatcher?

    /** Every callback invoked so far, in invocation order. */
    ghost var trace: seq<Fired>

    /** Released means no hold steps and no press timer; Pressed means no recorded release; a matcher
        exists only while it holds patterns. */
    ghost predicate Valid()
      reads this, sequence
    {
      && DistinctRanks(rank)
      && (state == Released ==> holdCount == 0 && pressTime == 0)
      && (state == Pressed ==> releaseTime == 0)
      && (sequence != null ==> sequence.Valid() && sequence.rank == rank && sequence.entries != [])
    }

    ghost function Machine(): MachineState
      reads this
    {
      MachineState(state, holdCount, repeatCount, pressTime, releaseTime, triggerTime)
    }

    ghost function Config(): Configuration
      reads this
    {
      Configuration(pin, catchAll, callbackMap, debounceDelay, pinReleased, pinPressed)
    }

    /** The registered patterns; none without a matcher. */
    ghost function Patterns(): map<seq<Token>, ActionId>
      reads this, sequence
    {
      if sequence == null then map[] else AsMap(sequence.entries)
    }

    ghost function MaxSize(): nat
      reads this, sequence
    {
      if sequence == null then 0 else sequence.maxSize
    }

    ghost function History(): seq<Token>
      reads this, sequence
    {
      if sequence == null then [] else sequence.history
    }

    /** What feeding token `t` to the matcher, if there is one, would invoke and leave as history. */
    ghost function FeedTrace(t: Token): seq<Fired>
      reads this, sequence
    {
      if sequence == null then []
      else PatternTrace(FedAction(sequence.entries, sequence.maxSize, sequence.history, t))
    }

    ghost function FeedHistory(t: Token): seq<Token>
      reads this, sequence
    {
      if sequence == null then [] else FedHistory(sequence.entries, sequence.maxSize, sequence.history, t)
    }

    /** While released: a `Pause` is due once more than `HOLD_INTERVAL` has passed since the release and
        the history is non-empty and does not already end in `Pause`. */
    ghost predicate PauseDue(now: u32)
      reads this, sequence
    {
      && sequence != null && sequence.history != []
      && sequence.history[|sequence.history| - 1] != Pause
      && Elapsed(releaseTime, now) > HOLD_INTERVAL
    }

    ghost function Classify(now: u32, level: int): Branch
      reads this
    {
      if Elapsed(triggerTime, now) < debounceDelay then Debounced
      else if state == Pressed then
        if level == pinReleased then ReleaseEdge
        else if pressTime != 0 && level == pinPressed && Elapsed(pressTime, now) >= HOLD_INTERVAL then HoldStep
        else PressedIdle
      else if level != pinPressed then ReleasedIdle
      else PressEdge
    }

    /** The default construction of src/PinButtonEvents.h. */
    constructor (rank: Token -> nat)
      requires DistinctRanks(rank)
      ensures Valid() && this.rank == rank
      ensures Machine() == MachineState(Released, 0, 0, 0, 0, 0)
      ensures Config() == Configuration(0, None, map[], DEFAULT_DEBOUNCE_DELAY, HIGH, LOW)
      ensures sequence == null && trace == []
    {
      this.rank := rank;
      pin := 0;
      catchAll := None;
      callbackMap := map[];
      state := Released;
      holdCount := 0;
      repeatCount := 0;
      pressTime := 0;
      releaseTime := 0;
      triggerTime := 0;
      debounceDelay := DEFAULT_DEBOUNCE_DELAY;
      pinReleased := HIGH;
      pinPressed := LOW;
      sequence := null;
      trace := [];
    }

    /** `PinButtonEvents(pin, setPinMode, debounceDelay)`; `setPinMode` only goes to `pinMode`. */
    constructor WithPin(rank: Token -> nat, pin: u8, setPinMode: u8, debounceDelay: u32)
      requires DistinctRanks(rank)
      ensures Valid() && this.rank == rank
      ensures Machine() == MachineState(Released, 0, 0, 0, 0, 0)
      ensures Config() == Configuration(pin, None, map[], debounceDelay, HIGH, LOW)
      ensures sequence == null && trace == []
    {
      this.rank := rank;
      this.pin := pin;
      catchAll := None;
      callbackMap := map[];
      state := Released;
      holdCount := 0;
      repeatCount := 0;
      pressTime := 0;
      releaseTime := 0;
      triggerTime := 0;
      this.debounceDelay := debounceDelay;
      pinReleased := HIGH;
      pinPressed := LOW;
      sequence := null;
      trace := [];
    }

    // -------------------------------------------------------------------------------------------
    // registration

    /** `on(callback)`: set or clear the catch-all. */
    method OnAll(callback: Option<ActionId>)
      requires Valid()
      modifies this
      ensures Valid()
      ensures Config() == old(Config()).(catchAll := callback)
      ensures Machine() == old(Machine()) && sequence == old(sequence) && trace == old(trace)
    {
      catchAll := callback;
    }

    /** `on(state, holdS, repeatCount, callback)`: insert or replace the key, or erase it for an empty
        callback. */
    method OnKey(s: State, holdS: u8, repeat: u8, callback: Option<ActionId>)
      requires Valid()
      modifies this
      ensures Valid()
      ensures Config() == old(Config()).(callbackMap :=
        if callback.Some? then old(callbackMap)[Key(s, holdS, repeat) := callback.value]
        else old(callbackMap) - {Key(s, holdS, repeat)})
      ensures Machine() == old(Machine()) && sequence == old(sequence) && trace == old(trace)
    {
      var key := Key(s, holdS, repeat);
      if callback.Some? {
        callbackMap := callbackMap[key := callback.value];
      } else {
        callbackMap := callbackMap - {key};
      }
    }

    /** `on(state, callback)`: the key (state, STATE_ANY, STATE_ANY), that is (state, 255, 255). */
    method OnState(s: State, callback: Option<ActionId>)
      requires Valid()
      modifies this
      ensures Valid()
      ensures Config() == old(Config()).(callbackMap :=
        if callback.Some? then old(callbackMap)[Key(s, UCHAR_MAX, UCHAR_MAX) := callback.value]
        else old(callbackMap) - {Key(s, UCHAR_MAX, UCHAR_MAX)})
      ensures Machine() == old(Machine()) && sequence == old(sequence) && trace == old(trace)
    {
      OnKey(s, STATE_ANY, STATE_ANY, callback);
    }

    /** `onSequence(sequence, callback)`. */
    method OnSequence(pattern: seq<Token>, callback: Option<ActionId>)
      requires Valid()
      modifies this, sequence
      ensures Valid()
      ensures Config() == old(Config()) && Machine() == old(Machine()) && trace == old(trace)
      ensures sequence == null <==> Patterns() == map[]
      ensures old(sequence) == null && sequence != null ==> fresh(sequence)
      ensures pattern == [] ==>
        sequence == old(sequence) && Patterns() == old(Patterns()) && MaxSize() == old(MaxSize())
        && History() == old(History())
      ensures pattern != [] && callback.Some? ==>
        && Patterns() == old(Patterns())[pattern := callback.value]
        && MaxSize() == (if old(MaxSize()) < |pattern| then |pattern| else old(MaxSize()))
        && History() == old(History())
        && (old(sequence) != null ==> sequence == old(sequence))
      ensures pattern != [] && callback.None? ==>
        && Patterns() == old(Patterns()) - {pattern}
        && (sequence == null ==> History() == [] && MaxSize() == 0)
        && (sequence != null ==>
              sequence == old(sequence) && History() == old(History())
              && MaxSize() == BoundAfterErase(old(MaxSize()), sequence.entries))
    {
      if sequence != null {
        AsMapEmpty(sequence.entries);
      }
      if |pattern| == 0 {
        return;
      }
      if callback.Some? {
        if sequence == null {
          sequence := new SequenceMatcher(rank);
        }
        sequence.Register(pattern, callback.value);
        AsMapEmpty(sequence.entries);
      } else if sequence != null {
        sequence.Unregister(pattern);
        AsMapEmpty(sequence.entries);
        if sequence.entries == [] {
          sequence := null;
        }
      }
    }

    // -------------------------------------------------------------------------------------------
    // dispatch

    /** One lookup of a key in the callback map: invokes the registered callback, if there is one. */
    method FireKey(key: Key)
      modifies this`trace
      ensures trace == old(trace) + LookUp(callbackMap, key)
    {
      if key in callbackMap {
        trace := trace + [Keyed(callbackMap[key], key)];
      }
    }

    /** `triggerEvent()`: stamp the dispatch time, then invoke the catch-all and the keyed callbacks in
        lookup order. */
    method TriggerEvent(now: u32)
      modifies this`triggerTime, this`trace
      ensures triggerTime == now
      ensures trace == old(trace) + Dispatched(catchAll, callbackMap, state, holdCount, repeatCount)
    {
      triggerTime := now;
      var s, h, r := state, holdCount, repeatCount;
      ghost var m := callbackMap;
      ghost var start := trace;
      ghost var first := if catchAll.Some? then [CatchAll(catchAll.value, s, h, r)] else [];
      if catchAll.Some? {
        trace := trace + [CatchAll(catchAll.value, s, h, r)];
      }
      ghost var before := trace;
      assert before == start + first;
      FireKey(Key(s, h, r));
      ghost var found := LookUp(m, Key(s, h, r));
      if h == 0 {
        FireKey(Key(s, STATE_ANY, STATE_ANY));
        AppendAssociative(before, found, LookUp(m, Key(s, STATE_ANY, STATE_ANY)));
        found := found + LookUp(m, Key(s, STATE_ANY, STATE_ANY));
        FireKey(Key(s, STATE_ANY, r));
        AppendAssociative(before, found, LookUp(m, Key(s, STATE_ANY, r)));
        found := found + LookUp(m, Key(s, STATE_ANY, r));
      }
      FireKey(Key(s, h, STATE_ANY));
      AppendAssociative(before, found, LookUp(m, Key(s, h, STATE_ANY)));
      found := found + LookUp(m, Key(s, h, STATE_ANY));
      assert trace == before + found;
      FoundLookupKeys(m, s, h, r);
      assert found == Found(m, LookupKeys(s, h, r));
      assert m == callbackMap && s == state && h == holdCount && r == repeatCount;
      assert Dispatched(catchAll, m, s, h, r) == first + found;
      AppendAssociative(start, first, found);
    }

    // -------------------------------------------------------------------------------------------
    // the two update() variants

    /** `_sequence->addSequence(t)`: feed one token to the matcher and record the callback it invokes. */
    method Feed(t: Token)
      requires Valid() && sequence != null
      modifies this`trace, sequence
      ensures Valid()
      ensures sequence.entries == old(sequence.entries) && sequence.maxSize == old(sequence.maxSize)
      ensures trace == old(trace) + old(FeedTrace(t))
      ensures sequence.history == old(FeedHistory(t))
    {
      var fired := sequence.AddSequence(t);
      trace := trace + PatternTrace(fired);
    }

    /** The release edge of the variant with sequences: the event is dispatched as (Released, hold, repeat)
        before the hold count is cleared; a release after hold steps clears the repeat count, a release
        without one feeds `Short`. */
    method StepRelease(now: u32)
      requires Valid() && state == Pressed
      modifies this`state, this`holdCount, this`repeatCount, this`pressTime, this`releaseTime,
               this`triggerTime, this`trace, sequence
      ensures Valid()
      ensures sequence != null ==> sequence.entries == old(sequence.entries) && sequence.maxSize == old(sequence.maxSize)
      ensures Machine() == MachineState(Released, 0, if old(holdCount) != 0 then 0 else old(repeatCount), 0, now, now)
      ensures trace == old(trace) + Dispatched(catchAll, callbackMap, Released, old(holdCount), old(repeatCount))
                       + (if old(holdCount) == 0 then old(FeedTrace(Short)) else [])
      ensures History() == if old(holdCount) == 0 then old(FeedHistory(Short)) else old(History())
    {
      pressTime := 0;
      releaseTime := now;
      state := Released;
      TriggerEvent(now);
      if holdCount != 0 {
        repeatCount := 0;
      } else if sequence != null {
        Feed(Short);
      }
      holdCount := 0;
    }

    /** The release edge of the variant without sequences: the repeat count is kept. */
    method StepReleaseNoSequence(now: u32)
      requires Valid() && state == Pressed
      modifies this`state, this`holdCount, this`pressTime, this`releaseTime, this`triggerTime, this`trace
      ensures Valid()
      ensures Machine() == MachineState(Released, 0, old(repeatCount), 0, now, now)
      ensures trace == old(trace) + Dispatched(catchAll, callbackMap, Released, old(holdCount), old(repeatCount))
    {
      pressTime := 0;
      releaseTime := now;
      state := Released;
      TriggerEvent(now);
      holdCount := 0;
    }

    /** A hold step at `ml` of the variant with sequences: count it (restarting the hold timer) or, once
        saturated, stop the timer; then dispatch. The first hold step feeds `Long` before the dispatch. */
    method StepHold(ml: u32)
      requires Valid() && state == Pressed
      modifies this`holdCount, this`pressTime, this`triggerTime, this`trace, sequence
      ensures Valid()
      ensures sequence != null ==> sequence.entries == old(sequence.entries) && sequence.maxSize == old(sequence.maxSize)
      ensures Machine() == (if old(holdCount) < UCHAR_MAX
                            then MachineState(Pressed, old(holdCount) + 1, old(repeatCount), ml, old(releaseTime), ml)
                            else MachineState(Pressed, UCHAR_MAX, old(repeatCount), 0, old(releaseTime), ml))
      ensures trace == old(trace) + (if old(holdCount) == 0 then old(FeedTrace(Long)) else [])
                       + Dispatched(catchAll, callbackMap, Pressed, holdCount, repeatCount)
      ensures History() == if old(holdCount) == 0 then old(FeedHistory(Long)) else old(History())
    {
      if holdCount < UCHAR_MAX {
        pressTime := ml;
        holdCount := holdCount + 1;
        if sequence != null && sequence.entries != [] && holdCount == 1 {
          Feed(Long);
        }
      } else {
        pressTime := 0;
      }
      TriggerEvent(ml);
    }

    /** A hold step at `ml` of the variant without sequences. */
    method StepHoldNoSequence(ml: u32)
      requires Valid() && state == Pressed
      modifies this`holdCount, this`pressTime, this`triggerTime, this`trace
      ensures Valid()
      ensures Machine() == (if old(holdCount) < UCHAR_MAX
                            then MachineState(Pressed, old(holdCount) + 1, old(repeatCount), ml, old(releaseTime), ml)
                            else MachineState(Pressed, UCHAR_MAX, old(repeatCount), 0, old(releaseTime), ml))
      ensures trace == old(trace) + Dispatched(catchAll, callbackMap, Pressed, holdCount, repeatCount)
    {
      if holdCount < UCHAR_MAX {
        pressTime := ml;
        holdCount := holdCount + 1;
      } else {
        pressTime := 0;
      }
      TriggerEvent(ml);
    }

    /** The press edge, common to both variants: start the press timer and update the repeat count from
        the recorded release, then dispatch. */
    method StepPress(now: u32)
      requires Valid() && state == Released
      modifies this`state, this`repeatCount, this`pressTime, this`releaseTime, this`triggerTime, this`trace
      ensures Valid()
      ensures Machine() == MachineState(Pressed, old(holdCount), RepeatAfterPress(old(repeatCount), old(releaseTime), now), now, 0, now)
      ensures trace == old(trace) + Dispatched(catchAll, callbackMap, Pressed, old(holdCount), repeatCount)
    {
      pressTime := now;
      state := Pressed;
      if releaseTime != 0 {
        if Sub(pressTime, releaseTime) <= REPEAT_INTERVAL {
          releaseTime := 0;
          if repeatCount < UCHAR_MAX {
            repeatCount := repeatCount + 1;
          }
          TriggerEvent(now);
          return;
        }
        repeatCount := 0;
        releaseTime := 0;
      }
      TriggerEvent(now);
    }

    /** `update()` of the variant with sequences, for one clock sample `now` and one pin level. */
    method Update(now: u32, level: int)
      requires Valid()
      modifies this, sequence
      ensures Valid() && sequence == old(sequence)
      ensures Config() == old(Config()) && Patterns() == old(Patterns()) && MaxSize() == old(MaxSize())
      ensures old(Classify(now, level)) in {Debounced, PressedIdle} ==>
        Machine() == old(Machine()) && trace == old(trace) && History() == old(History())
      ensures old(Classify(now, level)) == ReleaseEdge ==>
        && Machine() == MachineState(Released, 0, if old(holdCount) != 0 then 0 else old(repeatCount), 0, now, now)
        && trace == old(trace) + Dispatched(catchAll, callbackMap, Released, old(holdCount), old(repeatCount))
                    + (if old(holdCount) == 0 then old(FeedTrace(Short)) else [])
        && History() == if old(holdCount) == 0 then old(FeedHistory(Short)) else old(History())
      ensures old(Classify(now, level)) == HoldStep ==>
        && Machine() == (if old(holdCount) < UCHAR_MAX
                         then MachineState(Pressed, old(holdCount) + 1, old(repeatCount), now, old(releaseTime), now)
                         else MachineState(Pressed, UCHAR_MAX, old(repeatCount), 0, old(releaseTime), now))
        && trace == old(trace) + (if old(holdCount) == 0 then old(FeedTrace(Long)) else [])
                    + Dispatched(catchAll, callbackMap, Pressed, holdCount, repeatCount)
        && History() == if old(holdCount) == 0 then old(FeedHistory(Long)) else old(History())
      ensures old(Classify(now, level)) == ReleasedIdle ==>
        && Machine() == old(Machine())
        && trace == old(trace) + (if old(PauseDue(now)) then old(FeedTrace(Pause)) else [])
        && History() == if old(PauseDue(now)) then old(FeedHistory(Pause)) else old(History())
      ensures old(Classify(now, level)) == PressEdge ==>
        && Machine() == MachineState(Pressed, old(holdCount), RepeatAfterPress(old(repeatCount), old(releaseTime), now), now, 0, now)
        && trace == old(trace) + Dispatched(catchAll, callbackMap, Pressed, old(holdCount), repeatCount)
        && History() == old(History())
    {
      if Elapsed(triggerTime, now) < debounceDelay {
        return;
      }
      match state {
        case Pressed =>
          if level == pinReleased {
            StepRelease(now);
          } else if pressTime != 0 && level == pinPressed {
            var ml := now;
            if Elapsed(pressTime, ml) >= HOLD_INTERVAL {
              StepHold(ml);
            }
          }
        case Released =>
          if level != pinPressed {
            if sequence != null && sequence.history != [] && sequence.history[|sequence.history| - 1] != Pause {
              if Elapsed(releaseTime, now) > HOLD_INTERVAL {
                Feed(Pause);
              }
            }
          } else {
            StepPress(now);
          }
      }
    }

    /** `update()` of the variant without sequences: the same machine, measuring time by plain unsigned
        subtraction, never feeding tokens, and keeping `_repeatCount` on release. */
    method UpdateNoSequence(now: u32, level: int)
      requires Valid()
      modifies this
      ensures Valid() && sequence == old(sequence)
      ensures Config() == old(Config())
      ensures old(Classify(now, level)) in {Debounced, PressedIdle, ReleasedIdle} ==>
        Machine() == old(Machine()) && trace == old(trace)
      ensures old(Classify(now, level)) == ReleaseEdge ==>
        && Machine() == MachineState(Released, 0, old(repeatCount), 0, now, now)
        && trace == old(trace) + Dispatched(catchAll, callbackMap, Released, old(holdCount), old(repeatCount))
      ensures old(Classify(now, level)) == HoldStep ==>
        && Machine() == (if old(holdCount) < UCHAR_MAX
                         then MachineState(Pressed, old(holdCount) + 1, old(repeatCount), now, old(releaseTime), now)
                         else MachineState(Pressed, UCHAR_MAX, old(repeatCount), 0, old(releaseTime), now))
        && trace == old(trace) + Dispatched(catchAll, callbackMap, Pressed, holdCount, repeatCount)
      ensures old(Classify(now, level)) == PressEdge ==>
        && Machine() == MachineState(Pressed, old(holdCount), RepeatAfterPress(old(repeatCount), old(releaseTime), now), now, 0, now)
        && trace == old(trace) + Dispatched(catchAll, callbackMap, Pressed, old(holdCount), repeatCount)
    {
      ElapsedIsSub(triggerTime, now);
      ElapsedIsSub(pressTime, now);
      if Sub(now, triggerTime) < debounceDelay {
        return;
      }
      match state {
        case Pressed =>
          if level == pinReleased {
            StepReleaseNoSequence(now);
          } else if pressTime != 0 && level == pinPressed {
            var ml := now;
            if Sub(ml, pressTime) >= HOLD_INTERVAL {
              StepHoldNoSequence(ml);
            }
          }
        case Released =>
          if level == pinPressed {
            StepPress(now);
          }
      }
    }

    // -------------------------------------------------------------------------------------------
    // configuration

    function DebounceDelay(): u32
      reads this
    {
      debounceDelay
    }

    method SetDebounceDelay(newDebounceDelay: u32 := DEFAULT_DEBOUNCE_DELAY)
      requires Valid()
      modifies this
      ensures Valid() && DebounceDelay() == newDebounceDelay
      ensures Config() == old(Config()).(debounceDelay := newDebounceDelay)
      ensures Machine() == old(Machine()) && sequence == old(sequence) && trace == old(trace)
    {
      debounceDelay := newDebounceDelay;
    }

    function PinReleased(): int
      reads this
    {
      pinReleased
    }

    method SetPinReleased(newPinReleased: int := HIGH)
      requires Valid()
      modifies this
      ensures Valid() && PinReleased() == newPinReleased
      ensures Config() == old(Config()).(pinReleased := newPinReleased)
      ensures Machine() == old(Machine()) && sequence == old(sequence) && trace == old(trace)
    {
      pinReleased := newPinReleased;
    }

    function PinPressed(): int
      reads this
    {
      pinPressed
    }

    method SetPinPressed(newPinPressed: int := LOW)
      requires Valid()
      modifies this
      ensures Valid() && PinPressed() == newPinPressed
      ensures Config() == old(Config()).(pinPressed := newPinPressed)
      ensures Machine() == old(Machine()) && sequence == old(sequence) && trace == old(trace)
    {
      pinPressed := newPinPressed;
    }
  }
}
