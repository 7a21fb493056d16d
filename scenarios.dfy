/** Whole-object runs of `PinButtonEvents`: a fresh button, a few registrations and clock samples, and
    the callbacks they invoke. */
module Scenarios {
  import opened Clock
  import opened Actions
  import opened Tokens
  import opened Dispatch
  import opened Sequences
  import opened Button

  /** Two keys sort `[Short]` before `[Short, Short]`, and a history ending in `Short` matches the first,
      so the scan over them always stops at `[Short]`. */
  lemma ShortPatternFiresFirst(rank: Token -> nat, es: seq<Entry>, h: seq<Token>)
    requires Sorted(rank, es)
    requires AsMap(es) == map[[Short] := 1, [Short, Short] := 2]
    requires h != [] && h[|h| - 1] == Short
    ensures FirstMatch(es, h) == Some(Entry([Short], 1))
  {
    FirstMatchByMap(rank, es, h);
    assert h[|h| - 1..] == [Short];
    assert Matches([Short], h);
    PrefixBeforeExtension(rank, [Short], [Short]);
    assert [Short] + [Short] == [Short, Short];
    LexAsymmetric(rank, [Short], [Short, Short]);
    var e := FirstMatch(es, h).value;
    assert e.pattern in map[[Short] := 1, [Short, Short] := 2];
    assert e.pattern == [Short];
  }

  /** A fresh button with `[Short]` (action 1) and `[Short, Short]` (action 2) registered. */
  method ShortPatternsButton(rank: Token -> nat) returns (b: PinButtonEvents)
    requires DistinctRanks(rank)
    ensures fresh(b) && b.sequence != null && fresh(b.sequence) && b.rank == rank
    ensures b.Valid() && b.trace == [] && b.History() == []
    ensures b.Machine() == MachineState(Released, 0, 0, 0, 0, 0)
    ensures b.Config() == Configuration(0, None, map[], DEFAULT_DEBOUNCE_DELAY, HIGH, LOW)
    ensures b.Patterns() == map[[Short] := 1, [Short, Short] := 2] && b.MaxSize() == 2
  {
    b := new PinButtonEvents(rank);
    b.OnSequence([Short], Some(1));
    b.OnSequence([Short, Short], Some(2));
  }

  /** A press edge at `now` on a button with no callbacks registered for it. */
  method PressWithoutCallbacks(b: PinButtonEvents, now: u32)
    requires b.Valid() && b.state == Released && b.catchAll == None && b.callbackMap == map[]
    requires b.pinPressed == LOW && Elapsed(b.triggerTime, now) >= b.debounceDelay
    modifies b, b.sequence
    ensures b.Valid() && b.sequence == old(b.sequence) && b.Config() == old(b.Config())
    ensures b.Patterns() == old(b.Patterns()) && b.MaxSize() == old(b.MaxSize()) && b.History() == old(b.History())
    ensures b.Machine() == MachineState(Pressed, 0, RepeatAfterPress(old(b.repeatCount), old(b.releaseTime), now), now, 0, now)
    ensures b.trace == old(b.trace)
  {
    DispatchedNothingRegistered(Pressed, 0, RepeatAfterPress(b.repeatCount, b.releaseTime, now));
    b.Update(now, LOW);
  }

  /** A release edge at `now`, without hold steps, on a button with no keyed callbacks: it feeds `Short`. */
  method ReleaseWithoutCallbacks(b: PinButtonEvents, now: u32)
    requires b.Valid() && b.state == Pressed && b.holdCount == 0 && b.catchAll == None && b.callbackMap == map[]
    requires b.pinReleased == HIGH && Elapsed(b.triggerTime, now) >= b.debounceDelay
    modifies b, b.sequence
    ensures b.Valid() && b.sequence == old(b.sequence) && b.Config() == old(b.Config())
    ensures b.Patterns() == old(b.Patterns()) && b.MaxSize() == old(b.MaxSize())
    ensures b.Machine() == MachineState(Released, 0, old(b.repeatCount), 0, now, now)
    ensures b.History() == old(b.FeedHistory(Short))
    ensures b.trace == old(b.trace) + old(b.FeedTrace(Short))
  {
    DispatchedNothingRegistered(Released, 0, b.repeatCount);
    b.Update(now, HIGH);
  }

  /** One short click on a button with `[Short]` and `[Short, Short]` registered and no other callbacks:
      the release feeds `Short` and invokes the `[Short]` callback, whatever the history was. */
  method ClickOnShortPatterns(b: PinButtonEvents, pressAt: u32, releaseAt: u32)
    requires b.Valid() && b.sequence != null && b.state == Released
    requires b.catchAll == None && b.callbackMap == map[] && b.pinReleased == HIGH && b.pinPressed == LOW
    requires b.Patterns() == map[[Short] := 1, [Short, Short] := 2] && b.MaxSize() == 2
    requires Elapsed(b.triggerTime, pressAt) >= b.debounceDelay && Elapsed(pressAt, releaseAt) >= b.debounceDelay
    modifies b, b.sequence
    ensures b.Valid() && b.sequence == old(b.sequence) && b.Config() == old(b.Config())
    ensures b.Patterns() == old(b.Patterns()) && b.MaxSize() == 2
    ensures b.Machine() == MachineState(Released, 0, RepeatAfterPress(old(b.repeatCount), old(b.releaseTime), pressAt),
                                        0, releaseAt, releaseAt)
    ensures b.History() == Trim(old(b.History()) + [Short], 2)
    ensures b.trace == old(b.trace) + [Pattern(1, [Short])]
  {
    PressWithoutCallbacks(b, pressAt);
    ShortPatternFiresFirst(b.rank, b.sequence.entries, Trim(b.History() + [Short], 2));
    ReleaseWithoutCallbacks(b, releaseAt);
  }

  /** That button after one click, pressed at tick 100 and released at tick 300: `[Short]` has fired. */
  method ClickedOnce(rank: Token -> nat) returns (b: PinButtonEvents)
    requires DistinctRanks(rank)
    ensures fresh(b) && b.sequence != null && fresh(b.sequence)
    ensures b.Valid() && b.trace == [Pattern(1, [Short])] && b.History() == [Short]
    ensures b.Machine() == MachineState(Released, 0, 0, 0, 300, 300)
    ensures b.Config() == Configuration(0, None, map[], DEFAULT_DEBOUNCE_DELAY, HIGH, LOW)
    ensures b.Patterns() == map[[Short] := 1, [Short, Short] := 2] && b.MaxSize() == 2
  {
    b := ShortPatternsButton(rank);
    ClickOnShortPatterns(b, 100, 300);
  }

  /** A second click within the repeat window, pressed at 400 and released at 500: each release feeds
      `Short`, the one-token pattern is the first match both times, and action 2 never runs. */
  method DoubleClickWithShadowedPattern(rank: Token -> nat) returns (b: PinButtonEvents)
    requires DistinctRanks(rank)
    ensures b.trace == [Pattern(1, [Short]), Pattern(1, [Short])]
    ensures b.state == Released && b.repeatCount == 1 && b.History() == [Short, Short]
  {
    b := ClickedOnce(rank);
    ClickOnShortPatterns(b, 400, 500);
  }

  /** A press sampled when the clock reads 0 stores 0 as the press time, which means "no timer": however
      long the button is then held, no hold step follows. */
  method PressAtTickZeroNeverHolds(rank: Token -> nat, later: u32) returns (b: PinButtonEvents)
    requires DistinctRanks(rank)
    ensures b.state == Pressed && b.holdCount == 0 && b.pressTime == 0
    ensures b.trace == [Keyed(1, Key(Pressed, STATE_ANY, STATE_ANY))]
  {
    b := new PinButtonEvents(rank);
    b.OnState(Pressed, Some(1));
    b.SetDebounceDelay(0);
    FoundLookupKeys(b.callbackMap, Pressed, 0, 0);
    b.Update(0, LOW);
    b.Update(later, LOW);
  }

  /** With the default 30-tick debounce delay and the trigger time starting at 0, a fresh button ignores
      every sample before tick 30, a press included. */
  method FreshButtonIgnoresFirstTicks(rank: Token -> nat, now: u32, level: int) returns (b: PinButtonEvents)
    requires DistinctRanks(rank) && now < DEFAULT_DEBOUNCE_DELAY
    ensures b.Machine() == MachineState(Released, 0, 0, 0, 0, 0) && b.trace == []
  {
    b := new PinButtonEvents(rank);
    b.OnAll(Some(1));
    b.Update(now, level);
  }
}
