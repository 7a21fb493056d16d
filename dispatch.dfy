/** The callback registry: keys, the fired-callback trace, and the fixed lookup order of `triggerEvent`. */
module Dispatch {
  import opened Actions
  import opened Tokens

  type u8 = x: int | 0 <= x < 256

  const UCHAR_MAX: u8 := 255

  /** The conversion of an `int` to `unsigned char`: reduction modulo 2^8. */
  function ToUnsignedChar(x: int): u8
  {
    x % 256
  }

  /** `STATE_ANY`, the `int` -1 stored in an `unsigned char` key component: the value 255, the same value
      a saturated hold or repeat count has. */
  const STATE_ANY: u8 := 255

  lemma StateAnyIsMinusOne()
    ensures STATE_ANY == ToUnsignedChar(-1) == UCHAR_MAX
  {
  }

  /** `PinButtonEvents::State`, an `enum class` over `bool`: exactly two values. */
  datatype State = Pressed | Released

  /** The `std::tuple<State, unsigned char, unsigned char>` key of `_callbackMap`. */
  datatype Key = Key(state: State, hold: u8, repeat: u8)

  /** One callback invocation, as recorded in the trace: the catch-all with its three arguments, a keyed
      callback with the key it was found under, or a sequence callback with its pattern. */
  datatype Fired =
    | CatchAll(action: ActionId, state: State, hold: u8, repeat: u8)
    | Keyed(action: ActionId, key: Key)
    | Pattern(action: ActionId, pattern: seq<Token>)

  /** The keys `triggerEvent` looks up, in the order it looks them up: the two hold wildcards only when
      there is no hold step. */
  function LookupKeys(s: State, h: u8, r: u8): seq<Key>
  {
    if h == 0 then [Key(s, h, r), Key(s, STATE_ANY, STATE_ANY), Key(s, STATE_ANY, r), Key(s, h, STATE_ANY)]
    else [Key(s, h, r), Key(s, h, STATE_ANY)]
  }

  /** The invocation one lookup `_callbackMap.find(k)` causes: none when the key is absent. */
  function LookUp(m: map<Key, ActionId>, k: Key): seq<Fired>
  {
    if k in m then [Keyed(m[k], k)] else []
  }

  /** One invocation for each looked-up key that is registered, in lookup order. */
  function Found(m: map<Key, ActionId>, ks: seq<Key>): seq<Fired>
  {
    if ks == [] then [] else LookUp(m, ks[0]) + Found(m, ks[1..])
  }

  /** The lookups of `triggerEvent`, one after the other. */
  lemma FoundLookupKeys(m: map<Key, ActionId>, s: State, h: u8, r: u8)
    ensures Found(m, LookupKeys(s, h, r)) ==
      if h == 0 then LookUp(m, Key(s, h, r)) + LookUp(m, Key(s, STATE_ANY, STATE_ANY))
                     + LookUp(m, Key(s, STATE_ANY, r)) + LookUp(m, Key(s, h, STATE_ANY))
      else LookUp(m, Key(s, h, r)) + LookUp(m, Key(s, h, STATE_ANY))
  {
    var ks := LookupKeys(s, h, r);
    var last := [Key(s, h, STATE_ANY)];
    assert Found(m, last) == LookUp(m, Key(s, h, STATE_ANY)) by {
      assert last[1..] == [];
    }
    if h == 0 {
      var k3 := [Key(s, STATE_ANY, r), Key(s, h, STATE_ANY)];
      var k2 := [Key(s, STATE_ANY, STATE_ANY)] + k3;
      assert ks[1..] == k2 && k2[1..] == k3 && k3[1..] == last;
      assert Found(m, k3) == LookUp(m, Key(s, STATE_ANY, r)) + LookUp(m, Key(s, h, STATE_ANY));
      assert Found(m, k2) == LookUp(m, Key(s, STATE_ANY, STATE_ANY)) + Found(m, k3);
    } else {
      assert ks[1..] == last;
    }
  }

  lemma AppendAssociative(a: seq<Fired>, b: seq<Fired>, c: seq<Fired>)
    ensures a + (b + c) == (a + b) + c
  {
  }

  /** What one `triggerEvent` invokes: the catch-all first, then the keyed lookups. */
  function Dispatched(catchAll: Option<ActionId>, m: map<Key, ActionId>, s: State, h: u8, r: u8): seq<Fired>
  {
    (if catchAll.Some? then [CatchAll(catchAll.value, s, h, r)] else []) + Found(m, LookupKeys(s, h, r))
  }

  /** With no catch-all and no keyed callback registered, an event invokes nothing. */
  lemma DispatchedNothingRegistered(s: State, h: u8, r: u8)
    ensures Dispatched(None, map[], s, h, r) == []
  {
    FoundLookupKeys(map[], s, h, r);
  }

  /** Independent description of which registered keys an event (s, h, r) reaches: the exact key and the
      hold-specific repeat wildcard always, and the two hold wildcards only for an event with no hold step. */
  predicate Applies(k: Key, s: State, h: u8, r: u8)
  {
    && k.state == s
    && ((k.hold == h && (k.repeat == r || k.repeat == STATE_ANY))
        || (h == 0 && k.hold == STATE_ANY && (k.repeat == STATE_ANY || k.repeat == r)))
  }

  lemma {:induction false} FoundMember(m: map<Key, ActionId>, ks: seq<Key>, f: Fired)
    ensures f in Found(m, ks) <==> f.Keyed? && f.key in ks && f.key in m && m[f.key] == f.action
  {
    if ks != [] {
      FoundMember(m, ks[1..], f);
      assert ks == [ks[0]] + ks[1..];
    }
  }

  lemma {:induction false} FoundOnlyKeyed(m: map<Key, ActionId>, ks: seq<Key>, i: nat)
    requires i < |Found(m, ks)|
    ensures Found(m, ks)[i].Keyed?
  {
    if ks != [] {
      if i >= |LookUp(m, ks[0])| {
        FoundOnlyKeyed(m, ks[1..], i - |LookUp(m, ks[0])|);
      }
    }
  }

  /** A keyed callback fires on an event exactly when its key is registered and applies to the event. */
  lemma DispatchedKeyed(catchAll: Option<ActionId>, m: map<Key, ActionId>, s: State, h: u8, r: u8, a: ActionId, k: Key)
    ensures Keyed(a, k) in Dispatched(catchAll, m, s, h, r) <==> k in m && m[k] == a && Applies(k, s, h, r)
  {
    FoundMember(m, LookupKeys(s, h, r), Keyed(a, k));
  }

  /** The catch-all, when set, is invoked first, with the event's three values, and nowhere else. */
  lemma DispatchedCatchAll(catchAll: Option<ActionId>, m: map<Key, ActionId>, s: State, h: u8, r: u8)
    ensures catchAll.Some? ==> Dispatched(catchAll, m, s, h, r)[0] == CatchAll(catchAll.value, s, h, r)
    ensures forall i :: 0 <= i < |Dispatched(catchAll, m, s, h, r)| && Dispatched(catchAll, m, s, h, r)[i].CatchAll?
              ==> i == 0 && catchAll.Some?
  {
    var d := Dispatched(catchAll, m, s, h, r);
    var c := if catchAll.Some? then [CatchAll(catchAll.value, s, h, r)] else [];
    forall i | 0 <= i < |d| && d[i].CatchAll?
      ensures i == 0 && catchAll.Some?
    {
      if i >= |c| {
        FoundOnlyKeyed(m, LookupKeys(s, h, r), i - |c|);
      }
    }
  }

  /** Each of the at most four lookups fires at most once: at most five invocations, at most three for a
      hold step. */
  lemma DispatchedLength(catchAll: Option<ActionId>, m: map<Key, ActionId>, s: State, h: u8, r: u8)
    ensures |Dispatched(catchAll, m, s, h, r)| <= 5
    ensures h != 0 ==> |Dispatched(catchAll, m, s, h, r)| <= 3
  {
    FoundLookupKeys(m, s, h, r);
  }

  /** With a catch-all, an exact key and all three wildcards registered, an event without a hold step and
      with a repeat count below saturation fires all five, in the documented order, each under a key of
      its own. */
  lemma DispatchedFullOrder(c: ActionId, m: map<Key, ActionId>, s: State, r: u8)
    requires r != STATE_ANY
    requires Key(s, 0, r) in m && Key(s, STATE_ANY, STATE_ANY) in m
    requires Key(s, STATE_ANY, r) in m && Key(s, 0, STATE_ANY) in m
    ensures Dispatched(Some(c), m, s, 0, r) ==
      [ CatchAll(c, s, 0, r),
        Keyed(m[Key(s, 0, r)], Key(s, 0, r)),
        Keyed(m[Key(s, STATE_ANY, STATE_ANY)], Key(s, STATE_ANY, STATE_ANY)),
        Keyed(m[Key(s, STATE_ANY, r)], Key(s, STATE_ANY, r)),
        Keyed(m[Key(s, 0, STATE_ANY)], Key(s, 0, STATE_ANY)) ]
    ensures var ks := LookupKeys(s, 0, r);
      forall i, j :: 0 <= i < j < |ks| ==> ks[i] != ks[j]
  {
    FoundLookupKeys(m, s, 0, r);
  }

  /** Because the wildcard is the value 255, a callback registered with `on(state, cb)` fires twice on an
      event with no hold step and a saturated repeat count. */
  lemma StateCallbackTwiceAtSaturatedRepeat(s: State, a: ActionId)
    ensures Dispatched(None, map[Key(s, STATE_ANY, STATE_ANY) := a], s, 0, UCHAR_MAX)
      == [Keyed(a, Key(s, STATE_ANY, STATE_ANY)), Keyed(a, Key(s, STATE_ANY, STATE_ANY))]
  {
    FoundLookupKeys(map[Key(s, STATE_ANY, STATE_ANY) := a], s, 0, UCHAR_MAX);
  }

  /** For the same reason, a callback registered with `on(state, cb)` fires on a hold step once the hold
      count has saturated, although hold steps otherwise skip the hold wildcards. */
  lemma StateCallbackOnSaturatedHold(s: State, r: u8, a: ActionId)
    ensures Dispatched(None, map[Key(s, STATE_ANY, STATE_ANY) := a], s, UCHAR_MAX, r)
      == if r == STATE_ANY then [Keyed(a, Key(s, STATE_ANY, STATE_ANY)), Keyed(a, Key(s, STATE_ANY, STATE_ANY))]
         else [Keyed(a, Key(s, STATE_ANY, STATE_ANY))]
  {
    FoundLookupKeys(map[Key(s, STATE_ANY, STATE_ANY) := a], s, UCHAR_MAX, r);
  }

  /** A hold step below saturation never reaches a callback registered with `on(state, cb)`. */
  lemma StateCallbackSilentOnHoldSteps(catchAll: Option<ActionId>, m: map<Key, ActionId>, s: State, h: u8, r: u8, a: ActionId)
    requires 0 < h < UCHAR_MAX
    ensures Keyed(a, Key(s, STATE_ANY, STATE_ANY)) !in Dispatched(catchAll, m, s, h, r)
  {
    DispatchedKeyed(catchAll, m, s, h, r, a, Key(s, STATE_ANY, STATE_ANY));
  }
}
