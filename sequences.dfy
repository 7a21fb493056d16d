/** The sequence matcher `PinButtonSequence`: registered token patterns kept in `std::map` key order, a
    rolling token history trimmed to `_maxSize`, and the first-match scan of `addSequence`. */
module Sequences {
  import opened Actions
  import opened Tokens

  /** One `(pattern, callback)` pair of `_callback`. */
  datatype Entry = Entry(pattern: seq<Token>, action: ActionId)

  /** `std::map` keeps its keys strictly increasing: the entries in iteration order. */
  ghost predicate Sorted(rank: Token -> nat, es: seq<Entry>)
  {
    forall i, j :: 0 <= i < j < |es| ==> LexLess(rank, es[i].pattern, es[j].pattern)
  }

  /** The map an entry list stands for. */
  function AsMap(es: seq<Entry>): map<seq<Token>, ActionId>
  {
    if es == [] then map[] else AsMap(es[1..])[es[0].pattern := es[0].action]
  }

  lemma {:induction false} AsMapKeys(es: seq<Entry>, p: seq<Token>)
    ensures p in AsMap(es) <==> exists e :: e in es && e.pattern == p
  {
    if es != [] {
      AsMapKeys(es[1..], p);
      assert es == [es[0]] + es[1..];
    }
  }

  lemma AsMapEmpty(es: seq<Entry>)
    ensures AsMap(es) == map[] <==> es == []
  {
    if es != [] {
      assert es[0].pattern in AsMap(es);
    }
  }

  /** Sorted entries have distinct patterns, so `_callback.size()` is the number of entries. */
  lemma {:induction false} SortedSize(rank: Token -> nat, es: seq<Entry>)
    requires Sorted(rank, es)
    ensures |AsMap(es)| == |es|
  {
    if es != [] {
      SortedSize(rank, es[1..]);
      AsMapKeys(es[1..], es[0].pattern);
      if es[0].pattern in AsMap(es[1..]) {
        var e :| e in es[1..] && e.pattern == es[0].pattern;
        var j :| 0 <= j < |es[1..]| && es[1..][j] == e;
        assert LexLess(rank, es[0].pattern, es[j + 1].pattern);
        LexIrreflexive(rank, es[0].pattern);
        assert false;
      }
    }
  }

  lemma SortedCons(rank: Token -> nat, e: Entry, r: seq<Entry>)
    requires Sorted(rank, r)
    requires forall x :: x in r ==> LexLess(rank, e.pattern, x.pattern)
    ensures Sorted(rank, [e] + r)
  {
    var s := [e] + r;
    forall i, j | 0 <= i < j < |s|
      ensures LexLess(rank, s[i].pattern, s[j].pattern)
    {
      if i == 0 {
        assert s[j] == r[j - 1] && s[j] in r;
      } else {
        assert s[i] == r[i - 1] && s[j] == r[j - 1];
      }
    }
  }

  lemma SortedHead(rank: Token -> nat, es: seq<Entry>)
    requires Sorted(rank, es) && es != []
    ensures Sorted(rank, es[1..])
    ensures forall x :: x in es[1..] ==> LexLess(rank, es[0].pattern, x.pattern)
  {
    forall x | x in es[1..]
      ensures LexLess(rank, es[0].pattern, x.pattern)
    {
      var j :| 0 <= j < |es[1..]| && es[1..][j] == x;
      assert es[j + 1] == x;
    }
  }

  // ---------------------------------------------------------------------------------------------
  // insertion into and removal from the ordered pattern map

  /** `operator[]` followed by assignment: replace the entry with this key, or insert one in key order. */
  function Insert(rank: Token -> nat, es: seq<Entry>, p: seq<Token>, a: ActionId): seq<Entry>
  {
    if es == [] then [Entry(p, a)]
    else if es[0].pattern == p then [Entry(p, a)] + es[1..]
    else if LexLess(rank, p, es[0].pattern) then [Entry(p, a)] + es
    else [es[0]] + Insert(rank, es[1..], p, a)
  }

  lemma {:induction false} InsertElements(rank: Token -> nat, es: seq<Entry>, p: seq<Token>, a: ActionId)
    ensures Entry(p, a) in Insert(rank, es, p, a)
    ensures forall x :: x in Insert(rank, es, p, a) ==> x == Entry(p, a) || x in es
  {
    if es != [] && es[0].pattern != p && !LexLess(rank, p, es[0].pattern) {
      InsertElements(rank, es[1..], p, a);
    }
  }

  lemma {:induction false} InsertSorted(rank: Token -> nat, es: seq<Entry>, p: seq<Token>, a: ActionId)
    requires DistinctRanks(rank) && Sorted(rank, es)
    ensures Sorted(rank, Insert(rank, es, p, a))
  {
    if es == [] {
    } else if es[0].pattern == p {
      SortedHead(rank, es);
      SortedCons(rank, Entry(p, a), es[1..]);
    } else if LexLess(rank, p, es[0].pattern) {
      forall x | x in es
        ensures LexLess(rank, p, x.pattern)
      {
        var j :| 0 <= j < |es| && es[j] == x;
        if j > 0 {
          LexTransitive(rank, p, es[0].pattern, x.pattern);
        }
      }
      SortedCons(rank, Entry(p, a), es);
    } else {
      LexTrichotomy(rank, p, es[0].pattern);
      SortedHead(rank, es);
      InsertSorted(rank, es[1..], p, a);
      InsertElements(rank, es[1..], p, a);
      SortedCons(rank, es[0], Insert(rank, es[1..], p, a));
    }
  }

  lemma {:induction false} InsertAsMap(rank: Token -> nat, es: seq<Entry>, p: seq<Token>, a: ActionId)
    ensures AsMap(Insert(rank, es, p, a)) == AsMap(es)[p := a]
  {
    var r := Insert(rank, es, p, a);
    if es == [] {
      assert r[1..] == [];
    } else if es[0].pattern == p {
      assert r[1..] == es[1..];
    } else if LexLess(rank, p, es[0].pattern) {
      assert r[1..] == es;
    } else {
      assert r[1..] == Insert(rank, es[1..], p, a);
      InsertAsMap(rank, es[1..], p, a);
    }
  }

  /** `erase(pattern)`: drop the entry with this key, if any. */
  function Erase(es: seq<Entry>, p: seq<Token>): seq<Entry>
  {
    if es == [] then []
    else if es[0].pattern == p then Erase(es[1..], p)
    else [es[0]] + Erase(es[1..], p)
  }

  lemma {:induction false} EraseElements(es: seq<Entry>, p: seq<Token>)
    ensures forall x :: x in Erase(es, p) <==> x in es && x.pattern != p
  {
    if es != [] {
      EraseElements(es[1..], p);
      assert es == [es[0]] + es[1..];
    }
  }

  lemma {:induction false} EraseSorted(rank: Token -> nat, es: seq<Entry>, p: seq<Token>)
    requires Sorted(rank, es)
    ensures Sorted(rank, Erase(es, p))
  {
    if es != [] {
      SortedHead(rank, es);
      EraseSorted(rank, es[1..], p);
      if es[0].pattern != p {
        EraseElements(es[1..], p);
        SortedCons(rank, es[0], Erase(es[1..], p));
      }
    }
  }

  lemma {:induction false} EraseAsMap(es: seq<Entry>, p: seq<Token>)
    ensures AsMap(Erase(es, p)) == AsMap(es) - {p}
  {
    if es != [] {
      EraseAsMap(es[1..], p);
      if es[0].pattern != p {
        assert ([es[0]] + Erase(es[1..], p))[1..] == Erase(es[1..], p);
      }
    }
  }

  // ---------------------------------------------------------------------------------------------
  // `_maxSize`

  /** The longest pattern length, as the recompute loop accumulates it front to back. */
  function MaxLength(es: seq<Entry>): nat
  {
    if es == [] then 0
    else
      var m := MaxLength(es[..|es| - 1]);
      var l := |es[|es| - 1].pattern|;
      if m < l then l else m
  }

  lemma {:induction false} MaxLengthIsMax(es: seq<Entry>)
    ensures forall e :: e in es ==> |e.pattern| <= MaxLength(es)
    ensures es != [] ==> exists e :: e in es && |e.pattern| == MaxLength(es)
    ensures es == [] ==> MaxLength(es) == 0
  {
    if es != [] {
      var init := es[..|es| - 1];
      MaxLengthIsMax(init);
      assert es == init + [es[|es| - 1]];
      assert es[|es| - 1] in es;
      if init != [] {
        var e :| e in init && |e.pattern| == MaxLength(init);
        assert e in es;
      }
    }
  }

  /** `_maxSize` after `erase`: recomputed only when it equals the number of remaining patterns plus
      one, otherwise left as it was. */
  function BoundAfterErase(oldMax: nat, remaining: seq<Entry>): nat
  {
    if oldMax == |remaining| + 1 then MaxLength(remaining) else oldMax
  }

  /** Whether or not the guard recomputes it, the bound still covers every remaining pattern. */
  lemma BoundAfterEraseCovers(oldMax: nat, remaining: seq<Entry>)
    requires forall e :: e in remaining ==> |e.pattern| <= oldMax
    ensures forall e :: e in remaining ==> |e.pattern| <= BoundAfterErase(oldMax, remaining)
  {
    MaxLengthIsMax(remaining);
  }

  /** The guard is about the number of patterns, not their lengths: removing a three-token pattern and
      leaving one one-token pattern keeps the bound at three. */
  lemma BoundAfterEraseStale(a: ActionId)
    ensures BoundAfterErase(3, [Entry([Short], a)]) == 3
    ensures MaxLength([Entry([Short], a)]) == 1
  {
    assert [Entry([Short], a)][..0] == [];
  }

  /** When the count happens to match, the bound becomes the longest remaining pattern: no larger than
      before, and the length of one remaining pattern when any remain. */
  lemma BoundAfterEraseShrinks(oldMax: nat, remaining: seq<Entry>)
    requires oldMax == |remaining| + 1
    requires forall e :: e in remaining ==> |e.pattern| <= oldMax
    ensures BoundAfterErase(oldMax, remaining) == MaxLength(remaining) <= oldMax
    ensures remaining != [] ==> exists e :: e in remaining && |e.pattern| == BoundAfterErase(oldMax, remaining)
    ensures remaining == [] ==> BoundAfterErase(oldMax, remaining) == 0
  {
    MaxLengthIsMax(remaining);
  }

  /** For example, removing `[Short, Short]` and leaving `[Short]` shrinks the bound from two to one. */
  lemma BoundAfterEraseShrinksExample(a: ActionId)
    ensures BoundAfterErase(2, [Entry([Short], a)]) == 1
  {
    BoundAfterEraseStale(a);
  }

  /** The recompute loop of `onSequence`. */
  method MaxPatternLength(es: seq<Entry>) returns (m: nat)
    ensures m == MaxLength(es)
  {
    m := 0;
    for i := 0 to |es|
      invariant m == MaxLength(es[..i])
    {
      assert es[..i + 1][..i] == es[..i];
      m := if m < |es[i].pattern| then |es[i].pattern| else m;
    }
    assert es[..|es|] == es;
  }

  // ---------------------------------------------------------------------------------------------
  // matching

  /** `key` equals the trailing `key.size()` tokens of the history. */
  predicate Matches(key: seq<Token>, h: seq<Token>)
  {
    |key| <= |h| && h[|h| - |key|..] == key
  }

  /** The first entry, in key order, whose pattern matches. */
  function FirstMatch(es: seq<Entry>, h: seq<Token>): Option<Entry>
  {
    if es == [] then None
    else if Matches(es[0].pattern, h) then Some(es[0])
    else FirstMatch(es[1..], h)
  }

  lemma {:induction false} FirstMatchSpec(es: seq<Entry>, h: seq<Token>)
    ensures FirstMatch(es, h).Some? ==>
      exists k :: 0 <= k < |es| && es[k] == FirstMatch(es, h).value && Matches(es[k].pattern, h)
        && forall j :: 0 <= j < k ==> !Matches(es[j].pattern, h)
    ensures FirstMatch(es, h).None? <==> forall j :: 0 <= j < |es| ==> !Matches(es[j].pattern, h)
  {
    if es != [] && !Matches(es[0].pattern, h) {
      FirstMatchSpec(es[1..], h);
      if FirstMatch(es, h).Some? {
        var k :| 0 <= k < |es[1..]| && es[1..][k] == FirstMatch(es, h).value && Matches(es[1..][k].pattern, h)
          && forall j :: 0 <= j < k ==> !Matches(es[1..][j].pattern, h);
        assert es[k + 1] == FirstMatch(es, h).value;
        forall j | 0 <= j < k + 1
          ensures !Matches(es[j].pattern, h)
        {
          if j > 0 { assert es[j] == es[1..][j - 1]; }
        }
      } else {
        forall j | 0 <= j < |es|
          ensures !Matches(es[j].pattern, h)
        {
          if j > 0 { assert es[j] == es[1..][j - 1]; }
        }
      }
    }
  }

  /** Over a sorted map the first match is the lexicographically least matching pattern, which need not
      be the longest one. */
  lemma FirstMatchIsLeast(rank: Token -> nat, es: seq<Entry>, h: seq<Token>, e: Entry)
    requires Sorted(rank, es)
    requires FirstMatch(es, h) == Some(e)
    ensures e in es && Matches(e.pattern, h)
    ensures forall x :: x in es && Matches(x.pattern, h) && x != e ==> LexLess(rank, e.pattern, x.pattern)
  {
    FirstMatchSpec(es, h);
    var k :| 0 <= k < |es| && es[k] == e && Matches(es[k].pattern, h)
      && forall j :: 0 <= j < k ==> !Matches(es[j].pattern, h);
    forall x | x in es && Matches(x.pattern, h) && x != e
      ensures LexLess(rank, e.pattern, x.pattern)
    {
      var i :| 0 <= i < |es| && es[i] == x;
      assert i > k;
    }
  }

  /** In a sorted list each pattern occurs once, so the map view returns the entry's own action. */
  lemma {:induction false} AsMapLookup(rank: Token -> nat, es: seq<Entry>, e: Entry)
    requires Sorted(rank, es) && e in es
    ensures e.pattern in AsMap(es) && AsMap(es)[e.pattern] == e.action
  {
    if e != es[0] {
      SortedHead(rank, es);
      assert e in es[1..];
      LexIrreflexive(rank, e.pattern);
      AsMapLookup(rank, es[1..], e);
    }
  }

  /** The first match stated on the map `_callback` itself: no callback exactly when no registered pattern
      equals the tail of the history; otherwise the registered pair whose pattern matches and sorts before
      every other matching pattern. */
  lemma FirstMatchByMap(rank: Token -> nat, es: seq<Entry>, h: seq<Token>)
    requires Sorted(rank, es)
    ensures FirstMatch(es, h).None? <==> forall p :: p in AsMap(es) ==> !Matches(p, h)
    ensures FirstMatch(es, h).Some? ==>
      && FirstMatch(es, h).value.pattern in AsMap(es)
      && AsMap(es)[FirstMatch(es, h).value.pattern] == FirstMatch(es, h).value.action
      && Matches(FirstMatch(es, h).value.pattern, h)
      && forall p :: p in AsMap(es) && Matches(p, h) && p != FirstMatch(es, h).value.pattern
           ==> LexLess(rank, FirstMatch(es, h).value.pattern, p)
  {
    FirstMatchSpec(es, h);
    if FirstMatch(es, h).Some? {
      var e := FirstMatch(es, h).value;
      FirstMatchIsLeast(rank, es, h, e);
      AsMapLookup(rank, es, e);
      forall p | p in AsMap(es) && Matches(p, h) && p != e.pattern
        ensures LexLess(rank, e.pattern, p)
      {
        AsMapKeys(es, p);
        var x :| x in es && x.pattern == p;
      }
      assert !(forall p :: p in AsMap(es) ==> !Matches(p, h));
    } else {
      forall p | p in AsMap(es)
        ensures !Matches(p, h)
      {
        AsMapKeys(es, p);
        var x :| x in es && x.pattern == p;
        var i :| 0 <= i < |es| && es[i] == x;
      }
    }
  }

  /** The scan of `addSequence`: skip keys longer than the history or not equal to its tail, invoke the
      first one that is, and stop. */
  method ScanFirstMatch(es: seq<Entry>, h: seq<Token>) returns (fired: Option<Entry>)
    ensures fired == FirstMatch(es, h)
  {
    fired := None;
    for i := 0 to |es|
      invariant FirstMatch(es[i..], h) == FirstMatch(es, h)
      invariant fired == None
    {
      assert es[i..][1..] == es[i + 1..];
      var key := es[i].pattern;
      if |key| > |h| {
        continue;
      }
      if h[|h| - |key|..] != key {
        continue;
      }
      fired := Some(es[i]);
      return;
    }
  }

  // ---------------------------------------------------------------------------------------------
  // history

  /** The history after dropping tokens from the front until it holds at most `n`: its last `n` tokens. */
  function Trim(h: seq<Token>, n: nat): (r: seq<Token>)
    ensures |r| == if |h| <= n then |h| else n
    ensures r == h[|h| - |r|..]
  {
    if |h| <= n then h else h[|h| - n..]
  }

  /** The history after one `addSequence(t)`: unchanged while no pattern is registered. */
  function FedHistory(es: seq<Entry>, maxSize: nat, h: seq<Token>, t: Token): seq<Token>
  {
    if es == [] then h else Trim(h + [t], maxSize)
  }

  /** The callback one `addSequence(t)` invokes, if any. */
  function FedAction(es: seq<Entry>, maxSize: nat, h: seq<Token>, t: Token): Option<Entry>
  {
    if es == [] then None else FirstMatch(es, FedHistory(es, maxSize, h, t))
  }

  /** After a token is fed to a matcher with patterns, the history is a suffix of the old history followed
      by the token, no longer than the bound, and ends in the token if the bound is positive. */
  lemma FedHistoryBound(es: seq<Entry>, maxSize: nat, h: seq<Token>, t: Token)
    requires es != []
    ensures |FedHistory(es, maxSize, h, t)| <= maxSize
    ensures FedHistory(es, maxSize, h, t) == (h + [t])[|h| + 1 - |FedHistory(es, maxSize, h, t)|..]
    ensures 0 < maxSize ==> FedHistory(es, maxSize, h, t)[|FedHistory(es, maxSize, h, t)| - 1] == t
  {
    var r := FedHistory(es, maxSize, h, t);
    if 0 < maxSize {
      assert r[|r| - 1] == (h + [t])[|h|];
    }
  }

  /** With `[Short]` and `[Short, Short]` registered (in either order), every `Short` fires only the
      one-token pattern, whatever the token ranks: the prefix sorts first and always matches too. */
  lemma ShortShadowsDoubleShort(rank: Token -> nat, a: ActionId, b: ActionId, h: seq<Token>)
    requires DistinctRanks(rank)
    ensures Insert(rank, Insert(rank, [], [Short, Short], b), [Short], a)
      == Insert(rank, Insert(rank, [], [Short], a), [Short, Short], b)
      == [Entry([Short], a), Entry([Short, Short], b)]
    ensures FedAction([Entry([Short], a), Entry([Short, Short], b)], 2, h, Short) == Some(Entry([Short], a))
  {
    PrefixBeforeExtension(rank, [Short], [Short]);
    LexAsymmetric(rank, [Short], [Short, Short]);
    assert [Short] + [Short] == [Short, Short];
    var r := FedHistory([Entry([Short], a), Entry([Short, Short], b)], 2, h, Short);
    FedHistoryBound([Entry([Short], a), Entry([Short, Short], b)], 2, h, Short);
    assert r[|r| - 1..] == [Short];
  }

  // ---------------------------------------------------------------------------------------------

  /** `PinButtonSequence`: the registered patterns, the rolling history and its bound. */
  class SequenceMatcher {
    const rank: Token -> nat
    var entries: seq<Entry>
    var history: seq<Token>
    var maxSize: nat

    /** Keys in strict order, every pattern non-empty and within the bound. The history itself may exceed
        the bound after a removal, until the next token is fed. */
    ghost predicate Valid()
      reads this
    {
      && DistinctRanks(rank)
      && Sorted(rank, entries)
      && forall e :: e in entries ==> 0 < |e.pattern| <= maxSize
    }

    constructor (rank: Token -> nat)
      requires DistinctRanks(rank)
      ensures Valid() && this.rank == rank
      ensures entries == [] && history == [] && maxSize == 0
    {
      this.rank := rank;
      entries := [];
      history := [];
      maxSize := 0;
    }

    /** `addSequence(token)`: returns the entry whose callback is invoked, if any. */
    method AddSequence(t: Token) returns (fired: Option<Entry>)
      requires Valid()
      modifies this
      ensures Valid() && entries == old(entries) && maxSize == old(maxSize)
      ensures history == FedHistory(entries, maxSize, old(history), t)
      ensures fired == FedAction(entries, maxSize, old(history), t)
    {
      if entries == [] {
        return None;
      }
      var h := history + [t];
      ghost var full := h;
      while maxSize < |h|
        invariant |h| <= |full| && h == full[|full| - |h|..]
        invariant |full| <= maxSize ==> h == full
        invariant |full| > maxSize ==> |h| >= maxSize
        decreases |h|
      {
        h := h[1..];
      }
      history := h;
      fired := ScanFirstMatch(entries, history);
    }

    /** Registers or replaces the callback of a pattern and widens the history bound to cover it. */
    method Register(p: seq<Token>, a: ActionId)
      requires Valid() && |p| > 0
      modifies this
      ensures Valid()
      ensures entries == Insert(rank, old(entries), p, a)
      ensures AsMap(entries) == old(AsMap(entries))[p := a]
      ensures maxSize == if old(maxSize) < |p| then |p| else old(maxSize)
      ensures history == old(history)
    {
      InsertSorted(rank, entries, p, a);
      InsertElements(rank, entries, p, a);
      InsertAsMap(rank, entries, p, a);
      entries := Insert(rank, entries, p, a);
      maxSize := if maxSize < |p| then |p| else maxSize;
    }

    /** `_callback.erase(pattern)`, then the guarded recompute of `_maxSize`. */
    method Unregister(p: seq<Token>)
      requires Valid()
      modifies this
      ensures Valid()
      ensures entries == Erase(old(entries), p)
      ensures AsMap(entries) == old(AsMap(entries)) - {p}
      ensures maxSize == BoundAfterErase(old(maxSize), entries)
      ensures history == old(history)
    {
      EraseSorted(rank, entries, p);
      EraseElements(entries, p);
      EraseAsMap(entries, p);
      entries := Erase(entries, p);
      BoundAfterEraseCovers(maxSize, entries);
      if maxSize == |entries| + 1 {
        maxSize := MaxPatternLength(entries);
      }
    }
  }
}
