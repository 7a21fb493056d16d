/** Gesture tokens (`PinButtonEvents::Sequence`) and the order `std::vector<Sequence>` keys are kept in. */
module Tokens {

  datatype Token = Short | Long | Pause

  /** The numeric values of the enumerators are not part of this model: the order of tokens is a
      parameter, any assignment of three distinct numbers. */
  predicate DistinctRanks(rank: Token -> nat)
  {
    rank(Short) != rank(Long) && rank(Short) != rank(Pause) && rank(Long) != rank(Pause)
  }

  lemma RankInjective(rank: Token -> nat, a: Token, b: Token)
    requires DistinctRanks(rank)
    requires rank(a) == rank(b)
    ensures a == b
  {
  }

  /** `operator<` of `std::vector`: lexicographic comparison; a proper prefix is smaller. */
  predicate LexLess(rank: Token -> nat, a: seq<Token>, b: seq<Token>)
    decreases |a|
  {
    if |b| == 0 then false
    else if |a| == 0 then true
    else if rank(a[0]) != rank(b[0]) then rank(a[0]) < rank(b[0])
    else LexLess(rank, a[1..], b[1..])
  }

  lemma {:induction false} LexIrreflexive(rank: Token -> nat, a: seq<Token>)
    ensures !LexLess(rank, a, a)
    decreases |a|
  {
    if |a| > 0 {
      LexIrreflexive(rank, a[1..]);
    }
  }

  lemma {:induction false} LexTransitive(rank: Token -> nat, a: seq<Token>, b: seq<Token>, c: seq<Token>)
    requires LexLess(rank, a, b) && LexLess(rank, b, c)
    ensures LexLess(rank, a, c)
    decreases |a|
  {
    if |a| > 0 && rank(a[0]) == rank(b[0]) && rank(b[0]) == rank(c[0]) {
      LexTransitive(rank, a[1..], b[1..], c[1..]);
    }
  }

  lemma {:induction false} LexAsymmetric(rank: Token -> nat, a: seq<Token>, b: seq<Token>)
    requires LexLess(rank, a, b)
    ensures !LexLess(rank, b, a)
    decreases |a|
  {
    if |a| > 0 && rank(a[0]) == rank(b[0]) {
      LexAsymmetric(rank, a[1..], b[1..]);
    }
  }

  /** With distinct ranks, any two different patterns are ordered one way or the other. */
  lemma {:induction false} LexTrichotomy(rank: Token -> nat, a: seq<Token>, b: seq<Token>)
    requires DistinctRanks(rank)
    ensures a == b || LexLess(rank, a, b) || LexLess(rank, b, a)
    decreases |a|
  {
    if |a| > 0 && |b| > 0 && rank(a[0]) == rank(b[0]) {
      RankInjective(rank, a[0], b[0]);
      LexTrichotomy(rank, a[1..], b[1..]);
      if a[1..] == b[1..] {
        assert a == [a[0]] + a[1..] && b == [b[0]] + b[1..];
      }
    }
  }

  /** Whatever the ranks, a pattern sorts before each of its proper extensions. */
  lemma {:induction false} PrefixBeforeExtension(rank: Token -> nat, p: seq<Token>, q: seq<Token>)
    requires |q| > 0
    ensures LexLess(rank, p, p + q)
    decreases |p|
  {
    if |p| > 0 {
      assert (p + q)[1..] == p[1..] + q;
      PrefixBeforeExtension(rank, p[1..], q);
    }
  }
}
