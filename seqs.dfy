/** Sequence helpers shared by the models: Python's `xs[-n:]` and counting. */
module Seqs {
  import opened Wrappers

  function Min(a: int, b: int): int { if a <= b then a else b }

  /** Python `xs[-n:]` for n >= 0 (and `xs` itself when it is shorter than n). */
  function Last<T>(s: seq<T>, n: nat): (r: seq<T>)
    ensures |r| == Min(|s|, n)
  {
    if |s| > n then s[|s| - n..] else s
  }

  /** `Last(s, n)` is a suffix of `s`. */
  lemma LastIsSuffix<T>(s: seq<T>, n: nat)
    ensures s == s[..|s| - |Last(s, n)|] + Last(s, n)
  {
    if |s| > n {
      assert s == s[..|s| - n] + s[|s| - n..];
    }
  }

  /** The first `n` elements (Python `xs[:n]`). */
  function First<T>(s: seq<T>, n: nat): (r: seq<T>)
    ensures |r| == Min(|s|, n)
    ensures forall i :: 0 <= i < |r| ==> r[i] == s[i]
  {
    if |s| > n then s[..n] else s
  }

  /** Appending one element and keeping the last `n` ends with that element and stays within `n`. */
  lemma LastAppend<T>(s: seq<T>, x: T, n: nat)
    requires n > 0
    ensures |Last(s + [x], n)| <= n
    ensures Last(s + [x], n)[|Last(s + [x], n)| - 1] == x
    ensures |s| < n ==> Last(s + [x], n) == s + [x]
  {
  }

  /** Number of `true` entries (Python `sum(flags)`). */
  function CountTrue(s: seq<bool>): (r: nat)
    ensures r <= |s|
  {
    if s == [] then 0 else CountTrue(s[..|s| - 1]) + (if s[|s| - 1] then 1 else 0)
  }

  /** Position of the first occurrence of `x` (a dictionary lookup over keys kept in order). */
  function IndexOf<T(==)>(s: seq<T>, x: T): (r: Option<nat>)
    ensures r.None? <==> x !in s
    ensures r.Some? ==> r.value < |s| && s[r.value] == x && x !in s[..r.value]
  {
    if s == [] then None
    else if s[0] == x then Some(0)
    else
      match IndexOf(s[1..], x)
      case None => None
      case Some(i) =>
        assert s[..i + 1] == [s[0]] + s[1..][..i];
        Some(i + 1)
  }

  /** In a sequence without repetitions, the lookup finds each element's own position. */
  lemma IndexOfDistinct<T>(s: seq<T>, i: nat)
    requires Distinct(s) && i < |s|
    ensures IndexOf(s, s[i]) == Some(i)
  {

  }

  /** A count over a positive total is a fraction between 0 and 1. */
  lemma FractionBounded(part: nat, whole: nat)
    ensures part <= whole && whole > 0 ==> 0.0 <= part as real / whole as real <= 1.0
  {
    if whole > 0 {
      assert part as real / whole as real * whole as real == part as real;
    }
  }

  /** The facts about `part / whole` the ratio computations rely on. */
  lemma FractionFacts(part: nat, whole: nat)
    requires whole > 0
    ensures part as real / whole as real * whole as real == part as real
    ensures part <= whole ==> 0.0 <= part as real / whole as real <= 1.0
    ensures part as real / whole as real == 1.0 <==> part == whole
  {
    FractionBounded(part, whole);
  }

  /** Every element occurs once. */
  predicate Distinct<T(==)>(s: seq<T>) {
    forall i, j :: 0 <= i < j < |s| ==> s[i] != s[j]
  }

  lemma {:induction false} CountTrueAppend(s: seq<bool>, t: seq<bool>)
    ensures CountTrue(s + t) == CountTrue(s) + CountTrue(t)
    decreases |t|
  {
    if t == [] {
      assert s + t == s;
    } else {
      var t' := t[..|t| - 1];
      assert (s + t)[..|s + t| - 1] == s + t';
      CountTrueAppend(s, t');
    }
  }

  /** A sequence without repetitions has as many elements as its set. */
  lemma {:induction false} DistinctCardinality<T>(s: seq<T>)
    requires Distinct(s)
    ensures |set x | x in s| == |s|
  {
    if s != [] {
      var s' := s[..|s| - 1];
      DistinctCardinality(s');
      var last := s[|s| - 1];
      assert (set x | x in s) == (set x | x in s') + {last};
      assert last !in (set x | x in s');
    }
  }
}
