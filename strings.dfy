/** Decimal rendering of naturals, as Python's `str(n)` / f-string `{n}` does for `n >= 0`. */
module Strings {

  function Digit(d: nat): (c: char)
    requires d < 10
    ensures '0' <= c <= '9'
  {
    (48 + d) as char
  }

  predicate IsDigits(s: string) {
    forall i :: 0 <= i < |s| ==> '0' <= s[i] <= '9'
  }

  /** `str(n)`: the shortest decimal numeral of `n`. */
  function NatToString(n: nat): (r: string)
    ensures 0 < |r| && IsDigits(r)
    ensures n >= 10 <==> |r| >= 2
    decreases n
  {
    if n < 10 then [Digit(n)] else NatToString(n / 10) + [Digit(n % 10)]
  }

  /** Different naturals are rendered as different strings. */
  lemma {:induction false} NatToStringInjective(a: nat, b: nat)
    requires NatToString(a) == NatToString(b)
    ensures a == b
    decreases a
  {
    if a >= 10 && b >= 10 {
      var sa, sb := NatToString(a), NatToString(b);
      assert sa[|sa| - 1] == Digit(a % 10) && sb[|sb| - 1] == Digit(b % 10);
      assert sa[..|sa| - 1] == NatToString(a / 10);
      assert sb[..|sb| - 1] == NatToString(b / 10);
      NatToStringInjective(a / 10, b / 10);
    } else {
      assert a < 10 && b < 10;
      assert NatToString(a)[0] == Digit(a) && NatToString(b)[0] == Digit(b);
    }
  }

  /** Position of the first `sep` in `s`, or `|s|` when there is none. */
  function SeparatorIndex(s: string, sep: char): (k: nat)
    ensures k <= |s|
  {
    if s == [] || s[0] == sep then 0 else 1 + SeparatorIndex(s[1..], sep)
  }

  lemma {:induction false} SeparatorIndexOf(a: string, b: string, sep: char)
    requires sep !in a
    ensures SeparatorIndex(a + [sep] + b, sep) == |a|
    decreases |a|
  {
    if a != [] {
      assert (a + [sep] + b)[1..] == a[1..] + [sep] + b;
      SeparatorIndexOf(a[1..], b, sep);
    }
  }

  /** Splitting at the first occurrence of a separator that neither head contains is unique. */
  lemma SplitAtSeparator(a: string, b: string, c: string, d: string, sep: char)
    requires sep !in a && sep !in c
    requires a + [sep] + b == c + [sep] + d
    ensures a == c && b == d
  {
    var s := a + [sep] + b;
    SeparatorIndexOf(a, b, sep);
    SeparatorIndexOf(c, d, sep);
    assert a == s[..|a|] == c;
    assert b == s[|a| + 1..] == d;
  }

  lemma DigitsHaveNoUnderscore(s: string)
    requires IsDigits(s)
    ensures '_' !in s
  {
  }
}
