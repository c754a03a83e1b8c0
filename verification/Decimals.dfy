/** Decimal numerals as text, and why "<text><separator><number>" determines the number. */
module Decimals {

  const DIGITS := "0123456789"

  function Decimal(n: nat): (s: string)
    ensures s != ""
    ensures forall i :: 0 <= i < |s| ==> '0' <= s[i] <= '9'
  {
    if n < 10 then [DIGITS[n]] else Decimal(n / 10) + [DIGITS[n % 10]]
  }

  /** The value of a numeral: Decimal's left inverse. */
  ghost function Value(s: string): nat
    requires forall i :: 0 <= i < |s| ==> '0' <= s[i] <= '9'
  {
    if s == "" then 0 else 10 * Value(s[..|s| - 1]) + (s[|s| - 1] as int - '0' as int)
  }

  lemma {:induction false} ValueOfDecimal(n: nat)
    ensures Value(Decimal(n)) == n
  {
    var d := Decimal(n);
    assert DIGITS[n % 10] as int - '0' as int == n % 10;
    if n < 10 {
      assert d[..|d| - 1] == "";
    } else {
      ValueOfDecimal(n / 10);
      assert d[..|d| - 1] == Decimal(n / 10);
    }
  }

  predicate Free(s: string, sep: char) {
    forall k :: 0 <= k < |s| ==> s[k] != sep
  }

  /** A text is cut in one way only at its last separator. */
  lemma SameTail(a: string, x: string, b: string, y: string, sep: char)
    requires Free(x, sep) && Free(y, sep)
    requires a + [sep] + x == b + [sep] + y
    ensures a == b && x == y
  {
    var s := a + [sep] + x;
    assert |s| == |b| + 1 + |y|;
    assert s[|a|] == sep && s[|b|] == sep;
    assert forall k :: |a| < k < |s| ==> s[k] == x[k - |a| - 1];
    assert forall k :: |b| < k < |s| ==> s[k] == y[k - |b| - 1];
    assert |a| == |b|;
    assert a == s[..|a|] == b;
    assert x == s[|a| + 1..] == y;
  }

  /** Numbering is injective: whatever text precedes the (non-digit) separator. */
  lemma NumberingIsInjective(a: string, sep: char, i: nat, b: string, j: nat)
    requires !('0' <= sep <= '9')
    requires a + [sep] + Decimal(i) == b + [sep] + Decimal(j)
    ensures a == b && i == j
  {
    SameTail(a, Decimal(i), b, Decimal(j), sep);
    ValueOfDecimal(i);
    ValueOfDecimal(j);
  }
}
