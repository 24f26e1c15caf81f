/** ASCII text as the Python string methods see it: white space, `strip`,
    and decimal rendering. */
module Text {

  /** `str.isspace` and the regular expression class `\s`, on ASCII. */
  predicate IsSpace(c: char) {
    9 <= c as int <= 13 || 28 <= c as int <= 32
  }

  /** The six characters of C's `isspace`, and the four ASCII separators. */
  lemma SpaceIs(c: char)
    ensures IsSpace(c) <==>
              c in {' ', '\t', '\n', '\r', 11 as char, 12 as char, 28 as char, 29 as char, 30 as char, 31 as char}
  {
    assert ' ' as int == 32 && '\t' as int == 9 && '\n' as int == 10 && '\r' as int == 13;
  }

  predicate Blank(s: string) {
    forall i :: 0 <= i < |s| ==> IsSpace(s[i])
  }

  predicate Stripped(s: string) {
    s == "" || (!IsSpace(s[0]) && !IsSpace(s[|s| - 1]))
  }

  /** First index at or after `i` that holds no white space. */
  function SkipSpaces(s: string, i: nat): (j: nat)
    requires i <= |s|
    ensures i <= j <= |s|
    ensures forall k :: i <= k < j ==> IsSpace(s[k])
    ensures j < |s| ==> !IsSpace(s[j])
    decreases |s| - i
  {
    if i < |s| && IsSpace(s[i]) then SkipSpaces(s, i + 1) else i
  }

  /** One past the last non-space at or after `lo`, or `lo` when there is none. */
  function TrimEnd(s: string, lo: nat, hi: nat): (j: nat)
    requires lo <= hi <= |s|
    ensures lo <= j <= hi
    ensures forall k :: j <= k < hi ==> IsSpace(s[k])
    ensures lo < j ==> !IsSpace(s[j - 1])
    decreases hi
  {
    if lo < hi && IsSpace(s[hi - 1]) then TrimEnd(s, lo, hi - 1) else hi
  }

  /** `str.strip()`. */
  function Strip(s: string): (r: string)
    ensures Stripped(r)
    ensures r == "" <==> Blank(s)
  {
    var lo := SkipSpaces(s, 0);
    var hi := TrimEnd(s, lo, |s|);
    assert lo < |s| ==> lo < hi;
    assert Blank(s) ==> lo == |s|;
    s[lo..hi]
  }

  /** Surrounding white space does not change what `strip` returns. */
  lemma StripPadded(a: string, core: string, b: string)
    requires Blank(a) && Blank(b) && core != "" && Stripped(core)
    ensures Strip(a + core + b) == core
  {
    var s := a + core + b;
    var lo := SkipSpaces(s, 0);
    assert s[|a|] == core[0];
    assert forall k :: 0 <= k < |a| ==> s[k] == a[k];
    assert lo == |a|;
    var hi := TrimEnd(s, lo, |s|);
    assert s[|a| + |core| - 1] == core[|core| - 1];
    assert forall k :: |a| + |core| <= k < |s| ==> s[k] == b[k - |a| - |core|];
    assert hi == |a| + |core|;
    assert s[lo..hi] == core;
  }

  function Digit(n: nat): char
    requires n < 10
  {
    "0123456789"[n]
  }

  /** `str(n)` for a natural number. */
  function Decimal(n: nat): (s: string)
    ensures |s| >= 1
    ensures n >= 10 ==> |s| >= 2
  {
    if n < 10 then [Digit(n)] else Decimal(n / 10) + [Digit(n % 10)]
  }

  /** A one-digit rendering determines its number. */
  lemma DecimalDigit(n: nat, d: nat)
    requires d < 10
    ensures Decimal(n) == [Digit(d)] <==> n == d
  {
    if n < 10 {
      assert Digit(n) == Digit(d) <==> n == d;
    }
  }

  /** Different numbers are rendered differently. */
  lemma {:induction false} DecimalInjective(m: nat, n: nat)
    requires Decimal(m) == Decimal(n)
    ensures m == n
    decreases m + n
  {
    var s := Decimal(m);
    if m >= 10 && n >= 10 {
      assert s[..|s| - 1] == Decimal(m / 10) == Decimal(n / 10);
      DecimalInjective(m / 10, n / 10);
      assert s[|s| - 1] == Digit(m % 10) == Digit(n % 10);
      DigitInjective(m % 10, n % 10);
    } else if m < 10 && n < 10 {
      DigitInjective(m, n);
    }
  }

  lemma DigitInjective(a: nat, b: nat)
    requires a < 10 && b < 10 && Digit(a) == Digit(b)
    ensures a == b
  {}

  lemma {:induction false} DecimalLead(n: nat)
    ensures '0' <= Decimal(n)[0] <= '9'
  {
    if n >= 10 { DecimalLead(n / 10); }
  }
}
