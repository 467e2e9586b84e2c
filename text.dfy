/** Character and string helpers that Python's `str` gives the source for free:
    whitespace stripping, decimal digits, integer rendering and joining. */
module Text {

  /** `c.isspace()`: the characters that `str.strip()` removes. */
  predicate IsSpace(c: char) {
    || c == ' ' || ('\t' <= c <= '\r') || ('\U{1C}' <= c <= '\U{1F}')
    || c == '\U{85}' || c == '\U{A0}' || c == '\U{1680}'
    || ('\U{2000}' <= c <= '\U{200A}') || c == '\U{2028}' || c == '\U{2029}'
    || c == '\U{202F}' || c == '\U{205F}' || c == '\U{3000}'
  }

  /** `s.lstrip()` */
  function TrimLeft(s: string): (r: string)
    ensures |r| <= |s|
  {
    if s != [] && IsSpace(s[0]) then TrimLeft(s[1..]) else s
  }

  /** `s.rstrip()` */
  function TrimRight(s: string): string {
    if s != [] && IsSpace(s[|s| - 1]) then TrimRight(s[..|s| - 1]) else s
  }

  /** `s.strip()` */
  function Strip(s: string): string {
    TrimRight(TrimLeft(s))
  }

  /** `lstrip` removes a prefix of whitespace and stops at the first other character. */
  lemma {:induction false} TrimLeftSpec(s: string)
    ensures var r := TrimLeft(s);
            && |r| <= |s| && r == s[|s| - |r|..]
            && (r == [] || !IsSpace(r[0]))
            && (forall i :: 0 <= i < |s| - |r| ==> IsSpace(s[i]))
  {
    if s != [] && IsSpace(s[0]) {
      TrimLeftSpec(s[1..]);
      var r := TrimLeft(s);
      assert forall i :: 1 <= i < |s| ==> s[i] == s[1..][i - 1];
    }
  }

  /** `rstrip` removes a suffix of whitespace and stops at the last other character. */
  lemma {:induction false} TrimRightSpec(s: string)
    ensures var r := TrimRight(s);
            && |r| <= |s| && r == s[..|r|]
            && (r == [] || !IsSpace(r[|r| - 1]))
            && (forall i :: |r| <= i < |s| ==> IsSpace(s[i]))
  {
    if s != [] && IsSpace(s[|s| - 1]) {
      TrimRightSpec(s[..|s| - 1]);
    }
  }

  /** `s.strip()` is the middle slice of `s` left once the whitespace at both ends is gone, and
      neither starts nor ends with whitespace. */
  lemma StripSpec(s: string)
    ensures var r, a := Strip(s), |s| - |TrimLeft(s)|;
            && a + |r| <= |s| && r == s[a..a + |r|]
            && (forall i :: 0 <= i < a ==> IsSpace(s[i]))
            && (forall i :: a + |r| <= i < |s| ==> IsSpace(s[i]))
            && (r == [] || (!IsSpace(r[0]) && !IsSpace(r[|r| - 1])))
  {
    StripMiddle(s);
    StripLeading(s);
    StripEnds(s);
  }

  /** `s.strip()` is the slice of `s` after its leading whitespace, followed only by whitespace. */
  lemma StripMiddle(s: string)
    ensures var r, a := Strip(s), |s| - |TrimLeft(s)|;
            && a + |r| <= |s| && r == s[a..a + |r|]
            && (forall i :: a + |r| <= i < |s| ==> IsSpace(s[i]))
  {
    var l := TrimLeft(s);
    var r := TrimRight(l);
    assert Strip(s) == r;
    TrimLeftSpec(s);
    TrimRightSpec(l);
    SliceOfSlice(s, l, r);
  }

  /** Everything before the result of `s.lstrip()` is whitespace. */
  lemma StripLeading(s: string)
    ensures forall i :: 0 <= i < |s| - |TrimLeft(s)| ==> IsSpace(s[i])
  {
    TrimLeftSpec(s);
  }

  /** Neither end of `s.strip()` is whitespace. */
  lemma StripEnds(s: string)
    ensures var r := Strip(s); r == [] || (!IsSpace(r[0]) && !IsSpace(r[|r| - 1]))
  {
    var l := TrimLeft(s);
    var r := TrimRight(l);
    assert Strip(s) == r;
    TrimRightEnds(l);
    if r != [] {
      assert !IsSpace(r[|r| - 1]);
      TrimLeftSpec(s);
      assert r[0] == l[0];
      assert !IsSpace(r[0]);
    }
  }

  /** `rstrip` keeps the first character of a string that does not start with whitespace and
      leaves no whitespace at the end. */
  lemma {:induction false} TrimRightEnds(l: string)
    ensures var r := TrimRight(l);
            && (r == [] || !IsSpace(r[|r| - 1]))
            && (r != [] ==> r[0] == l[0])
  {
    if l != [] && IsSpace(l[|l| - 1]) {
      TrimRightEnds(l[..|l| - 1]);
    }
  }

  /** A prefix `r` of a suffix `l` of `s` is a middle slice of `s`. */
  lemma SliceOfSlice(s: string, l: string, r: string)
    requires |l| <= |s| && l == s[|s| - |l|..]
    requires |r| <= |l| && r == l[..|r|]
    requires forall i :: |r| <= i < |l| ==> IsSpace(l[i])
    ensures var a := |s| - |l|;
            && a + |r| <= |s| && r == s[a..a + |r|]
            && (forall i :: a + |r| <= i < |s| ==> IsSpace(s[i]))
  {
    var a := |s| - |l|;
    forall i | a + |r| <= i < |s|
      ensures IsSpace(s[i])
    {
      assert s[i] == l[i - a];
    }
  }

  /** A string whose ends are not whitespace is its own strip. */
  lemma StripUnchanged(s: string)
    requires s == [] || (!IsSpace(s[0]) && !IsSpace(s[|s| - 1]))
    ensures Strip(s) == s
  {
  }

  /** Stripping never removes a non-whitespace character. */
  lemma StripKeeps(s: string, i: nat)
    requires i < |s| && !IsSpace(s[i])
    ensures s[i] in Strip(s)
  {
    StripSpec(s);
    var r := Strip(s);
    var a := |s| - |TrimLeft(s)|;
    assert a <= i < a + |r|;
    assert r[i - a] == s[i];
  }

  /** `c in "0123456789"`; Python's `str.isdigit()` also accepts other Unicode digits. */
  predicate IsDigit(c: char) {
    '0' <= c <= '9'
  }

  predicate AllDigits(s: string) {
    forall i :: 0 <= i < |s| ==> IsDigit(s[i])
  }

  function DigitValue(c: char): (d: nat)
    requires IsDigit(c)
    ensures d < 10
  {
    (c as int) - ('0' as int)
  }

  function DigitChar(d: nat): (c: char)
    requires d < 10
    ensures IsDigit(c) && DigitValue(c) == d
  {
    (('0' as int) + d) as char
  }

  /** The number a run of decimal digits denotes (leading zeros allowed, as `int()` allows them). */
  function DigitsValue(s: string): nat
    requires AllDigits(s)
  {
    if s == [] then 0 else DigitsValue(s[..|s| - 1]) * 10 + DigitValue(s[|s| - 1])
  }

  /** `str(n)` for a non-negative integer. */
  function ShowNat(n: nat): (r: string)
    ensures |r| > 0 && AllDigits(r)
  {
    if n < 10 then [DigitChar(n)] else ShowNat(n / 10) + [DigitChar(n % 10)]
  }

  /** `str(i)` for any integer. */
  function ShowInt(i: int): string {
    if i < 0 then "-" + ShowNat(-i) else ShowNat(i)
  }

  /** Reading back the digits `str` wrote gives the number. */
  lemma {:induction false} ShowNatRoundTrip(n: nat)
    ensures DigitsValue(ShowNat(n)) == n
  {
    if n >= 10 {
      var s := ShowNat(n);
      assert s[..|s| - 1] == ShowNat(n / 10);
      ShowNatRoundTrip(n / 10);
    }
  }

  /** `sep.join(parts)`. */
  function Join(parts: seq<string>, sep: string): string
    decreases |parts|
  {
    if parts == [] then "" else if |parts| == 1 then parts[0] else parts[0] + sep + Join(parts[1..], sep)
  }

  /** `s.index(c)`: the position of the first `c`. */
  function IndexOf(s: string, c: char): (k: nat)
    requires c in s
    ensures k < |s| && s[k] == c && c !in s[..k]
  {
    if s[0] == c then 0 else
      var k := IndexOf(s[1..], c);
      assert s[..k + 1] == [s[0]] + s[1..][..k];
      k + 1
  }

  /** `"".join(ch for ch in s if ch.isdigit())`. */
  function DigitsOnly(s: string): (r: string)
    ensures AllDigits(r) && |r| <= |s|
  {
    if s == [] then [] else
      var rest := DigitsOnly(s[..|s| - 1]);
      if IsDigit(s[|s| - 1]) then rest + [s[|s| - 1]] else rest
  }

  /** The filter keeps exactly the digits of `s`: every one, and nothing else. */
  lemma {:induction false} DigitsOnlyMembers(s: string)
    ensures forall c :: c in DigitsOnly(s) <==> c in s && IsDigit(c)
  {
    if s != [] {
      var p := s[..|s| - 1];
      DigitsOnlyMembers(p);
      assert s == p + [s[|s| - 1]];
    }
  }

  /** Filtering keeps the order: the digits of `a + b` are those of `a`, then those of `b`. */
  lemma {:induction false} DigitsOnlyAppend(a: string, b: string)
    ensures DigitsOnly(a + b) == DigitsOnly(a) + DigitsOnly(b)
  {
    if b != [] {
      var b' := b[..|b| - 1];
      assert (a + b)[..|a + b| - 1] == a + b';
      assert (a + b)[|a + b| - 1] == b[|b| - 1];
      DigitsOnlyAppend(a, b');
    } else {
      assert a + b == a;
    }
  }

  /** Text made of digits only is kept whole. */
  lemma {:induction false} DigitsOnlyOfDigits(s: string)
    requires AllDigits(s)
    ensures DigitsOnly(s) == s
  {
    if s != [] {
      DigitsOnlyOfDigits(s[..|s| - 1]);
      assert IsDigit(s[|s| - 1]);
      assert s[..|s| - 1] + [s[|s| - 1]] == s;
    }
  }

  /** `10 ** n`. */
  function Pow10(n: nat): (p: nat)
    ensures p >= 1
  {
    if n == 0 then 1 else 10 * Pow10(n - 1)
  }

  function Min(a: int, b: int): int {
    if a <= b then a else b
  }
}
