/** Scalar coercion (impact/calculator.py, "Helpers"): `_i`, `_f` and `_overs_to_float`,
    which turn any raw value into a number and never fail. */
module Coercion {
  import opened Text
  import opened RawValues

  /** `int(s)` on an already stripped string: an optional sign and at least one ASCII digit. */
  function ParseInt(s: string): Option<int> {
    if |s| >= 2 && (s[0] == '+' || s[0] == '-') && AllDigits(s[1..]) then
      Some(if s[0] == '-' then -(DigitsValue(s[1..]) as int) else DigitsValue(s[1..]))
    else if s != [] && AllDigits(s) then Some(DigitsValue(s))
    else None
  }

  /** An unsigned decimal: digits with at most one point and at least one digit (`"5"`, `"5."`, `".5"`, `"4.25"`). */
  function ParseDecimal(b: string): Option<real> {
    if '.' in b then
      var k := IndexOf(b, '.');
      var ip, fp := b[..k], b[k + 1..];
      if AllDigits(ip) && AllDigits(fp) && |ip| + |fp| > 0
      then Some(DigitsValue(ip) as real + DigitsValue(fp) as real / Pow10(|fp|) as real)
      else None
    else if b != [] && AllDigits(b) then Some(DigitsValue(b) as real)
    else None
  }

  /** `float(s)` on an already stripped string: an optional sign and a decimal. */
  function ParseFloat(s: string): Option<real> {
    if s != [] && (s[0] == '+' || s[0] == '-') then
      match ParseDecimal(s[1..])
      case Some(m) => Some(if s[0] == '-' then -m else m)
      case None => None
    else ParseDecimal(s)
  }

  /** `int(t.strip())`, or 0 when that raises. */
  function IntOfText(t: string): int {
    match ParseInt(Strip(t))
    case Some(v) => v
    case None => 0
  }

  /** `float(t.strip())`, or 0.0 when that raises. */
  function FloatOfText(t: string): real {
    match ParseFloat(Strip(t))
    case Some(v) => v
    case None => 0.0
  }

  /** `_i(x)`: `int(str(x).strip())`, or 0 when that raises. */
  function ToInt(x: Raw): int {
    IntOfText(Show(x))
  }

  /** `_f(x)`: `float(str(x).strip())`, or 0.0 when that raises. The `str` of a float is the
      shortest text that reads back as the same float, so a float comes back unchanged. */
  function ToFloat(x: Raw): real {
    if x.Real? then x.r else FloatOfText(Show(x))
  }

  /** `_overs_to_float(ov)`: cricket overs, where the digits after the point count balls. */
  function OversToFloat(ov: Raw): (r: real)
    ensures ov.Null? ==> r == 0.0
    ensures ov.Int? ==> r == ov.i as real
    ensures ov.Real? ==> r == ov.r
  {
    match ov
    case Null => 0.0
    case Bool(b) => if b then 1.0 else 0.0  // a bool is an int to `isinstance`
    case Int(i) => i as real
    case Real(r) => r
    case _ => OversFromText(Show(ov))
  }

  /** `_overs_to_float` on the `str` of anything that is not a number: with a point, the whole overs
      before it plus the digits after it read as balls, at most six; without one, `_f` of the text. */
  function OversFromText(s: string): (r: real)
    ensures '.' !in s ==> r == FloatOfText(s)
    ensures '.' in s ==>
              var whole := IntOfText(s[..IndexOf(s, '.')]) as real;
              whole <= r <= whole + 1.0
  {
    if '.' in s then
      var k := IndexOf(s, '.');
      var balls := BallsOf(s[k + 1..]);
      IntOfText(s[..k]) as real + balls as real / 6.0
    else FloatOfText(s)
  }

  /** The balls part of overs text: its digits read as a number (none reads as 0), at most 6. */
  function BallsOf(frac: string): (b: nat)
    ensures b <= 6
    ensures DigitsOnly(frac) == "" ==> b == 0
    ensures DigitsOnly(frac) != "" ==> b == Min(DigitsValue(DigitsOnly(frac)), 6)
  {
    var digits := DigitsOnly(frac);
    var t := if digits == "" then "0" else digits;
    BallDigitsNonNegative(t);
    Min(IntOfText(t), 6)
  }

  lemma BallDigitsNonNegative(t: string)
    requires t != [] && AllDigits(t)
    ensures IntOfText(t) == DigitsValue(t)
  {
    StripUnchanged(t);
    assert ParseInt(t) == Some(DigitsValue(t));
  }

  predicate SignOrDigit(c: char) {
    IsDigit(c) || c == '+' || c == '-'
  }

  /** `int()` refuses text holding anything but a leading sign and digits. */
  lemma ParseIntRejects(s: string, i: nat)
    requires i < |s| && !SignOrDigit(s[i])
    ensures ParseInt(s) == None
  {
    if i > 0 {
      assert s[1..][i - 1] == s[i];
    }
  }

  /** `float()` refuses text holding anything but a leading sign, digits and a point. */
  lemma ParseFloatRejects(s: string, i: nat)
    requires i < |s| && !SignOrDigit(s[i]) && s[i] != '.'
    ensures ParseFloat(s) == None
  {
    if s != [] && (s[0] == '+' || s[0] == '-') {
      DecimalRejects(s[1..], i - 1);
    } else {
      DecimalRejects(s, i);
    }
  }

  lemma DecimalRejects(b: string, i: nat)
    requires i < |b| && !IsDigit(b[i]) && b[i] != '.'
    ensures ParseDecimal(b) == None
  {
    if '.' in b {
      var k := IndexOf(b, '.');
      if i < k {
        assert b[..k][i] == b[i];
      } else {
        assert b[k + 1..][i - k - 1] == b[i];
      }
    }
  }

  /** `str(i)` has no whitespace at its ends, and `int()` reads it back. */
  lemma ParseShowInt(i: int)
    ensures Strip(ShowInt(i)) == ShowInt(i)
    ensures ParseInt(ShowInt(i)) == Some(i)
  {
    if i < 0 {
      ParseShowNegative(i);
    } else {
      ShowNatRoundTrip(i);
      StripUnchanged(ShowNat(i));
    }
  }

  lemma ParseShowNegative(i: int)
    requires i < 0
    ensures Strip(ShowInt(i)) == ShowInt(i)
    ensures ParseInt(ShowInt(i)) == Some(i)
  {
    var n := ShowNat(-i);
    ShowNatRoundTrip(-i);
    NegativeText(n);
  }

  /** `"-" + n` for a run of digits `n` is its own strip and reads as minus the digits' value. */
  lemma NegativeText(n: string)
    requires n != [] && AllDigits(n)
    ensures Strip("-" + n) == "-" + n
    ensures ParseInt("-" + n) == Some(-(DigitsValue(n) as int))
  {
    var s := "-" + n;
    assert s[1..] == n;
    assert s[|s| - 1] == n[|n| - 1];
    assert IsDigit(n[|n| - 1]);
    StripUnchanged(s);
  }

  /** `_i` returns an integer unchanged. */
  lemma ToIntOfInt(i: int)
    ensures ToInt(Int(i)) == i
  {
    ParseShowInt(i);
  }

  /** `_i` of None, a bool, a float, a dict or a list is 0: their `str` is never an integer literal. */
  lemma ToIntOfNonInteger(x: Raw)
    requires x.Null? || x.Bool? || x.Real? || x.Record? || x.List?
    ensures ToInt(x) == 0
  {
    IntOfTextRejects(Show(x), StrangeCharAt(x));
  }

  /** `_f` of None, a bool, a dict or a list is 0.0. */
  lemma ToFloatOfNonNumber(x: Raw)
    requires x.Null? || x.Bool? || x.Record? || x.List?
    ensures ToFloat(x) == 0.0
  {
    FloatOfTextRejects(Show(x), StrangeCharAt(x));
  }

  lemma IntOfTextRejects(s: string, p: nat)
    requires p < |s| && !SignOrDigit(s[p]) && !IsSpace(s[p])
    ensures IntOfText(s) == 0
  {
    StripKeeps(s, p);
    var t := Strip(s);
    var j :| 0 <= j < |t| && t[j] == s[p];
    ParseIntRejects(t, j);
  }

  lemma FloatOfTextRejects(s: string, p: nat)
    requires p < |s| && !SignOrDigit(s[p]) && !IsSpace(s[p]) && s[p] != '.'
    ensures FloatOfText(s) == 0.0
  {
    StripKeeps(s, p);
    var t := Strip(s);
    var j :| 0 <= j < |t| && t[j] == s[p];
    ParseFloatRejects(t, j);
  }

  /** A position in `str(x)` that no numeric literal may contain (a point only for a float). */
  function StrangeCharAt(x: Raw): (p: nat)
    requires x.Null? || x.Bool? || x.Real? || x.Record? || x.List?
    ensures p < |Show(x)| && !SignOrDigit(Show(x)[p]) && !IsSpace(Show(x)[p])
    ensures !x.Real? ==> Show(x)[p] != '.'
  {
    if x.Real? then IndexOf(Show(x), '.') else 0
  }

  /** `_f` of an integer is that integer as a float. */
  lemma ToFloatOfInt(i: int)
    ensures ToFloat(Int(i)) == i as real
  {
    ParseShowInt(i);
    FloatReadsInteger(ShowInt(i));
  }

  /** Text that `int()` accepts, `float()` accepts with the same value. */
  lemma FloatReadsInteger(t: string)
    requires ParseInt(t).Some?
    ensures ParseFloat(t) == Some(ParseInt(t).value as real)
  {
    if |t| >= 2 && (t[0] == '+' || t[0] == '-') && AllDigits(t[1..]) {
      DecimalOfDigits(t[1..]);
    } else {
      assert IsDigit(t[0]);
      DecimalOfDigits(t);
    }
  }

  /** A run of digits without a point reads as that whole number. */
  lemma DecimalOfDigits(b: string)
    requires b != [] && AllDigits(b)
    ensures ParseDecimal(b) == Some(DigitsValue(b) as real)
  {
    assert forall k :: 0 <= k < |b| ==> b[k] != '.' by {
      forall k | 0 <= k < |b| ensures b[k] != '.' { assert IsDigit(b[k]); }
    }
  }

  /** Overs written `"<int>.<digit>"` are whole overs plus the digit, capped at 6, in sixths. */
  lemma OversBallNotation(w: int, d: nat)
    requires d < 10
    ensures OversToFloat(Str(ShowInt(w) + "." + [DigitChar(d)])) == w as real + Min(d, 6) as real / 6.0
  {
    var head := ShowInt(w);
    NoPointInShowInt(w);
    OversOfParts(head, [DigitChar(d)]);
    assert IntOfText(head) == w by { ParseShowInt(w); }
    assert BallsOf([DigitChar(d)]) == Min(d, 6) by {
      assert DigitsOnly([DigitChar(d)]) == [DigitChar(d)];
      BallDigitsNonNegative([DigitChar(d)]);
      assert [DigitChar(d)][..0] == [];
    }
  }

  /** Text of the form `head.tail` splits at the point after `head`. */
  lemma OversOfParts(head: string, tail: string)
    requires '.' !in head
    ensures OversToFloat(Str(head + "." + tail)) == IntOfText(head) as real + BallsOf(tail) as real / 6.0
  {
    var s := head + "." + tail;
    assert Show(Str(s)) == s;
    PointAfter(head, tail);
    assert s[..|head|] == head && s[|head| + 1..] == tail;
  }

  lemma NoPointInShowInt(w: int)
    ensures '.' !in ShowInt(w)
  {
    var head := ShowInt(w);
    if w < 0 {
      assert head[1..] == ShowNat(-w);
      assert AllDigits(head[1..]);
      assert head[0] == '-';
    } else {
      assert AllDigits(head);
    }
  }

  /** The first point of `head + "." + tail` is the one after `head` when `head` has none. */
  lemma {:induction false} PointAfter(head: string, tail: string)
    requires '.' !in head
    ensures IndexOf(head + "." + tail, '.') == |head|
  {
    var s := head + "." + tail;
    if head != [] {
      assert s[0] == head[0];
      assert s[1..] == head[1..] + "." + tail;
      PointAfter(head[1..], tail);
    }
  }

  /** `_overs_to_float("4.3") == 4.5` */
  lemma OversFourPointThree()
    ensures OversToFloat(Str("4.3")) == 4.5
  {
    OversBallNotation(4, 3);
    assert ShowInt(4) + "." + [DigitChar(3)] == "4.3";
  }

  /** `_overs_to_float("0.9") == 1.0`: more than six balls count as six. */
  lemma OversZeroPointNine()
    ensures OversToFloat(Str("0.9")) == 1.0
  {
    OversBallNotation(0, 9);
    assert ShowInt(0) + "." + [DigitChar(9)] == "0.9";
  }

  /** `_overs_to_float("4.12") == 5.0`: every digit after the point is read, then capped at six. */
  lemma OversFourPointTwelve()
    ensures OversToFloat(Str("4.12")) == 5.0
  {
    var head := ShowInt(4);
    NoPointInShowInt(4);
    OversOfParts(head, "12");
    assert head + "." + "12" == "4.12";
    ParseShowInt(4);
    BallsOfTwelve();
  }

  lemma BallsOfTwelve()
    ensures BallsOf("12") == 6
  {
    DigitsOnlyOfDigits("12");
    assert "12"[..1] == "1";
  }

  /** `_overs_to_float("2.b") == 2.0`: a point followed by no digit adds no balls. */
  lemma OversNoBallDigits()
    ensures OversToFloat(Str("2.b")) == 2.0
  {
    var head := ShowInt(2);
    NoPointInShowInt(2);
    OversOfParts(head, "b");
    assert head + "." + "b" == "2.b";
    ParseShowInt(2);
    assert DigitsOnly("b") == "" by { assert "b"[..0] == ""; }
  }
}
