/** The untyped values the provider's match document is made of, as Python holds them
    after JSON decoding, with Python's truthiness, `dict.get` and `str()` on them. */
module RawValues {
  import opened Text

  datatype Option<+T> = None | Some(value: T)

  /** Why the source raises instead of returning a result. */
  datatype Exception =
    | DetailsNotRecord   // `details.get(...)` on a fetched document that is not a dict
    | InningsNotRecord   // `_pick(inn, ...)` or `inn.get(...)` on an innings that is not a dict
    | RowsNotIterable    // `for bt in block` on a block that is a truthy int, float or bool

  datatype Result<+T> = Ok(value: T) | Err(error: Exception)

  /** A decoded JSON value. A `Record` keeps the dict's bindings in insertion order. */
  datatype Raw =
    | Null
    | Bool(b: bool)
    | Int(i: int)
    | Real(r: real)
    | Str(s: string)
    | Record(fields: seq<(string, Raw)>)
    | List(items: seq<Raw>)

  type Fields = seq<(string, Raw)>

  /** `bool(x)` */
  predicate Truthy(x: Raw) {
    match x
    case Null => false
    case Bool(b) => b
    case Int(i) => i != 0
    case Real(r) => r != 0.0
    case Str(s) => s != ""
    case Record(f) => f != []
    case List(xs) => xs != []
  }

  /** `x or y` */
  function Or(x: Raw, y: Raw): (r: Raw)
    ensures Truthy(x) ==> r == x
    ensures !Truthy(x) ==> r == y
  {
    if Truthy(x) then x else y
  }

  predicate HasKey(d: Fields, k: string) {
    exists i :: 0 <= i < |d| && d[i].0 == k
  }

  /** `d[k]` when `k in d`: the first binding of `k`. */
  function Get(d: Fields, k: string): Option<Raw> {
    if d == [] then None
    else if d[0].0 == k then Some(d[0].1)
    else Get(d[1..], k)
  }

  /** `d.get(k)` finds a binding exactly when the key is present, and the one it finds is the first. */
  lemma {:induction false} GetFirst(d: Fields, k: string)
    ensures Get(d, k).None? <==> !HasKey(d, k)
    ensures Get(d, k).Some? ==> exists i :: && 0 <= i < |d| && d[i] == (k, Get(d, k).value)
                                             && forall j :: 0 <= j < i ==> d[j].0 != k
  {
    if d != [] && d[0].0 != k {
      GetFirst(d[1..], k);
      assert forall i :: 0 <= i < |d[1..]| ==> d[1..][i] == d[i + 1];
      if HasKey(d, k) {
        var i :| 0 <= i < |d| && d[i].0 == k;
        assert d[1..][i - 1].0 == k;
      }
    }
  }

  /** The binding `d.get(k)` finds is the first one with key `k`. */
  lemma {:induction false} GetAt(d: Fields, k: string, i: nat)
    requires i < |d| && d[i].0 == k && forall j :: 0 <= j < i ==> d[j].0 != k
    ensures Get(d, k) == Some(d[i].1)
  {
    if i > 0 {
      assert forall j :: 0 <= j < i - 1 ==> d[1..][j] == d[j + 1];
      GetAt(d[1..], k, i - 1);
    }
  }

  /** `d.get(k, default)`; `d.get(k)` is `GetOr(d, k, Null)`. */
  function GetOr(d: Fields, k: string, default: Raw): Raw {
    match Get(d, k)
    case Some(v) => v
    case None => default
  }

  /** `list(d.keys())`, for a dict with values of any type. */
  function Keys<V>(d: seq<(string, V)>): (ks: seq<string>)
    ensures |ks| == |d| && forall i :: 0 <= i < |d| ==> ks[i] == d[i].0
  {
    seq(|d|, i requires 0 <= i < |d| => d[i].0)
  }

  /** `list(d.values())`, for a dict with values of any type. */
  function Values<V>(d: seq<(string, V)>): (vs: seq<V>)
    ensures |vs| == |d| && forall i :: 0 <= i < |d| ==> vs[i] == d[i].1
  {
    seq(|d|, i requires 0 <= i < |d| => d[i].1)
  }

  /** `k in d.keys()` exactly when `d.get(k)` finds a binding, and what it finds is among `d.values()`. */
  lemma KeysAndGet(d: Fields, k: string)
    ensures k in Keys(d) <==> Get(d, k).Some?
    ensures Get(d, k).Some? ==> Get(d, k).value in Values(d)
  {
    GetFirst(d, k);
    if k in Keys(d) {
      var i :| 0 <= i < |d| && Keys(d)[i] == k;
      assert d[i].0 == k;
    }
    if Get(d, k).Some? {
      var i :| 0 <= i < |d| && d[i] == (k, Get(d, k).value);
      assert Keys(d)[i] == k && Values(d)[i] == Get(d, k).value;
    }
  }

  /** `x not in (None, "")`: the test `_pick` applies to a candidate value. */
  predicate Usable(x: Raw) {
    !x.Null? && x != Str("")
  }

  predicate UsableAt(d: Fields, k: string) {
    Get(d, k).Some? && Usable(Get(d, k).value)
  }

  /** `_pick(d, keys, default)`: the value of the first key present with a usable value. */
  function Pick(d: Fields, keys: seq<string>, default: Raw): (r: Raw)
    ensures (forall i :: 0 <= i < |keys| ==> !UsableAt(d, keys[i])) ==> r == default
    ensures (exists i :: 0 <= i < |keys| && UsableAt(d, keys[i])) ==>
              exists i :: && 0 <= i < |keys| && UsableAt(d, keys[i]) && Get(d, keys[i]) == Some(r)
                          && forall j :: 0 <= j < i ==> !UsableAt(d, keys[j])
  {
    if keys == [] then default
    else if UsableAt(d, keys[0]) then Get(d, keys[0]).value
    else
      var r := Pick(d, keys[1..], default);
      assert forall i :: 0 <= i < |keys[1..]| ==> keys[1..][i] == keys[i + 1];
      r
  }

  /** `repr(s)` for a string, without the escaping Python applies to quotes and control characters. */
  function Quote(s: string): string {
    "'" + s + "'"
  }

  /** `str(x)`. Inside a container each element is shown by `repr`, which quotes strings. */
  function Show(x: Raw): string {
    match x
    case Null => "None"
    case Bool(b) => if b then "True" else "False"
    case Int(i) => ShowInt(i)
    case Real(r) => ShowReal(r)
    case Str(s) => s
    case Record(f) =>
      "{" + Join(seq(|f|, k requires 0 <= k < |f| =>
                     Quote(f[k].0) + ": " + (if f[k].1.Str? then Quote(f[k].1.s) else Show(f[k].1))), ", ") + "}"
    case List(xs) =>
      "[" + Join(seq(|xs|, k requires 0 <= k < |xs| =>
                     if xs[k].Str? then Quote(xs[k].s) else Show(xs[k])), ", ") + "]"
  }

  /** `str(r)` for a float, in positional notation with at most 16 fractional digits. */
  function ShowReal(r: real): (t: string)
    ensures '.' in t
  {
    if r < 0.0 then "-" + ShowUnsignedReal(-r) else ShowUnsignedReal(r)
  }

  function ShowUnsignedReal(r: real): (t: string)
    requires r >= 0.0
    ensures '.' in t
  {
    var w := r.Floor;
    var t := ShowNat(w) + "." + FractionText(r - w as real);
    assert t[|ShowNat(w)|] == '.';
    t
  }

  /** The fractional digits of `f`, trailing zeros dropped, at least one digit. */
  function FractionText(f: real): string
    requires 0.0 <= f < 1.0
  {
    var t := DropTrailingZeros(FractionDigits(f, 16));
    if t == [] then "0" else t
  }

  function FractionDigits(f: real, n: nat): (t: string)
    requires 0.0 <= f < 1.0
    ensures AllDigits(t)
    decreases n
  {
    if n == 0 then ""
    else
      var y := f * 10.0;
      var d := y.Floor;
      [DigitChar(d)] + FractionDigits(y - d as real, n - 1)
  }

  function DropTrailingZeros(s: string): string {
    if s != [] && s[|s| - 1] == '0' then DropTrailingZeros(s[..|s| - 1]) else s
  }
}
