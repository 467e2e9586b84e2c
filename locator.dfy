/** Locating the innings list in a match document (impact/calculator.py `_extract_scorecards`). */
module Locator {
  import opened RawValues

  /** The keys under which providers put the innings list, in the order they are tried. */
  const ScorecardKeys: seq<string> := ["scorecard", "scoreCard", "Scorecard", "innings", "scorecards", "scoreCards"]

  /** `isinstance(x, list) and x` */
  predicate NonEmptyList(x: Raw) {
    x.List? && x.items != []
  }

  /** Whether `d.get(k)` is a non-empty list. */
  predicate ListAt(d: Fields, k: string) {
    NonEmptyList(GetOr(d, k, Null))
  }

  /** The position in `keys` of the first key whose value in `d` is a non-empty list. */
  function FirstListKey(d: Fields, keys: seq<string>): (r: Option<nat>)
    ensures r.None? <==> forall i :: 0 <= i < |keys| ==> !ListAt(d, keys[i])
    ensures r.Some? ==> r.value < |keys| && ListAt(d, keys[r.value])
                        && forall j :: 0 <= j < r.value ==> !ListAt(d, keys[j])
  {
    if keys == [] then None
    else if ListAt(d, keys[0]) then Some(0)
    else
      var r := FirstListKey(d, keys[1..]);
      assert forall i :: 1 <= i < |keys| ==> keys[1..][i - 1] == keys[i];
      if r.Some? then Some(r.value + 1) else None
  }

  /** Whether a value of the document is a dict holding the innings list under one of the keys. */
  predicate NestedHit(v: Raw) {
    HitUnder(v, ScorecardKeys)
  }

  /** Whether `v` is a dict holding a non-empty list under one of `keys`. */
  predicate HitUnder(v: Raw, keys: seq<string>) {
    v.Record? && FirstListKey(v.fields, keys).Some?
  }

  /** The innings list a nested dict holds under the first matching key. */
  function NestedList(v: Raw): (r: seq<Raw>)
    requires NestedHit(v)
  {
    assert HitUnder(v, ScorecardKeys);
    GetOr(v.fields, ScorecardKeys[FirstListKey(v.fields, ScorecardKeys).value], Null).items
  }

  /** The position of the first dict among `vs`, from position `k` on, that holds the innings list. */
  function FirstNested(vs: seq<Raw>, k: nat := 0): (r: Option<nat>)
    requires k <= |vs|
    decreases |vs| - k
    ensures r.None? <==> forall j :: k <= j < |vs| ==> !NestedHit(vs[j])
    ensures r.Some? ==> k <= r.value < |vs| && NestedHit(vs[r.value])
                        && forall m :: k <= m < r.value ==> !NestedHit(vs[m])
  {
    if k == |vs| then None
    else if NestedHit(vs[k]) then Some(k)
    else FirstNested(vs, k + 1)
  }

  /** `_extract_scorecards(details)`: the first alias holding a non-empty list at the top level,
      else the first one found inside a dict value (values scanned in order), else `[]`. */
  function ExtractScorecards(details: Fields): (r: seq<Raw>)
    ensures r == [] <==>
              && (forall i :: 0 <= i < |ScorecardKeys| ==> !ListAt(details, ScorecardKeys[i]))
              && (forall j :: 0 <= j < |details| ==> !NestedHit(details[j].1))
    ensures r != [] ==>
              || (exists i :: 0 <= i < |ScorecardKeys| && GetOr(details, ScorecardKeys[i], Null) == List(r))
              || (exists j, i :: && 0 <= j < |details| && details[j].1.Record? && 0 <= i < |ScorecardKeys|
                                 && GetOr(details[j].1.fields, ScorecardKeys[i], Null) == List(r))
  {
    var vs := Values(details);
    match FirstListKey(details, ScorecardKeys)
    case Some(i) => GetOr(details, ScorecardKeys[i], Null).items
    case None =>
      match FirstNested(vs)
      case Some(j) =>
        assert vs[j] == details[j].1;
        NestedList(vs[j])
      case None => []
  }

  /** A top-level alias holding a non-empty list wins over everything nested, and the first such
      alias in the fixed order is the one returned. */
  lemma ExtractTopLevel(details: Fields, i: nat)
    requires i < |ScorecardKeys| && ListAt(details, ScorecardKeys[i])
    requires forall m :: 0 <= m < i ==> !ListAt(details, ScorecardKeys[m])
    ensures List(ExtractScorecards(details)) == GetOr(details, ScorecardKeys[i], Null)
  {
    var r := FirstListKey(details, ScorecardKeys);
    assert r.value == i by {
      assert !(r.value < i);
      assert !(i < r.value);
    }
  }

  /** When no alias matches at the top level, the first dict value that holds the list decides. */
  lemma ExtractNested(details: Fields, j: nat)
    requires forall i :: 0 <= i < |ScorecardKeys| ==> !ListAt(details, ScorecardKeys[i])
    requires j < |details| && NestedHit(details[j].1)
    requires forall m :: 0 <= m < j ==> !NestedHit(details[m].1)
    ensures ExtractScorecards(details) == NestedList(details[j].1)
  {
    var vs := Values(details);
    var k := FirstNested(vs).value;
    assert vs[j] == details[j].1;
    assert k == j by {
      assert !(k < j) by { assert vs[k] == details[k].1; }
      assert !(j < k);
    }
  }
}
