/** `_combine` (impact/calculator.py): merging one row's entry into a player's running totals.
    The counters add up, the first non-empty name and team stay, every other key is left alone. */
module Combining {
  import opened RawValues
  import opened Names

  const CounterKeys: seq<string> := ["runs", "balls", "wickets", "overs"]

  predicate IsNumber(x: Raw) {
    x.Bool? || x.Int? || x.Real?
  }

  /** The value of a number; a bool counts as 0 or 1, as in Python arithmetic. */
  function NumValue(x: Raw): real
    requires IsNumber(x)
  {
    match x
    case Bool(b) => if b then 1.0 else 0.0
    case Int(i) => i as real
    case Real(r) => r
  }

  function IntValue(x: Raw): int
    requires x.Bool? || x.Int?
  {
    if x.Bool? then (if x.b then 1 else 0) else x.i
  }

  /** `x + y` on numbers: two ints (or bools) give an int, anything with a float gives a float. */
  function Plus(x: Raw, y: Raw): (r: Raw)
    requires IsNumber(x) && IsNumber(y)
    ensures IsNumber(r) && NumValue(r) == NumValue(x) + NumValue(y)
    ensures r.Real? <==> x.Real? || y.Real?
  {
    if x.Real? || y.Real? then Real(NumValue(x) + NumValue(y)) else Int(IntValue(x) + IntValue(y))
  }

  /** The counters a dict holds are numbers. */
  predicate CountersNumeric(a: map<string, Raw>) {
    forall k :: k in a && k in CounterKeys ==> IsNumber(a[k])
  }

  /** The counters an entry holds are numbers. */
  predicate EntryNumeric(b: Fields) {
    forall i :: 0 <= i < |b| && b[i].0 in CounterKeys ==> IsNumber(b[i].1)
  }

  /** `out.get(k)` is truthy. */
  predicate Holds(out: map<string, Raw>, k: string) {
    k in out && Truthy(out[k])
  }

  /** One turn of `_combine`'s loop, for the pair `(k, v)` of `b`. */
  function Step(out: map<string, Raw>, k: string, v: Raw): (r: map<string, Raw>)
    requires CountersNumeric(out) && (k in CounterKeys ==> IsNumber(v))
    ensures CountersNumeric(r)
  {
    if k in CounterKeys then out[k := Plus(if k in out then out[k] else Int(0), v)]
    else if k == "team" then (if Holds(out, k) then out else out[k := Str(TeamName(v))])
    else if k == "name" then (if Holds(out, k) then out else out[k := Str(PlayerName(v))])
    else out
  }

  /** `_combine(a, b)`: `a` after one turn for each pair of `b`, in order. */
  function Combined(a: map<string, Raw>, b: Fields): (r: map<string, Raw>)
    requires CountersNumeric(a) && EntryNumeric(b)
    ensures CountersNumeric(r)
  {
    if b == [] then a
    else
      var p := b[..|b| - 1];
      assert EntryNumeric(p) by { assert forall i :: 0 <= i < |p| ==> p[i] == b[i]; }
      Step(Combined(a, p), b[|b| - 1].0, b[|b| - 1].1)
  }

  /** One more pair in `b` is one more turn of the loop. */
  lemma CombinedSnoc(a: map<string, Raw>, p: Fields, k: string, v: Raw)
    requires CountersNumeric(a) && EntryNumeric(p) && (k in CounterKeys ==> IsNumber(v))
    ensures EntryNumeric(p + [(k, v)])
    ensures Combined(a, p + [(k, v)]) == Step(Combined(a, p), k, v)
  {
    var b := p + [(k, v)];
    assert b[..|b| - 1] == p;
  }

  /** `_combine(a, b)`, as the source runs it: copy `a`, then update the copy key by key. */
  method Combine(a: map<string, Raw>, b: Fields) returns (out: map<string, Raw>)
    requires CountersNumeric(a) && EntryNumeric(b)
    ensures out == Combined(a, b)
  {
    out := a;
    var i := 0;
    while i < |b|
      invariant 0 <= i <= |b|
      invariant EntryNumeric(b[..i]) && CountersNumeric(out)
      invariant out == Combined(a, b[..i])
    {
      var k, v := b[i].0, b[i].1;
      if k in CounterKeys {
        var prev := if k in out then out[k] else Int(0);
        out := out[k := Plus(prev, v)];
      } else if k == "team" {
        var t := TeamName(v);
        if !Holds(out, k) {
          out := out[k := Str(t)];
        }
      } else if k == "name" {
        var n := PlayerName(v);
        if !Holds(out, k) {
          out := out[k := Str(n)];
        }
      }
      assert b[..i + 1][..i] == b[..i];
      i := i + 1;
    }
    assert b[..|b|] == b;
  }

  /** A key that `b` does not mention, or that `_combine` does not handle, keeps its value from `a`. */
  lemma {:induction false} CombinedKeeps(a: map<string, Raw>, b: Fields, k: string)
    requires CountersNumeric(a) && EntryNumeric(b)
    requires (k !in CounterKeys && k != "team" && k != "name") || forall j :: 0 <= j < |b| ==> b[j].0 != k
    ensures var r := Combined(a, b); (k in r <==> k in a) && (k in a ==> r[k] == a[k])
  {
    if b != [] {
      var p := b[..|b| - 1];
      assert forall j :: 0 <= j < |p| ==> p[j] == b[j];
      CombinedKeeps(a, p, k);
    }
  }

  /** When `b` has exactly one pair for the handled key `k`, as a dict does, `_combine` gives:
      for a counter, `a`'s value (0 when absent) plus `b`'s; for the name and the team, `a`'s value
      when it is truthy, else `b`'s value normalised to a string. */
  lemma {:induction false} CombinedAt(a: map<string, Raw>, b: Fields, k: string, i: nat)
    requires CountersNumeric(a) && EntryNumeric(b)
    requires k in CounterKeys || k == "team" || k == "name"
    requires i < |b| && b[i].0 == k && forall j :: 0 <= j < |b| && j != i ==> b[j].0 != k
    ensures k in Combined(a, b)
    ensures k in CounterKeys ==>
              Combined(a, b)[k] == Plus(if k in a then a[k] else Int(0), b[i].1)
    ensures k == "team" ==>
              Combined(a, b)[k] == if Holds(a, k) then a[k] else Str(TeamName(b[i].1))
    ensures k == "name" ==>
              Combined(a, b)[k] == if Holds(a, k) then a[k] else Str(PlayerName(b[i].1))
  {
    var p := b[..|b| - 1];
    assert forall j :: 0 <= j < |p| ==> p[j] == b[j];
    assert EntryNumeric(p);
    var c := Combined(a, p);
    var last := b[|b| - 1];
    assert Combined(a, b) == Step(c, last.0, last.1);
    if i == |b| - 1 {
      CombinedKeeps(a, p, k);
      assert (k in c <==> k in a) && (k in a ==> c[k] == a[k]);
      assert Holds(c, k) == Holds(a, k);
    } else {
      CombinedAt(a, p, k, i);
      assert last.0 != k;
      assert k in Combined(a, b) && Combined(a, b)[k] == c[k];
    }
  }

  /** A counter of `_combine(a, b)` holds the sum of the two counters as a number. */
  lemma CombinedCounterSum(a: map<string, Raw>, b: Fields, k: string, i: nat)
    requires CountersNumeric(a) && EntryNumeric(b) && k in CounterKeys
    requires i < |b| && b[i].0 == k && forall j :: 0 <= j < |b| && j != i ==> b[j].0 != k
    ensures k in Combined(a, b) && IsNumber(Combined(a, b)[k])
    ensures NumValue(Combined(a, b)[k]) == (if k in a then NumValue(a[k]) else 0.0) + NumValue(b[i].1)
  {
    CombinedAt(a, b, k, i);
  }

  /** The first writer wins: a truthy name or team already in `a` survives `_combine`. */
  lemma {:induction false} CombinedFirstWriter(a: map<string, Raw>, b: Fields, k: string)
    requires CountersNumeric(a) && EntryNumeric(b)
    requires (k == "team" || k == "name") && Holds(a, k)
    ensures k in Combined(a, b) && Combined(a, b)[k] == a[k]
  {
    if b != [] {
      var p := b[..|b| - 1];
      assert forall j :: 0 <= j < |p| ==> p[j] == b[j];
      CombinedFirstWriter(a, p, k);
    }
  }
}
