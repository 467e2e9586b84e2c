/** Team and player names (impact/calculator.py `_team_name`, `_player_name`): any raw value
    the provider uses for a team or a player, turned into one display string. */
module Names {
  import opened Text
  import opened RawValues

  /** `xs[0] or xs[1] or ... or last` */
  function OrChain(xs: seq<Raw>, last: Raw): (r: Raw)
    ensures (forall i :: 0 <= i < |xs| ==> !Truthy(xs[i])) ==> r == last
    ensures forall i :: 0 <= i < |xs| && Truthy(xs[i]) && (forall j :: 0 <= j < i ==> !Truthy(xs[j])) ==> r == xs[i]
  {
    if xs == [] then last
    else
      var rest := OrChain(xs[1..], last);
      assert forall i :: 1 <= i < |xs| ==> xs[1..][i - 1] == xs[i];
      Or(xs[0], rest)
  }

  /** `[d.get(k) for k in keys]` */
  function GetAll(d: Fields, keys: seq<string>): (vs: seq<Raw>)
    ensures |vs| == |keys| && forall i :: 0 <= i < |keys| ==> vs[i] == GetOr(d, keys[i], Null)
  {
    seq(|keys|, i requires 0 <= i < |keys| => GetOr(d, keys[i], Null))
  }

  const TeamNameKeys: seq<string> := ["name", "teamName", "shortName", "abbr"]

  const PlayerNameKeys: seq<string> := ["name", "fullName", "playerName", "shortName", "batsman", "bowler", "id"]

  /** `_team_name(val)`: a dict gives its first truthy name field, a list the distinct non-empty
      names of its members joined by `" / "`, anything else `str(val or "")`. */
  function TeamName(val: Raw): string
    decreases val
  {
    match val
    case Record(f) => Show(OrChain(GetAll(f, TeamNameKeys), Str("")))
    case List(xs) => Join(Dedup(seq(|xs|, i requires 0 <= i < |xs| => TeamName(xs[i]))), " / ")
    case _ => Show(Or(val, Str("")))
  }

  /** `_player_name(val)`: a dict gives its first truthy name field, anything else `str(val or "")`. */
  function PlayerName(val: Raw): string {
    match val
    case Record(f) => Show(OrChain(GetAll(f, PlayerNameKeys), Str("")))
    case _ => Show(Or(val, Str("")))
  }

  /** The list `_team_name` builds for a list value: each non-empty name once, in first-seen order. */
  function Dedup(ns: seq<string>): (r: seq<string>)
    ensures forall i, j :: 0 <= i < j < |r| ==> r[i] != r[j]
    ensures forall n :: n in r <==> n in ns && n != ""
  {
    if ns == [] then []
    else
      var prev := Dedup(ns[..|ns| - 1]);
      var n := ns[|ns| - 1];
      assert forall m :: m in ns <==> m in ns[..|ns| - 1] || m == n;
      if n != "" && n !in prev then prev + [n] else prev
  }

  /** The position of the first `x` in `s`. */
  function FirstIndex<T(==)>(s: seq<T>, x: T): (k: nat)
    requires x in s
    ensures k < |s| && s[k] == x && x !in s[..k]
  {
    if s[0] == x then 0
    else
      var k := FirstIndex(s[1..], x);
      assert s[..k + 1] == [s[0]] + s[1..][..k];
      k + 1
  }

  lemma {:induction false} FirstIndexAppend<T>(s: seq<T>, y: T, x: T)
    requires x in s
    ensures FirstIndex(s + [y], x) == FirstIndex(s, x)
  {
    if s[0] != x {
      assert (s + [y])[1..] == s[1..] + [y];
      FirstIndexAppend(s[1..], y, x);
    }
  }

  /** `_team_name` keeps the names in the order they are first seen. */
  lemma {:induction false} DedupFirstSeen(ns: seq<string>, i: nat, j: nat)
    requires i < j < |Dedup(ns)|
    ensures FirstIndex(ns, Dedup(ns)[i]) < FirstIndex(ns, Dedup(ns)[j])
  {
    var p := ns[..|ns| - 1];
    var n := ns[|ns| - 1];
    var prev := Dedup(p);
    var r := Dedup(ns);
    assert ns == p + [n];
    assert r[i] in prev && r[i] in p;
    FirstIndexAppend(p, n, r[i]);
    if j < |prev| {
      assert r[j] == prev[j] && r[i] == prev[i];
      DedupFirstSeen(p, i, j);
      FirstIndexAppend(p, n, r[j]);
    } else {
      assert r[j] == n && n !in p;
      assert FirstIndex(ns, n) == |p| by {
        assert forall m :: 0 <= m < |p| ==> ns[m] == p[m] && p[m] != n;
      }
    }
  }

  /** On a dict, `_team_name` is the `str` of the first truthy of its name fields, or `""`. */
  lemma TeamNameOfRecord(f: Fields, i: nat)
    requires i < |TeamNameKeys| && Truthy(GetOr(f, TeamNameKeys[i], Null))
    requires forall j :: 0 <= j < i ==> !Truthy(GetOr(f, TeamNameKeys[j], Null))
    ensures TeamName(Record(f)) == Show(GetOr(f, TeamNameKeys[i], Null))
  {
    var vs := GetAll(f, TeamNameKeys);
    assert vs[i] == GetOr(f, TeamNameKeys[i], Null);
  }

  /** A dict with none of the name fields truthy has the empty team name. */
  lemma TeamNameOfNamelessRecord(f: Fields)
    requires forall j :: 0 <= j < |TeamNameKeys| ==> !Truthy(GetOr(f, TeamNameKeys[j], Null))
    ensures TeamName(Record(f)) == ""
  {
    var vs := GetAll(f, TeamNameKeys);
    assert forall j :: 0 <= j < |vs| ==> !Truthy(vs[j]);
  }

  /** On a list, `_team_name` joins the distinct non-empty names of the members, first-seen first. */
  lemma TeamNameOfList(xs: seq<Raw>)
    ensures var parts := Dedup(seq(|xs|, i requires 0 <= i < |xs| => TeamName(xs[i])));
            && TeamName(List(xs)) == Join(parts, " / ")
            && (forall i, j :: 0 <= i < j < |parts| ==> parts[i] != parts[j])
            && (forall n :: n in parts <==> n != "" && exists i :: 0 <= i < |xs| && TeamName(xs[i]) == n)
  {
    var names := seq(|xs|, i requires 0 <= i < |xs| => TeamName(xs[i]));
    assert forall i :: 0 <= i < |xs| ==> names[i] == TeamName(xs[i]);
    assert forall n :: n in names <==> exists i :: 0 <= i < |xs| && TeamName(xs[i]) == n by {
      forall n | n in names ensures exists i :: 0 <= i < |xs| && TeamName(xs[i]) == n {
        var i :| 0 <= i < |names| && names[i] == n;
      }
    }
  }

  /** A string is its own team name and its own player name. */
  lemma NameOfStr(s: string)
    ensures TeamName(Str(s)) == s && PlayerName(Str(s)) == s
  {
  }

  /** `str(x)` is empty only for the empty string. */
  lemma ShowEmpty(x: Raw)
    ensures Show(x) == "" <==> x == Str("")
  {
    match x
    case Int(i) =>
      if i < 0 { assert Show(x)[0] == '-'; } else { assert |ShowNat(i)| > 0; }
    case Real(r) =>
      assert '.' in ShowReal(r);
    case Record(f) =>
      assert Show(x)[0] == '{';
    case List(xs) =>
      assert Show(x)[0] == '[';
    case _ =>
  }

  /** A player value that is not a dict has an empty name exactly when it is falsy. */
  lemma PlayerNameEmpty(x: Raw)
    requires !x.Record?
    ensures PlayerName(x) == "" <==> !Truthy(x)
  {
    ShowEmpty(Or(x, Str("")));
  }

  /** A dict has an empty player name exactly when none of its name fields is truthy. */
  lemma PlayerNameOfRecordEmpty(f: Fields)
    ensures PlayerName(Record(f)) == "" <==>
              forall j :: 0 <= j < |PlayerNameKeys| ==> !Truthy(GetOr(f, PlayerNameKeys[j], Null))
  {
    var vs := GetAll(f, PlayerNameKeys);
    var r := OrChain(vs, Str(""));
    ShowEmpty(r);
    if exists i :: 0 <= i < |vs| && Truthy(vs[i]) {
      var i := FirstTruthy(vs);
      assert r == vs[i];
    }
  }

  function FirstTruthy(xs: seq<Raw>): (i: nat)
    requires exists i :: 0 <= i < |xs| && Truthy(xs[i])
    ensures i < |xs| && Truthy(xs[i]) && forall j :: 0 <= j < i ==> !Truthy(xs[j])
  {
    if Truthy(xs[0]) then 0
    else
      assert exists i :: 0 <= i < |xs[1..]| && Truthy(xs[1..][i]) by {
        var i :| 0 <= i < |xs| && Truthy(xs[i]);
        assert xs[1..][i - 1] == xs[i];
      }
      var i := FirstTruthy(xs[1..]);
      assert forall j :: 1 <= j <= i ==> xs[j] == xs[1..][j - 1];
      i + 1
  }
}
