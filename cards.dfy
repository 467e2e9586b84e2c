/** The web front end's match helpers (app.py): `_scorecard_exists`, which decides whether a
    fetched document has a scorecard to show, and `_to_card`, which reshapes a stored match. */
module Cards {
  import opened Text
  import opened RawValues
  import opened Locator

  /** `has_list(container, key)`: the value under `key` is a non-empty list, or a dict whose
      `innings` is a non-empty list. */
  predicate HasList(container: Raw, key: string) {
    && container.Record?
    && var v := GetOr(container.fields, key, Null);
       || NonEmptyList(v)
       || (v.Record? && NonEmptyList(GetOr(v.fields, "innings", Null)))
  }

  /** The loop over the aliases: some alias of `keys` passes `has_list`. */
  predicate AnyAlias(container: Raw, keys: seq<string>) {
    keys != [] && (HasList(container, keys[0]) || AnyAlias(container, keys[1..]))
  }

  /** The loop over the document's values: some dict value passes the alias loop. */
  predicate AnyNested(vs: seq<Raw>) {
    vs != [] && ((vs[0].Record? && AnyAlias(vs[0], ScorecardKeys)) || AnyNested(vs[1..]))
  }

  /** `_scorecard_exists(details)` */
  function ScorecardExists(details: Raw): (b: bool)
    ensures !details.Record? ==> !b
    ensures b <==> details.Record? &&
                     ((exists i :: 0 <= i < |ScorecardKeys| && HasList(details, ScorecardKeys[i])) ||
                      (exists j, i :: && 0 <= j < |details.fields| && 0 <= i < |ScorecardKeys|
                                      && details.fields[j].1.Record? && HasList(details.fields[j].1, ScorecardKeys[i])))
  {
    if !details.Record? then false
    else
      AliasSpec(details, ScorecardKeys);
      NestedSpec(Values(details.fields));
      var vs := Values(details.fields);
      assert forall j :: 0 <= j < |vs| ==> vs[j] == details.fields[j].1;
      AnyAlias(details, ScorecardKeys) || AnyNested(vs)
  }

  lemma {:induction false} AliasSpec(container: Raw, keys: seq<string>)
    ensures AnyAlias(container, keys) <==> exists i :: 0 <= i < |keys| && HasList(container, keys[i])
  {
    if keys != [] {
      AliasSpec(container, keys[1..]);
      assert forall i :: 1 <= i < |keys| ==> keys[1..][i - 1] == keys[i];
    }
  }

  lemma {:induction false} NestedSpec(vs: seq<Raw>)
    ensures AnyNested(vs) <==>
              exists j, i :: && 0 <= j < |vs| && 0 <= i < |ScorecardKeys|
                             && vs[j].Record? && HasList(vs[j], ScorecardKeys[i])
  {
    if vs != [] {
      NestedSpec(vs[1..]);
      AliasSpec(vs[0], ScorecardKeys);
      assert forall j :: 1 <= j < |vs| ==> vs[1..][j - 1] == vs[j];
      if AnyNested(vs[1..]) {
        var j, i :| && 0 <= j < |vs[1..]| && 0 <= i < |ScorecardKeys|
                    && vs[1..][j].Record? && HasList(vs[1..][j], ScorecardKeys[i]);
        assert vs[j + 1] == vs[1..][j];
      }
    }
  }

  /** Whatever `_extract_scorecards` finds, `_scorecard_exists` reports. */
  lemma ExtractImpliesExists(details: Fields)
    requires ExtractScorecards(details) != []
    ensures ScorecardExists(Record(details))
  {
    var d := Record(details);
    var r := ExtractScorecards(details);
    if i :| 0 <= i < |ScorecardKeys| && ListAt(details, ScorecardKeys[i]) {
      assert HasList(d, ScorecardKeys[i]);
    } else {
      var j :| 0 <= j < |details| && NestedHit(details[j].1);
      var v := details[j].1;
      var i := FirstListKey(v.fields, ScorecardKeys).value;
      assert HasList(v, ScorecardKeys[i]);
    }
  }

  /** The converse fails: an `innings` list two levels down, under an alias, counts as a scorecard
      for `_scorecard_exists` while `_extract_scorecards` returns `[]` for it. */
  lemma ExistsWithoutExtraction()
    ensures var doc := [("data", Record([("scorecard", Record([("innings", List([Null]))]))]))];
            ScorecardExists(Record(doc)) && ExtractScorecards(doc) == []
  {
    var inner := Record([("innings", List([Null]))]);
    var mid := Record([("scorecard", inner)]);
    var doc := [("data", mid)];
    assert HasList(mid, ScorecardKeys[0]) by {
      GetAt(mid.fields, "scorecard", 0);
      GetAt(inner.fields, "innings", 0);
    }
    forall i | 0 <= i < |ScorecardKeys|
      ensures !ListAt(doc, ScorecardKeys[i]) && !ListAt(mid.fields, ScorecardKeys[i])
    {
      SingleBinding("data", mid, ScorecardKeys[i]);
      SingleBinding("scorecard", inner, ScorecardKeys[i]);
    }
    assert !NestedHit(doc[0].1);
  }

  /** The value a one-binding dict gives for `key`. */
  lemma SingleBinding(k: string, v: Raw, key: string)
    ensures GetOr([(k, v)], key, Null) == if k == key then v else Null
  {
    if k != key {
      assert [(k, v)][1..] == [];
      assert Get([(k, v)], key) == Get([], key) == None;
    }
  }

  /** The eleven keys of a match card, in order. */
  const CardKeys: seq<string> := ["id", "name", "status", "venue", "date", "team1", "team2", "score", "series", "toss", "winner"]

  /** `f"{team1} vs {team2}".strip()`, the fallback match name. */
  function VersusName(m: Fields): string {
    Strip(Show(GetOr(m, "team1", Str(""))) + " vs " + Show(GetOr(m, "team2", Str(""))))
  }

  /** `_to_card(match)` */
  function ToCard(m: Fields): (card: Fields)
    ensures Keys(card) == CardKeys
    ensures card[0].1 == (if Truthy(GetOr(m, "match_id", Null)) then GetOr(m, "match_id", Null) else GetOr(m, "id", Null))
    ensures !Truthy(GetOr(m, "name", Null)) ==> card[1].1 == Str(VersusName(m))
    ensures Truthy(GetOr(m, "name", Null)) ==> card[1].1 == GetOr(m, "name", Null)
    ensures forall i :: 2 <= i < |CardKeys| ==> card[i].1 == GetOr(m, CardKeys[i], Str(""))
  {
    [ ("id", Or(GetOr(m, "match_id", Null), GetOr(m, "id", Null))),
      ("name", Or(GetOr(m, "name", Null), Str(VersusName(m)))),
      ("status", GetOr(m, "status", Str(""))),
      ("venue", GetOr(m, "venue", Str(""))),
      ("date", GetOr(m, "date", Str(""))),
      ("team1", GetOr(m, "team1", Str(""))),
      ("team2", GetOr(m, "team2", Str(""))),
      ("score", GetOr(m, "score", Str(""))),
      ("series", GetOr(m, "series", Str(""))),
      ("toss", GetOr(m, "toss", Str(""))),
      ("winner", GetOr(m, "winner", Str("")))
    ]
  }

  /** With no name and both teams given as clean non-empty text, the card is named `"<team1> vs <team2>"`. */
  lemma CardNameFromTeams(m: Fields, t1: string, t2: string)
    requires !Truthy(GetOr(m, "name", Null))
    requires GetOr(m, "team1", Str("")) == Str(t1) && GetOr(m, "team2", Str("")) == Str(t2)
    requires t1 != [] && t2 != [] && !IsSpace(t1[0]) && !IsSpace(t2[|t2| - 1])
    ensures GetOr(ToCard(m), "name", Null) == Str(t1 + " vs " + t2)
  {
    var s := t1 + " vs " + t2;
    assert s[0] == t1[0] && s[|s| - 1] == t2[|t2| - 1];
    assert ToCard(m)[1].1 == Str(Strip(s));
    StripUnchanged(s);
    GetAt(ToCard(m), "name", 1);
  }

  /** A match with neither a name nor teams is named `"vs"`: the surrounding blanks are stripped. */
  lemma CardNameWithoutTeams(m: Fields)
    requires !Truthy(GetOr(m, "name", Null)) && !HasKey(m, "team1") && !HasKey(m, "team2")
    ensures GetOr(ToCard(m), "name", Null) == Str("vs")
  {
    GetFirst(m, "team1");
    GetFirst(m, "team2");
    var s := " vs ";
    assert "" + s + "" == s;
    assert s[1..] == "vs " && "vs "[..2] == "vs";
    assert TrimLeft(s) == "vs ";
    assert TrimRight("vs ") == "vs";
    assert ToCard(m)[1].1 == Str("vs");
    GetAt(ToCard(m), "name", 1);
  }
}
