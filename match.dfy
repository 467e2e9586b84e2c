/** `calculate_impact_for_match` (impact/calculator.py): fetch a match, locate its innings, total
    its players, score, annotate and order them. The fetch is a parameter: `None` stands for the
    client that failed to import. */
module MatchImpact {
  import opened RawValues
  import opened Locator
  import opened Normalizing
  import opened Scoring
  import opened TeamStats
  import opened Cards

  /** `p.get(k, "")` for a text field of a totals dict. */
  function TextAt(d: map<string, Raw>, k: string): string {
    if k in d && d[k].Str? then d[k].s else ""
  }

  /** `p.get(k, 0)` for an integer counter of a totals dict. */
  function IntAt(d: map<string, Raw>, k: string): int {
    if k in d && d[k].Int? then d[k].i else 0
  }

  /** `p.get(k, 0.0)` for the overs of a totals dict. */
  function RealAt(d: map<string, Raw>, k: string): real {
    if k in d && d[k].Real? then d[k].r else if k in d && d[k].Int? then d[k].i as real else 0.0
  }

  /** The totals the scoring loop reads from one dict of the player map. */
  function ReadAgg(d: map<string, Raw>): (g: Agg)
    ensures forall h :: d == AsDict(h) ==> g == h
  {
    Agg(TextAt(d, "name"), TextAt(d, "team"), IntAt(d, "runs"), IntAt(d, "balls"), IntAt(d, "wickets"), RealAt(d, "overs"))
  }

  /** The score list before annotation: one record per player, in the map's insertion order. */
  function ScoredPlayers(t: Table): (ps: seq<Scored>)
    ensures |ps| == |t| && forall i :: 0 <= i < |t| ==> ps[i] == ScorePlayer(t[i].1)
  {
    seq(|t|, i requires 0 <= i < |t| => ScorePlayer(t[i].1))
  }

  /** The scored, annotated and ordered list for a located scorecard. */
  function ScorecardImpact(sc: seq<Raw>): Result<seq<Scored>> {
    match Normalized(sc)
    case Err(e) => Err(e)
    case Ok(t) => Ok(SortByImpact(Annotated(ScoredPlayers(t))))
  }

  /** What `calculate_impact_for_match(match_id)` returns, or the exception it raises. */
  function MatchImpactOf(matchId: string, fetch: Option<string -> Raw>): Result<seq<Scored>> {
    if matchId == [] || fetch.None? then Ok([])
    else
      var details := fetch.value(matchId);
      if !Truthy(details) then Ok([])
      else if !details.Record? then Err(DetailsNotRecord)
      else
        var sc := ExtractScorecards(details.fields);
        if sc == [] then Ok([]) else ScorecardImpact(sc)
  }

  /** `calculate_impact_for_match(match_id)` */
  method CalculateImpactForMatch(matchId: string, fetch: Option<string -> Raw>) returns (r: Result<seq<Scored>>)
    ensures r == MatchImpactOf(matchId, fetch)
  {
    if |matchId| == 0 || fetch.None? {
      return Ok([]);
    }
    var details := fetch.value(matchId);
    if !Truthy(details) {
      return Ok([]);
    }
    if !details.Record? {
      return Err(DetailsNotRecord);
    }
    var scorecard := ExtractScorecards(details.fields);
    if |scorecard| == 0 {
      return Ok([]);
    }
    r := ImpactOfScorecard(scorecard);
  }

  /** The second half of `calculate_impact_for_match`: normalise the located scorecard, score
      every player, annotate the list in place and sort it. */
  method ImpactOfScorecard(scorecard: seq<Raw>) returns (r: Result<seq<Scored>>)
    ensures r == ScorecardImpact(scorecard)
  {
    var people := NormalizeFromScorecard(scorecard);
    if people.Err? {
      return Err(people.error);
    }
    var out := ScoreAll(people.value, Normalized(scorecard).value);
    var players := new Scored[|out|](k requires 0 <= k < |out| => out[k]);
    assert players[..] == out;
    AnnotateWithTeamStats(players);
    r := Ok(SortByImpact(players[..]));
  }

  /** The scoring loop: one record appended per dict of the player map, in its order. */
  method ScoreAll(values: Dicts, ghost t: Table) returns (out: seq<Scored>)
    requires values == AsDicts(t)
    ensures out == ScoredPlayers(t)
  {
    out := [];
    var i := 0;
    while i < |values|
      invariant 0 <= i <= |values|
      invariant out == ScoredPlayers(t)[..i]
    {
      var g := ReadAgg(values[i].1);
      assert g == t[i].1;
      out := out + [ScorePlayer(g)];
      i := i + 1;
    }
  }

  /** The result is ordered from the highest score down, holds exactly the annotated players and
      keeps players with equal scores in the map's insertion order. */
  lemma ScorecardImpactOrdered(sc: seq<Raw>, v: real)
    requires Normalized(sc).Ok?
    ensures var r := ScorecardImpact(sc).value;
            var ps := Annotated(ScoredPlayers(Normalized(sc).value));
            && SortedByImpact(r)
            && multiset(r) == multiset(ps)
            && WithScore(r, v) == WithScore(ps, v)
  {
    var ps := Annotated(ScoredPlayers(Normalized(sc).value));
    SortSorted(ps);
    SortPermutes(ps);
    SortStable(ps, v);
  }

  /** One record per player of the map, each named and annotated, with the totals of that player. */
  lemma ScorecardImpactPlayers(sc: seq<Raw>)
    requires Normalized(sc).Ok?
    ensures var t := Normalized(sc).value;
            var r := ScorecardImpact(sc).value;
            && |r| == |t|
            && forall e :: e in r ==> Listed(t, e)
  {
    var t := Normalized(sc).value;
    var ps := Annotated(ScoredPlayers(t));
    var r := ScorecardImpact(sc).value;
    NormalizedPlayers(sc);
    SortPermutes(ps);
    forall e | e in r ensures Listed(t, e) {
      assert e in multiset(r);
      AnnotatedListed(t, e);
    }
  }

  /** `e` is named and annotated, and carries the name, team, runs and wickets of a player of `t`. */
  predicate Listed(t: Table, e: Scored) {
    && e.name != "" && e.annotation.Some?
    && exists i :: 0 <= i < |t| && e.name == t[i].1.name && e.team == t[i].1.team
                   && e.runs == t[i].1.runs && e.wickets == t[i].1.wickets
  }

  lemma AnnotatedListed(t: Table, e: Scored)
    requires e in Annotated(ScoredPlayers(t))
    requires forall i :: 0 <= i < |t| ==> t[i].1.name != ""
    ensures Listed(t, e)
  {
    var ps := Annotated(ScoredPlayers(t));
    var i :| 0 <= i < |ps| && ps[i] == e;
    assert e.(annotation := None) == ScoredPlayers(t)[i];
  }

  /** A non-empty score list comes from a document the app's `_scorecard_exists` accepts. */
  lemma ImpactImpliesScorecard(matchId: string, fetch: Option<string -> Raw>)
    requires MatchImpactOf(matchId, fetch).Ok? && MatchImpactOf(matchId, fetch).value != []
    ensures fetch.Some? && ScorecardExists(fetch.value(matchId))
  {
    var details := fetch.value(matchId);
    ExtractImpliesExists(details.fields);
  }
}
