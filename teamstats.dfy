/** Per-team accumulation and the in-place annotation of a score list
    (impact/calculator.py `_annotate_with_team_stats`; the same accumulation opens `summarize_impact`). */
module TeamStats {
  import opened RawValues
  import opened Names
  import opened Scoring

  /** `_team_name(p.get("team", ""))`, the team string a player is grouped under. */
  function TeamOf(p: Scored): (t: string)
    ensures t == p.team
  {
    NameOfStr(p.team);
    TeamName(Str(p.team))
  }

  /** The scores of `t`'s players, added up; players are grouped by `TeamOf`, which is their team field. */
  function TeamSum(ps: seq<Scored>, t: string): real {
    if ps == [] then 0.0
    else TeamSum(ps[..|ps| - 1], t) + (if ps[|ps| - 1].team == t then ps[|ps| - 1].impactScore else 0.0)
  }

  /** The number of `t`'s players. */
  function TeamCount(ps: seq<Scored>, t: string): nat {
    if ps == [] then 0
    else TeamCount(ps[..|ps| - 1], t) + (if ps[|ps| - 1].team == t then 1 else 0)
  }

  /** The team strings in the order they first appear, each once. */
  function Teams(ps: seq<Scored>): (ts: seq<string>)
    ensures forall i, j :: 0 <= i < j < |ts| ==> ts[i] != ts[j]
  {
    if ps == [] then []
    else
      var prev := Teams(ps[..|ps| - 1]);
      var t := ps[|ps| - 1].team;
      if t in prev then prev else prev + [t]
  }

  /** A team is listed exactly when it has players. */
  lemma {:induction false} TeamsListed(ps: seq<Scored>, t: string)
    ensures t in Teams(ps) <==> TeamCount(ps, t) > 0
  {
    if ps != [] {
      TeamsListed(ps[..|ps| - 1], t);
    }
  }

  /** A team has players exactly when some player's team string is it. */
  lemma {:induction false} TeamCountPositive(ps: seq<Scored>, t: string)
    ensures TeamCount(ps, t) > 0 <==> exists i :: 0 <= i < |ps| && ps[i].team == t
  {
    if ps != [] {
      var p := ps[..|ps| - 1];
      TeamCountPositive(p, t);
      assert forall i :: 0 <= i < |p| ==> p[i] == ps[i];
      if TeamCount(p, t) > 0 {
        var i :| 0 <= i < |p| && p[i].team == t;
        assert ps[i].team == t;
      }
    }
  }

  /** `order`, `sums` and `counts` hold the teams of `ps` in first-seen order, their totals
      and their player counts. */
  ghost predicate TotalsOf(ps: seq<Scored>, order: seq<string>, sums: map<string, real>, counts: map<string, nat>) {
    && order == Teams(ps)
    && (forall t :: (t in sums <==> t in order) && (t in counts <==> t in order))
    && (forall t :: t in sums ==> sums[t] == TeamSum(ps, t))
    && (forall t :: t in counts ==> counts[t] == TeamCount(ps, t) && counts[t] > 0)
  }

  /** The accumulation loop: `sums[t] += p["impact_score"]` and `counts[t] += 1` for each player,
      with the teams in the order the dicts first see them. */
  method TeamTotals(ps: seq<Scored>) returns (order: seq<string>, sums: map<string, real>, counts: map<string, nat>)
    ensures TotalsOf(ps, order, sums, counts)
  {
    order, sums, counts := [], map[], map[];
    var i := 0;
    while i < |ps|
      invariant 0 <= i <= |ps|
      invariant TotalsOf(ps[..i], order, sums, counts)
    {
      var t := TeamOf(ps[i]);
      TotalsNext(ps, i, order, sums, counts);
      if t !in order {
        order := order + [t];
      }
      sums := sums[t := (if t in sums then sums[t] else 0.0) + ps[i].impactScore];
      counts := counts[t := (if t in counts then counts[t] else 0) + 1];
      i := i + 1;
    }
    assert ps[..i] == ps;
  }

  /** One turn of the accumulation loop keeps the totals up to date. */
  lemma TotalsNext(ps: seq<Scored>, i: nat, order: seq<string>, sums: map<string, real>, counts: map<string, nat>)
    requires i < |ps| && TotalsOf(ps[..i], order, sums, counts)
    ensures var t := ps[i].team;
            TotalsOf(ps[..i + 1], if t in order then order else order + [t],
                     sums[t := (if t in sums then sums[t] else 0.0) + ps[i].impactScore],
                     counts[t := (if t in counts then counts[t] else 0) + 1])
  {
    OrderNext(ps, i, order, sums, counts);
    SumsNext(ps, i, order, sums);
    CountsNext(ps, i, order, counts);
  }

  lemma OrderNext(ps: seq<Scored>, i: nat, order: seq<string>, sums: map<string, real>, counts: map<string, nat>)
    requires i < |ps| && order == Teams(ps[..i])
    requires forall t :: (t in sums <==> t in order) && (t in counts <==> t in order)
    ensures var t := ps[i].team;
            var next := if t in order then order else order + [t];
            && next == Teams(ps[..i + 1])
            && forall u :: (u in sums[t := 0.0] <==> u in next) && (u in counts[t := 0] <==> u in next)
  {
    TotalsSnoc(ps, i);
  }

  lemma SumsNext(ps: seq<Scored>, i: nat, order: seq<string>, sums: map<string, real>)
    requires i < |ps| && order == Teams(ps[..i]) && forall t :: t in sums <==> t in order
    requires forall t :: t in sums ==> sums[t] == TeamSum(ps[..i], t)
    ensures var t := ps[i].team;
            var next := sums[t := (if t in sums then sums[t] else 0.0) + ps[i].impactScore];
            forall u :: u in next ==> next[u] == TeamSum(ps[..i + 1], u)
  {
    TotalsSnoc(ps, i);
    var t := ps[i].team;
    var before := if t in sums then sums[t] else 0.0;
    assert before == TeamSum(ps[..i], t) by {
      if t !in sums {
        TeamsListed(ps[..i], t);
        NoPlayersNoSum(ps[..i], t);
      }
    }
    var next := sums[t := before + ps[i].impactScore];
    forall u | u in next ensures next[u] == TeamSum(ps[..i + 1], u) {
      if u != t {
        assert next[u] == sums[u];
      }
    }
  }

  lemma CountsNext(ps: seq<Scored>, i: nat, order: seq<string>, counts: map<string, nat>)
    requires i < |ps| && order == Teams(ps[..i]) && forall t :: t in counts <==> t in order
    requires forall t :: t in counts ==> counts[t] == TeamCount(ps[..i], t) && counts[t] > 0
    ensures var t := ps[i].team;
            var next := counts[t := (if t in counts then counts[t] else 0) + 1];
            forall u :: u in next ==> next[u] == TeamCount(ps[..i + 1], u) && next[u] > 0
  {
    TotalsSnoc(ps, i);
    var t := ps[i].team;
    if t !in counts {
      TeamsListed(ps[..i], t);
    }
  }

  /** One more player adds to its own team's total and count only, and lists its team if new. */
  lemma TotalsSnoc(ps: seq<Scored>, i: nat)
    requires i < |ps|
    ensures var t := ps[i].team;
            Teams(ps[..i + 1]) == if t in Teams(ps[..i]) then Teams(ps[..i]) else Teams(ps[..i]) + [t]
    ensures forall u :: TeamSum(ps[..i + 1], u) == TeamSum(ps[..i], u) + (if ps[i].team == u then ps[i].impactScore else 0.0)
    ensures forall u :: TeamCount(ps[..i + 1], u) == TeamCount(ps[..i], u) + (if ps[i].team == u then 1 else 0)
  {
    assert ps[..i + 1][..i] == ps[..i];
  }

  lemma {:induction false} NoPlayersNoSum(ps: seq<Scored>, t: string)
    requires TeamCount(ps, t) == 0
    ensures TeamSum(ps, t) == 0.0
  {
    if ps != [] {
      NoPlayersNoSum(ps[..|ps| - 1], t);
    }
  }

  /** The team average, `sums[t] / counts[t]`; 0.0 for a team without players. */
  function TeamAvg(ps: seq<Scored>, t: string): real {
    if TeamCount(ps, t) > 0 then TeamSum(ps, t) / TeamCount(ps, t) as real else 0.0
  }

  /** `tier(score)` */
  function TierOf(score: real): (tier: Tier)
    ensures tier == Elite <==> score >= 110.0
    ensures tier == High <==> 80.0 <= score < 110.0
    ensures tier == Solid <==> 50.0 <= score < 80.0
    ensures tier == Developing <==> score < 50.0
  {
    if score >= 110.0 then Elite else if score >= 80.0 then High else if score >= 50.0 then Solid else Developing
  }

  /** The mark for a delta: up above 3, down below -3, level in between. */
  function SymbolOf(delta: real): (sym: Symbol)
    ensures sym == Up <==> delta > 3.0
    ensures sym == Down <==> delta < -3.0
    ensures sym == Level <==> -3.0 <= delta <= 3.0
  {
    if delta > 3.0 then Up else if delta < -3.0 then Down else Level
  }

  /** The four keys written into one player, given its team's average. */
  function AnnotateOne(p: Scored, avg: real): (q: Scored)
    ensures q.(annotation := p.annotation) == p && q.annotation.Some?
  {
    var delta := if avg > 0.0 then Round(p.impactScore - avg, 2) else 0.0;
    var pct := if avg > 0.0 then Round(delta / avg * 100.0, 1) else 0.0;
    p.(annotation := Some(Annotation(TierOf(p.impactScore), delta, pct, SymbolOf(delta))))
  }

  /** The score list after `_annotate_with_team_stats`: every player annotated against its
      team's average, nothing else changed. */
  function Annotated(ps: seq<Scored>): (qs: seq<Scored>)
    ensures |qs| == |ps|
    ensures forall i :: 0 <= i < |ps| ==> qs[i] == AnnotateOne(ps[i], TeamAvg(ps, ps[i].team))
  {
    seq(|ps|, i requires 0 <= i < |ps| => AnnotateOne(ps[i], TeamAvg(ps, ps[i].team)))
  }

  /** `_annotate_with_team_stats(players)`, on an array of players updated in place. */
  method AnnotateWithTeamStats(players: array<Scored>)
    modifies players
    ensures players[..] == Annotated(old(players[..]))
  {
    if players.Length == 0 {
      return;
    }
    ghost var ps := players[..];
    var teamAvg := TeamAverages(players[..]);
    ghost var target := Annotated(ps);
    var j := 0;
    while j < players.Length
      invariant 0 <= j <= players.Length
      invariant players[..j] == target[..j]
      invariant players[j..] == ps[j..]
    {
      var p := players[j];
      assert p == ps[j];
      var t := TeamOf(p);
      var avg := if t in teamAvg then teamAvg[t] else 0.0;
      AverageAt(ps, teamAvg, j);
      var q := AnnotateOne(p, avg);
      assert q == target[j];
      players[j] := q;
      assert players[..j + 1] == target[..j + 1];
      j := j + 1;
    }
    assert players[..] == players[..j];
  }

  /** `team_avg`, the dict of averages built from the totals. */
  method TeamAverages(ps: seq<Scored>) returns (avgs: map<string, real>)
    ensures AveragesOf(ps, avgs)
  {
    var order, sums, counts := TeamTotals(ps);
    avgs := map t | t in sums :: sums[t] / counts[t] as real;
  }

  /** `avgs` holds each listed team's average, and only those. */
  ghost predicate AveragesOf(ps: seq<Scored>, avgs: map<string, real>) {
    forall t :: (t in avgs <==> t in Teams(ps)) && (t in avgs ==> avgs[t] == TeamAvg(ps, t))
  }

  /** `team_avg.get(t, 0.0)` for a player of the list is its team's average. */
  lemma AverageAt(ps: seq<Scored>, avgs: map<string, real>, j: nat)
    requires AveragesOf(ps, avgs) && j < |ps|
    ensures var t := ps[j].team; t in avgs && avgs[t] == TeamAvg(ps, t)
  {
    var t := ps[j].team;
    TeamCountPositive(ps, t);
    TeamsListed(ps, t);
  }

  /** Two lists agreeing on every player's team and score have the same team totals. */
  lemma {:induction false} SameTotals(ps: seq<Scored>, qs: seq<Scored>, t: string)
    requires |ps| == |qs|
    requires forall i :: 0 <= i < |ps| ==> ps[i].team == qs[i].team && ps[i].impactScore == qs[i].impactScore
    ensures TeamSum(ps, t) == TeamSum(qs, t) && TeamCount(ps, t) == TeamCount(qs, t)
  {
    if ps != [] {
      var n := |ps| - 1;
      SameTotals(ps[..n], qs[..n], t);
    }
  }

  /** Annotating never changes a score or a team, so annotating again gives the same list. */
  lemma AnnotateIdempotent(ps: seq<Scored>)
    ensures Annotated(Annotated(ps)) == Annotated(ps)
  {
    var qs := Annotated(ps);
    forall t {
      SameTotals(ps, qs, t);
    }
    forall i | 0 <= i < |ps| ensures Annotated(qs)[i] == qs[i] {
      assert TeamAvg(qs, qs[i].team) == TeamAvg(ps, ps[i].team);
    }
  }

  /** When every player of `t` scores `s`, the team's total is `s` times its size. */
  lemma {:induction false} UniformSum(ps: seq<Scored>, t: string, s: real)
    requires forall i :: 0 <= i < |ps| && ps[i].team == t ==> ps[i].impactScore == s
    ensures TeamSum(ps, t) == s * TeamCount(ps, t) as real
  {
    if ps != [] {
      var p := ps[..|ps| - 1];
      assert forall i :: 0 <= i < |p| ==> p[i] == ps[i];
      UniformSum(p, t, s);
      var c := TeamCount(p, t) as real;
      assert s * (c + 1.0) == s * c + s;
    }
  }

  /** A player in a team whose players all score the same positive `s` sits level with the
      team: delta and percentage 0, the level mark. */
  lemma UniformTeamLevel(ps: seq<Scored>, i: nat, s: real)
    requires i < |ps| && s > 0.0
    requires forall j :: 0 <= j < |ps| && ps[j].team == ps[i].team ==> ps[j].impactScore == s
    ensures var a := Annotated(ps)[i].annotation.value;
            a.deltaTeam == 0.0 && a.pctVsTeam == 0.0 && a.symbol == Level
  {
    var t := ps[i].team;
    UniformSum(ps, t, s);
    TeamCountPositive(ps, t);
    assert TeamAvg(ps, t) == s;
    RoundWhole(0, 2);
    RoundWhole(0, 1);
    assert 0.0 / s * 100.0 == 0 as real;
  }

  /** With a positive team average the delta is the rounded gap to it, and the percentage is
      computed from that rounded delta; otherwise both are 0. */
  lemma DeltaAgainstTeam(ps: seq<Scored>, i: nat)
    requires i < |ps|
    ensures var avg := TeamAvg(ps, ps[i].team);
            var a := Annotated(ps)[i].annotation.value;
            && a.tier == TierOf(ps[i].impactScore)
            && a.symbol == SymbolOf(a.deltaTeam)
            && (avg > 0.0 ==> a.deltaTeam == Round(ps[i].impactScore - avg, 2) && a.pctVsTeam == Round(a.deltaTeam / avg * 100.0, 1))
            && (avg <= 0.0 ==> a.deltaTeam == 0.0 && a.pctVsTeam == 0.0)
  {
  }
}
