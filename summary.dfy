/** `summarize_impact` (impact/calculator.py): the count, the rounded global and per-team
    averages, and the best and worst player of a score list. */
module Summaries {
  import opened RawValues
  import opened Scoring
  import opened TeamStats

  /** A `{"name": …, "score": …}` entry. */
  datatype Best = Best(name: string, score: real)

  /** The summary dict; `best` and `worst` are absent for an empty list. */
  datatype Summary = Summary(count: nat, globalAvg: real, teamAvgs: seq<(string, real)>,
                             best: Option<Best>, worst: Option<Best>)

  /** `sum(p["impact_score"] for p in players)` */
  function TotalScore(ps: seq<Scored>): real {
    if ps == [] then 0.0 else TotalScore(ps[..|ps| - 1]) + ps[|ps| - 1].impactScore
  }

  /** The mean score, before rounding. */
  function Mean(ps: seq<Scored>): real
    requires ps != []
  {
    TotalScore(ps) / |ps| as real
  }

  /** The player `max(players, key=impact_score)` picks: a highest score, the first such. */
  function BestIndex(ps: seq<Scored>): (i: nat)
    requires ps != []
    ensures i < |ps|
    ensures forall j :: 0 <= j < |ps| ==> ps[j].impactScore <= ps[i].impactScore
    ensures forall j :: 0 <= j < i ==> ps[j].impactScore < ps[i].impactScore
  {
    if |ps| == 1 then 0
    else
      var m := BestIndex(ps[..|ps| - 1]);
      if ps[|ps| - 1].impactScore > ps[m].impactScore then |ps| - 1 else m
  }

  /** The player `min(players, key=impact_score)` picks: a lowest score, the first such. */
  function WorstIndex(ps: seq<Scored>): (i: nat)
    requires ps != []
    ensures i < |ps|
    ensures forall j :: 0 <= j < |ps| ==> ps[i].impactScore <= ps[j].impactScore
    ensures forall j :: 0 <= j < i ==> ps[i].impactScore < ps[j].impactScore
  {
    if |ps| == 1 then 0
    else
      var m := WorstIndex(ps[..|ps| - 1]);
      if ps[|ps| - 1].impactScore < ps[m].impactScore then |ps| - 1 else m
  }

  /** `team_avgs`: each team, in first-seen order, with its average rounded to 2 places. */
  function TeamAvgs(ps: seq<Scored>): (avgs: seq<(string, real)>)
    ensures |avgs| == |Teams(ps)|
    ensures forall i :: 0 <= i < |avgs| ==> avgs[i] == (Teams(ps)[i], Round(TeamAvg(ps, Teams(ps)[i]), 2))
  {
    var ts := Teams(ps);
    seq(|ts|, i requires 0 <= i < |ts| => (ts[i], Round(TeamAvg(ps, ts[i]), 2)))
  }

  function PlayerOf(p: Scored): Best {
    Best(p.name, p.impactScore)
  }

  /** The value `summarize_impact(players)` returns. */
  function SummaryOf(ps: seq<Scored>): (s: Summary)
    ensures ps == [] ==> s == Summary(0, 0.0, [], None, None)
    ensures ps != [] ==> s.count == |ps| && s.best.Some? && s.worst.Some?
    ensures ps != [] ==> s.globalAvg == Round(Mean(ps), 2)
    ensures ps != [] ==> s.best == Some(PlayerOf(ps[BestIndex(ps)])) && s.worst == Some(PlayerOf(ps[WorstIndex(ps)]))
    ensures forall i, j :: 0 <= i < j < |s.teamAvgs| ==> s.teamAvgs[i].0 != s.teamAvgs[j].0
  {
    if ps == [] then Summary(0, 0.0, [], None, None)
    else
      Summary(|ps|, Round(Mean(ps), 2), TeamAvgs(ps),
              Some(PlayerOf(ps[BestIndex(ps)])), Some(PlayerOf(ps[WorstIndex(ps)])))
  }

  /** `summarize_impact(players)` */
  method SummarizeImpact(players: seq<Scored>) returns (s: Summary)
    ensures s == SummaryOf(players)
  {
    if |players| == 0 {
      return Summary(0, 0.0, [], None, None);
    }
    var order, sums, counts := TeamTotals(players);
    var teamAvgs := seq(|order|, i requires 0 <= i < |order| => (order[i], Round(sums[order[i]] / counts[order[i]] as real, 2)));
    assert teamAvgs == TeamAvgs(players) by {
      forall i | 0 <= i < |order| ensures teamAvgs[i] == TeamAvgs(players)[i] {
        assert TeamAvg(players, order[i]) == sums[order[i]] / counts[order[i]] as real;
      }
    }
    var globalAvg := Round(TotalScore(players) / |players| as real, 2);
    var best := players[BestIndex(players)];
    var worst := players[WorstIndex(players)];
    s := Summary(|players|, globalAvg, teamAvgs, Some(Best(best.name, best.impactScore)), Some(Best(worst.name, worst.impactScore)));
  }

  /** `team_avgs` has an entry for a team exactly when some player is in it, and that entry is the
      team's rounded average. */
  lemma SummaryTeams(ps: seq<Scored>, t: string)
    requires ps != []
    ensures (exists i :: 0 <= i < |SummaryOf(ps).teamAvgs| && SummaryOf(ps).teamAvgs[i] == (t, Round(TeamAvg(ps, t), 2)))
            <==> exists j :: 0 <= j < |ps| && ps[j].team == t
  {
    var avgs := SummaryOf(ps).teamAvgs;
    TeamsListed(ps, t);
    TeamCountPositive(ps, t);
    if t in Teams(ps) {
      var i :| 0 <= i < |Teams(ps)| && Teams(ps)[i] == t;
      assert avgs[i] == (t, Round(TeamAvg(ps, t), 2));
    }
  }

  /** `best` is a highest-scoring player, the first of them, and `worst` a lowest-scoring one,
      the first of them. */
  lemma SummaryExtremes(ps: seq<Scored>)
    requires ps != []
    ensures exists i :: && 0 <= i < |ps| && SummaryOf(ps).best == Some(Best(ps[i].name, ps[i].impactScore))
                        && (forall j :: 0 <= j < |ps| ==> ps[j].impactScore <= ps[i].impactScore)
                        && (forall j :: 0 <= j < i ==> ps[j].impactScore < ps[i].impactScore)
    ensures exists i :: && 0 <= i < |ps| && SummaryOf(ps).worst == Some(Best(ps[i].name, ps[i].impactScore))
                        && (forall j :: 0 <= j < |ps| ==> ps[i].impactScore <= ps[j].impactScore)
                        && (forall j :: 0 <= j < i ==> ps[i].impactScore < ps[j].impactScore)
  {
    var b := BestIndex(ps);
    var w := WorstIndex(ps);
    assert SummaryOf(ps).best == Some(Best(ps[b].name, ps[b].impactScore));
    assert SummaryOf(ps).worst == Some(Best(ps[w].name, ps[w].impactScore));
  }

  /** The total lies between the count times the lowest score and the count times the highest. */
  lemma {:induction false} TotalBetween(ps: seq<Scored>, lo: real, hi: real)
    requires forall j :: 0 <= j < |ps| ==> lo <= ps[j].impactScore <= hi
    ensures lo * |ps| as real <= TotalScore(ps) <= hi * |ps| as real
  {
    if ps != [] {
      var p := ps[..|ps| - 1];
      assert forall j :: 0 <= j < |p| ==> p[j] == ps[j];
      TotalBetween(p, lo, hi);
      var n := |p| as real;
      assert lo * (n + 1.0) == lo * n + lo && hi * (n + 1.0) == hi * n + hi;
    }
  }

  /** Before rounding, the global average lies between the worst and the best score. */
  lemma MeanBetweenExtremes(ps: seq<Scored>)
    requires ps != []
    ensures var s := SummaryOf(ps);
            s.worst.value.score <= Mean(ps) <= s.best.value.score
  {
    var lo := ps[WorstIndex(ps)].impactScore;
    var hi := ps[BestIndex(ps)].impactScore;
    TotalBetween(ps, lo, hi);
    DivBetween(TotalScore(ps), |ps|, lo, hi);
    assert SummaryOf(ps).worst.value.score == lo && SummaryOf(ps).best.value.score == hi;
  }

  lemma DivBetween(x: real, n: nat, lo: real, hi: real)
    requires n > 0 && lo * n as real <= x <= hi * n as real
    ensures lo <= x / n as real <= hi
  {
  }
}
