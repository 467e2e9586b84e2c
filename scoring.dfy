/** Scoring one player (impact/calculator.py `calculate_batting_impact`, `calculate_bowling_impact`,
    the role rule and the per-player record of `calculate_impact_for_match`) and the final
    ordering of the score list. */
module Scoring {
  import opened Text
  import opened RawValues
  import opened Names
  import opened Normalizing

  /** The integer nearest to `y`, a tie going to the even one. */
  function NearestEven(y: real): (k: int)
    ensures -1.0 <= 2.0 * (k as real - y) <= 1.0
    ensures (2.0 * (k as real - y) == 1.0 || 2.0 * (k as real - y) == -1.0) ==> k % 2 == 0
  {
    var f := y.Floor;
    var frac := y - f as real;
    if frac > 0.5 then f + 1 else if frac < 0.5 then f else if f % 2 == 0 then f else f + 1
  }

  /** 10^d as a real number. */
  function Scale(d: nat): (p: real)
    ensures p >= 1.0
  {
    Pow10(d) as real
  }

  /** `round(x, d)`: the nearest multiple of 10^-d, a tie going to the even multiple. */
  function Round(x: real, d: nat): real {
    NearestEven(x * Scale(d)) as real / Scale(d)
  }

  lemma DivThenMul(a: real, p: real)
    requires p != 0.0
    ensures (a / p) * p == a
  {
  }

  /** The rounded value is within half a unit of the last place kept. */
  lemma RoundClose(x: real, d: nat)
    ensures -1.0 <= 2.0 * (Round(x, d) - x) * Scale(d) <= 1.0
  {
    var p := Scale(d);
    var k := NearestEven(x * p);
    DivThenMul(k as real, p);
    assert (k as real / p - x) * p == k as real - x * p;
  }

  lemma NearestOfWhole(k: int)
    ensures NearestEven(k as real) == k
  {
  }

  /** A multiple of 10^-d is its own rounding. */
  lemma RoundExact(k: int, d: nat)
    ensures Round(k as real / Scale(d), d) == k as real / Scale(d)
  {
    var x := k as real / Scale(d);
    DivThenMul(k as real, Scale(d));
    NearestOfWhole(k);
    assert x * Scale(d) == k as real;
    assert NearestEven(x * Scale(d)) == k;
    RoundOf(x, d);
  }

  lemma RoundOf(x: real, d: nat)
    ensures Round(x, d) == NearestEven(x * Scale(d)) as real / Scale(d)
  {
  }

  /** Rounding twice is rounding once. */
  lemma RoundIdempotent(x: real, d: nat)
    ensures Round(Round(x, d), d) == Round(x, d)
  {
    RoundExact(NearestEven(x * Scale(d)), d);
  }

  /** Python's `round` takes a tie to the even neighbour: 0.125 and 0.135 both lie halfway,
      and go to 0.12 and to 0.14. */
  lemma RoundHalfToEven()
    ensures Round(0.125, 2) == 0.12
    ensures Round(0.135, 2) == 0.14
  {
    assert Scale(2) == 100.0 by {
      assert Pow10(2) == 10 * Pow10(1) == 100;
    }
    assert NearestEven(12.5) == 12 by {
      assert (12.5).Floor == 12;
    }
    assert NearestEven(13.5) == 14 by {
      assert (13.5).Floor == 13;
    }
  }

  /** A whole number is unchanged by rounding. */
  lemma RoundWhole(n: int, d: nat)
    ensures Round(n as real, d) == n as real
  {
    var p := Pow10(d);
    assert Scale(d) == p as real;
    assert (n * p) as real / p as real == n as real;
    RoundExact(n * p, d);
  }

  /** `calculate_batting_impact(runs, balls)`: 0.4 per run plus 0.6 per point of strike rate,
      the strike rate counting as 0 when no ball was faced. */
  function BattingImpact(runs: real, balls: real): real {
    var sr := if balls > 0.0 then runs / balls * 100.0 else 0.0;
    Round(runs * 0.4 + sr * 0.6, 2)
  }

  /** `calculate_bowling_impact(wickets, overs)`: 8 per wicket plus 10 less the overs bowled,
      unclamped: a player who bowled nothing still gets 10. */
  function BowlingImpact(wickets: real, overs: real): real {
    Round(wickets * 8.0 + (10.0 - overs), 2)
  }

  /** Without balls faced the batting impact is 0.4 per run. */
  lemma BattingWithoutBalls(runs: int, balls: real)
    requires balls <= 0.0
    ensures BattingImpact(runs as real, balls) == Round(runs as real * 0.4, 2)
  {
  }

  /** `calculate_batting_impact(0, 0) == 0` */
  lemma BattingOfNothing()
    ensures BattingImpact(0.0, 0.0) == 0.0
  {
    RoundWhole(0, 2);
  }

  /** A hundred off fifty balls: 40 for the runs plus 0.6 times a strike rate of 200. */
  lemma BattingHundredOffFifty()
    ensures BattingImpact(100.0, 50.0) == 160.0
  {
    assert 100.0 * 0.4 + (100.0 / 50.0 * 100.0) * 0.6 == 160 as real;
    RoundWhole(160, 2);
  }

  /** `calculate_bowling_impact(0, 0) == 10` */
  lemma BowlingOfNothing()
    ensures BowlingImpact(0.0, 0.0) == 10.0
  {
    RoundWhole(10, 2);
  }

  /** Each wicket is worth 8 and each over costs 1, so whole inputs give a whole score. */
  lemma BowlingWhole(wickets: int, overs: int)
    ensures BowlingImpact(wickets as real, overs as real) == (wickets * 8 + 10 - overs) as real
  {
    RoundWhole(wickets * 8 + 10 - overs, 2);
  }

  datatype Role = AllRounder | Bowler | Batter

  /** The role rule: an all-rounder takes wickets and scores at least 20, a bowler takes wickets,
      everyone else bats; "takes wickets" is Python truthiness, so any non-zero count. */
  function RoleOf(runs: int, wickets: int): (role: Role)
    ensures role == AllRounder <==> wickets != 0 && runs >= 20
    ensures role == Bowler <==> wickets != 0 && runs < 20
    ensures role == Batter <==> wickets == 0
  {
    if wickets != 0 && runs >= 20 then AllRounder else if wickets != 0 then Bowler else Batter
  }

  datatype Tier = Elite | High | Solid | Developing

  /** The trend marks: ▲, ▼ and ▬. */
  datatype Symbol = Up | Down | Level

  /** The four keys `_annotate_with_team_stats` writes into a player. */
  datatype Annotation = Annotation(tier: Tier, deltaTeam: real, pctVsTeam: real, symbol: Symbol)

  /** One entry of the score list. */
  datatype Scored = Scored(
    name: string, team: string, role: Role,
    impactScore: real, batImpact: real, bowlImpact: real,
    runs: int, balls: int, wickets: int, overs: real,
    annotation: Option<Annotation>)

  /** The score record built for one player's totals. */
  function ScorePlayer(g: Agg): (s: Scored)
    ensures s.name == g.name && s.team == g.team
    ensures s.runs == g.runs && s.balls == g.balls && s.wickets == g.wickets && s.overs == g.overs
    ensures s.batImpact == BattingImpact(g.runs as real, g.balls as real)
    ensures s.bowlImpact == BowlingImpact(g.wickets as real, g.overs)
    ensures s.impactScore == Round(s.batImpact + s.bowlImpact, 2)
    ensures s.role == RoleOf(g.runs, g.wickets) && s.annotation.None?
  {
    NameOfStr(g.name);
    NameOfStr(g.team);
    var bat := BattingImpact(g.runs as real, g.balls as real);
    var bowl := BowlingImpact(g.wickets as real, g.overs);
    Scored(PlayerName(Str(g.name)), TeamName(Str(g.team)), RoleOf(g.runs, g.wickets),
           Round(bat + bowl, 2), bat, bowl, g.runs, g.balls, g.wickets, g.overs, None)
  }

  // ---- ordering: `out.sort(key=lambda x: x["impact_score"], reverse=True)` ----

  predicate SortedByImpact(s: seq<Scored>) {
    forall i, j :: 0 <= i < j < |s| ==> s[i].impactScore >= s[j].impactScore
  }

  /** `s` with `x` placed before the first element that does not outscore it. */
  function Insert(x: Scored, s: seq<Scored>): (r: seq<Scored>)
    ensures |r| == |s| + 1
  {
    if s == [] || x.impactScore >= s[0].impactScore then [x] + s else [s[0]] + Insert(x, s[1..])
  }

  /** The stable descending sort of the score list. */
  function SortByImpact(s: seq<Scored>): (r: seq<Scored>)
    ensures |r| == |s|
  {
    if s == [] then [] else Insert(s[0], SortByImpact(s[1..]))
  }

  lemma {:induction false} InsertPermutes(x: Scored, s: seq<Scored>)
    ensures multiset(Insert(x, s)) == multiset(s) + multiset{x}
  {
    if s != [] && x.impactScore < s[0].impactScore {
      InsertPermutes(x, s[1..]);
      assert s == [s[0]] + s[1..];
    }
  }

  /** The sorted list holds the same players, each as often. */
  lemma {:induction false} SortPermutes(s: seq<Scored>)
    ensures multiset(SortByImpact(s)) == multiset(s)
  {
    if s != [] {
      SortPermutes(s[1..]);
      InsertPermutes(s[0], SortByImpact(s[1..]));
      assert s == [s[0]] + s[1..];
    }
  }

  /** Inserting adds `x` and nothing else. */
  lemma {:induction false} InsertElements(x: Scored, s: seq<Scored>)
    ensures forall e :: e in Insert(x, s) <==> e == x || e in s
  {
    if s != [] && x.impactScore < s[0].impactScore {
      InsertElements(x, s[1..]);
      assert s == [s[0]] + s[1..];
    }
  }

  lemma {:induction false} InsertSorted(x: Scored, s: seq<Scored>)
    requires SortedByImpact(s)
    ensures SortedByImpact(Insert(x, s))
  {
    if s != [] && x.impactScore < s[0].impactScore {
      var t := Insert(x, s[1..]);
      InsertSorted(x, s[1..]);
      InsertElements(x, s[1..]);
      assert forall j :: 0 <= j < |t| ==> t[j] in t;
      assert forall j :: 1 <= j < |s| ==> s[j] == s[1..][j - 1];
      assert Insert(x, s) == [s[0]] + t;
    }
  }

  /** The list comes out ordered from the highest score down. */
  lemma {:induction false} SortSorted(s: seq<Scored>)
    ensures SortedByImpact(SortByImpact(s))
  {
    if s != [] {
      SortSorted(s[1..]);
      InsertSorted(s[0], SortByImpact(s[1..]));
    }
  }

  /** The players with score `v`, in list order. */
  function WithScore(s: seq<Scored>, v: real): seq<Scored> {
    if s == [] then [] else (if s[0].impactScore == v then [s[0]] else []) + WithScore(s[1..], v)
  }

  /** The players with score `v` of a list with a given first element. */
  lemma WithScoreCons(e: Scored, s: seq<Scored>, v: real)
    ensures WithScore([e] + s, v) == (if e.impactScore == v then [e] else []) + WithScore(s, v)
  {
    assert ([e] + s)[1..] == s;
  }

  lemma {:induction false} InsertStable(x: Scored, s: seq<Scored>, v: real)
    requires SortedByImpact(s)
    ensures WithScore(Insert(x, s), v) == (if x.impactScore == v then [x] else []) + WithScore(s, v)
  {
    if s == [] || x.impactScore >= s[0].impactScore {
      WithScoreCons(x, s, v);
    } else {
      var t := s[1..];
      assert SortedByImpact(t) by {
        assert forall j :: 0 <= j < |t| ==> t[j] == s[j + 1];
      }
      InsertStable(x, t, v);
      WithScoreCons(s[0], Insert(x, t), v);
      WithScoreCons(s[0], t, v);
      assert s == [s[0]] + t;
    }
  }

  /** The sort is stable: players with equal scores keep their order. */
  lemma {:induction false} SortStable(s: seq<Scored>, v: real)
    ensures WithScore(SortByImpact(s), v) == WithScore(s, v)
  {
    if s != [] {
      SortStable(s[1..], v);
      SortSorted(s[1..]);
      InsertStable(s[0], SortByImpact(s[1..]), v);
    }
  }
}
