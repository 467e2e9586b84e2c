/** What the player map adds up to (impact/calculator.py `_normalize_from_scorecard`): merging
    moves runs and wickets between no players, so the map's totals are those of the kept rows. */
module Totals {
  import opened RawValues
  import opened Normalizing

  function RunsOf(g: Agg): real {
    g.runs as real
  }

  function WicketsOf(g: Agg): real {
    g.wickets as real
  }

  lemma RunsAndWicketsAdd()
    ensures Additive(RunsOf) && Additive(WicketsOf)
  {
    forall g, c ensures RunsOf(MergeAgg(g, c)) == RunsOf(g) + RunsOf(c) {
    }
    forall g, c ensures WicketsOf(MergeAgg(g, c)) == WicketsOf(g) + WicketsOf(c) {
    }
  }

  lemma {:induction false} TotalAppend(a: seq<Agg>, b: seq<Agg>, f: Agg -> real)
    ensures Total(a + b, f) == Total(a, f) + Total(b, f)
  {
    if b != [] {
      var n := |b| - 1;
      var ab := a + b;
      assert ab[..|ab| - 1] == a + b[..n] && ab[|ab| - 1] == b[n];
      TotalAppend(a, b[..n], f);
      assert Total(ab, f) == Total(a + b[..n], f) + f(b[n]);
    } else {
      assert a + b == a;
    }
  }

  /** The entries of one innings' kept batting rows; none when the innings fails. */
  function InningsBats(inn: Raw): seq<Agg> {
    if inn.Record? && Rows(Block(inn.fields, "batting", "batsmen")).Ok?
    then BatEntries(BattingTeam(inn.fields), Rows(Block(inn.fields, "batting", "batsmen")).value)
    else []
  }

  /** The entries of one innings' kept bowling rows; none when the innings fails. */
  function InningsBowls(inn: Raw): seq<Agg> {
    if inn.Record? && Rows(Block(inn.fields, "bowling", "bowlers")).Ok?
    then BowlEntries(Rows(Block(inn.fields, "bowling", "bowlers")).value)
    else []
  }

  /** The kept batting rows of a whole scorecard, in order. */
  function KeptBatting(sc: seq<Raw>): seq<Agg> {
    if sc == [] then [] else KeptBatting(sc[..|sc| - 1]) + InningsBats(sc[|sc| - 1])
  }

  /** The kept bowling rows of a whole scorecard, in order. */
  function KeptBowling(sc: seq<Raw>): seq<Agg> {
    if sc == [] then [] else KeptBowling(sc[..|sc| - 1]) + InningsBowls(sc[|sc| - 1])
  }

  lemma {:induction false} NoRunsBowled(xs: seq<Agg>)
    requires forall j :: 0 <= j < |xs| ==> xs[j].runs == 0
    ensures Total(xs, RunsOf) == 0.0
  {
    if xs != [] {
      var p := xs[..|xs| - 1];
      assert forall j :: 0 <= j < |p| ==> p[j] == xs[j];
      NoRunsBowled(p);
    }
  }

  lemma {:induction false} NoWicketsBatted(xs: seq<Agg>)
    requires forall j :: 0 <= j < |xs| ==> xs[j].wickets == 0
    ensures Total(xs, WicketsOf) == 0.0
  {
    if xs != [] {
      var p := xs[..|xs| - 1];
      assert forall j :: 0 <= j < |p| ==> p[j] == xs[j];
      NoWicketsBatted(p);
    }
  }

  /** An innings' runs come from its batting rows and its wickets from its bowling rows. */
  lemma InningsTotals(inn: Raw)
    requires InningsEntries(inn).Ok?
    ensures Total(InningsEntries(inn).value, RunsOf) == Total(InningsBats(inn), RunsOf)
    ensures Total(InningsEntries(inn).value, WicketsOf) == Total(InningsBowls(inn), WicketsOf)
  {
    var bats, bowls := InningsBats(inn), InningsBowls(inn);
    assert InningsEntries(inn).value == bats + bowls;
    TotalAppend(bats, bowls, RunsOf);
    TotalAppend(bats, bowls, WicketsOf);
    NoRunsBowled(bowls);
    NoWicketsBatted(bats);
  }

  lemma {:induction false} EntriesTotals(sc: seq<Raw>)
    requires Entries(sc).Ok?
    ensures Total(Entries(sc).value, RunsOf) == Total(KeptBatting(sc), RunsOf)
    ensures Total(Entries(sc).value, WicketsOf) == Total(KeptBowling(sc), WicketsOf)
  {
    if sc != [] {
      var p := sc[..|sc| - 1];
      var inn := sc[|sc| - 1];
      EntriesTotals(p);
      InningsTotals(inn);
      var es, more := Entries(p).value, InningsEntries(inn).value;
      TotalAppend(es, more, RunsOf);
      TotalAppend(es, more, WicketsOf);
      TotalAppend(KeptBatting(p), InningsBats(inn), RunsOf);
      TotalAppend(KeptBowling(p), InningsBowls(inn), WicketsOf);
    }
  }

  /** The runs summed over the player map are the runs of the kept batting rows, and the wickets
      those of the kept bowling rows. */
  lemma NormalizedTotals(sc: seq<Raw>)
    requires Normalized(sc).Ok?
    ensures Total(Values(Normalized(sc).value), RunsOf) == Total(KeptBatting(sc), RunsOf)
    ensures Total(Values(Normalized(sc).value), WicketsOf) == Total(KeptBowling(sc), WicketsOf)
  {
    RunsAndWicketsAdd();
    FoldTotal(Entries(sc).value, RunsOf);
    FoldTotal(Entries(sc).value, WicketsOf);
    EntriesTotals(sc);
  }
}
