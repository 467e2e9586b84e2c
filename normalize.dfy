/** `_normalize_from_scorecard` (impact/calculator.py): collapsing the batting and bowling rows
    of every innings into one running total per player, keyed by `team + "::" + name`. */
module Normalizing {
  import opened RawValues
  import opened Coercion
  import opened Names
  import opened Combining

  /** A player's totals as `_combine` leaves them: a name, a team and four counters. */
  datatype Agg = Agg(name: string, team: string, runs: int, balls: int, wickets: int, overs: real)

  /** The dict holding a player's totals. */
  function AsDict(g: Agg): map<string, Raw> {
    map["name" := Str(g.name), "team" := Str(g.team), "runs" := Int(g.runs), "balls" := Int(g.balls),
        "wickets" := Int(g.wickets), "overs" := Real(g.overs)]
  }

  /** The entry dict built for one kept row, keys in the source's order. */
  function EntryOf(c: Agg): Fields {
    [("name", Str(c.name)), ("team", Str(c.team)), ("runs", Int(c.runs)), ("balls", Int(c.balls)),
     ("wickets", Int(c.wickets)), ("overs", Real(c.overs))]
  }

  /** What `_combine` makes of existing totals `g` and a new entry `c`. */
  function MergeAgg(g: Agg, c: Agg): Agg {
    Agg(if g.name != "" then g.name else c.name, if g.team != "" then g.team else c.team,
        g.runs + c.runs, g.balls + c.balls, g.wickets + c.wickets, g.overs + c.overs)
  }

  /** The value `out.get(k, 0)` adds to. */
  function Count(out: map<string, Raw>, k: string): (r: Raw)
    ensures IsNumber(r)
  {
    if k in out && IsNumber(out[k]) then out[k] else Int(0)
  }

  /** A name or team turn for a string value: kept when truthy, otherwise replaced. */
  function AfterText(out: map<string, Raw>, k: string, s: string): map<string, Raw> {
    if Holds(out, k) then out else out[k := Str(s)]
  }

  /** A counter turn. */
  function AfterCount(out: map<string, Raw>, k: string, v: Raw): map<string, Raw>
    requires IsNumber(v)
  {
    out[k := Plus(Count(out, k), v)]
  }

  /** The name and team turns of `_combine` on an entry that starts with a name and a team. */
  lemma CombineText(a: map<string, Raw>, name: string, team: string)
    requires CountersNumeric(a)
    ensures Combined(a, [("name", Str(name)), ("team", Str(team))]) == AfterText(AfterText(a, "name", name), "team", team)
  {
    CombinedSnoc(a, [], "name", Str(name));
    assert [] + [("name", Str(name))] == [("name", Str(name))];
    NameOfStr(name);
    CombinedSnoc(a, [("name", Str(name))], "team", Str(team));
    NameOfStr(team);
  }

  /** Two counter turns of `_combine` after the pairs `p`. */
  lemma CombineCounters(a: map<string, Raw>, p: Fields, k1: string, v1: Raw, k2: string, v2: Raw)
    requires CountersNumeric(a) && EntryNumeric(p)
    requires k1 in CounterKeys && k2 in CounterKeys && IsNumber(v1) && IsNumber(v2)
    ensures EntryNumeric(p + [(k1, v1), (k2, v2)])
    ensures Combined(a, p + [(k1, v1), (k2, v2)]) == AfterCount(AfterCount(Combined(a, p), k1, v1), k2, v2)
  {
    CombinedSnoc(a, p, k1, v1);
    CombinedSnoc(a, p + [(k1, v1)], k2, v2);
    assert p + [(k1, v1)] + [(k2, v2)] == p + [(k1, v1), (k2, v2)];
  }

  /** The name, team, runs and balls pairs of an entry. */
  function EntryHead(c: Agg): Fields {
    [("name", Str(c.name)), ("team", Str(c.team)), ("runs", Int(c.runs)), ("balls", Int(c.balls))]
  }

  /** The first four turns of `_combine(a, entry)`. */
  lemma CombineEntryHead(a: map<string, Raw>, c: Agg)
    requires CountersNumeric(a)
    ensures EntryNumeric(EntryHead(c))
    ensures Combined(a, EntryHead(c)) ==
              AfterCount(AfterCount(AfterText(AfterText(a, "name", c.name), "team", c.team), "runs", Int(c.runs)), "balls", Int(c.balls))
  {
    var p2 := [("name", Str(c.name)), ("team", Str(c.team))];
    CombineText(a, c.name, c.team);
    CombineCounters(a, p2, "runs", Int(c.runs), "balls", Int(c.balls));
    assert p2 + [("runs", Int(c.runs)), ("balls", Int(c.balls))] == EntryHead(c);
  }

  /** `_combine(a, entry)` for an entry built from totals `c`. */
  lemma CombineEntry(a: map<string, Raw>, c: Agg)
    requires CountersNumeric(a)
    ensures EntryNumeric(EntryHead(c)) && CountersNumeric(Combined(a, EntryHead(c)))
    ensures EntryNumeric(EntryOf(c))
    ensures Combined(a, EntryOf(c)) == AfterCount(AfterCount(Combined(a, EntryHead(c)), "wickets", Int(c.wickets)), "overs", Real(c.overs))
  {
    assert EntryNumeric(EntryHead(c));
    CombineCounters(a, EntryHead(c), "wickets", Int(c.wickets), "overs", Real(c.overs));
    assert EntryHead(c) + [("wickets", Int(c.wickets)), ("overs", Real(c.overs))] == EntryOf(c);
  }

  /** The six keys of a totals dict are different strings. */
  lemma FieldNamesDiffer()
    ensures "name" != "team" && "name" != "runs" && "name" != "balls" && "name" != "wickets" && "name" != "overs"
    ensures "team" != "runs" && "team" != "balls" && "team" != "wickets" && "team" != "overs"
    ensures "runs" != "balls" && "runs" != "wickets" && "runs" != "overs"
    ensures "balls" != "wickets" && "balls" != "overs" && "wickets" != "overs"
  {
    assert "name"[0] != "team"[0] && "name"[0] != "runs"[0];
    assert "team"[0] != "runs"[0];
    assert |"balls"| != |"name"| && |"wickets"| != |"name"| && |"overs"| != |"name"|;
    assert "balls"[0] != "overs"[0];
  }

  /** The name and team turns on a totals dict keep a non-empty name or team. */
  lemma TextTurnsOnTotals(g: Agg, c: Agg)
    ensures AfterText(AfterText(AsDict(g), "name", c.name), "team", c.team) ==
            AsDict(g.(name := MergeAgg(g, c).name, team := MergeAgg(g, c).team))
  {
    FieldNamesDiffer();
    var a1 := AfterText(AsDict(g), "name", c.name);
    assert a1 == AsDict(g.(name := MergeAgg(g, c).name));
  }

  /** The runs and balls turns on a totals dict add them up. */
  lemma BatTurnsOnTotals(h: Agg, c: Agg)
    ensures AfterCount(AfterCount(AsDict(h), "runs", Int(c.runs)), "balls", Int(c.balls)) ==
            AsDict(h.(runs := h.runs + c.runs, balls := h.balls + c.balls))
  {
    FieldNamesDiffer();
    assert AfterCount(AsDict(h), "runs", Int(c.runs)) == AsDict(h.(runs := h.runs + c.runs));
  }

  /** The wickets and overs turns on a totals dict add them up. */
  lemma BowlTurnsOnTotals(h: Agg, c: Agg)
    ensures AfterCount(AfterCount(AsDict(h), "wickets", Int(c.wickets)), "overs", Real(c.overs)) ==
            AsDict(h.(wickets := h.wickets + c.wickets, overs := h.overs + c.overs))
  {
    FieldNamesDiffer();
    assert AfterCount(AsDict(h), "wickets", Int(c.wickets)) == AsDict(h.(wickets := h.wickets + c.wickets));
  }

  /** The six turns of `_combine` on the totals dict of `g`. */
  lemma TurnsOnTotals(g: Agg, c: Agg)
    ensures var a4 := AfterCount(AfterCount(AfterText(AfterText(AsDict(g), "name", c.name), "team", c.team), "runs", Int(c.runs)), "balls", Int(c.balls));
            AfterCount(AfterCount(a4, "wickets", Int(c.wickets)), "overs", Real(c.overs)) == AsDict(MergeAgg(g, c))
  {
    var m := MergeAgg(g, c);
    var h2 := g.(name := m.name, team := m.team);
    var a2 := AfterText(AfterText(AsDict(g), "name", c.name), "team", c.team);
    TextTurnsOnTotals(g, c);
    assert a2 == AsDict(h2);
    var h4 := h2.(runs := h2.runs + c.runs, balls := h2.balls + c.balls);
    var a4 := AfterCount(AfterCount(a2, "runs", Int(c.runs)), "balls", Int(c.balls));
    BatTurnsOnTotals(h2, c);
    assert a4 == AsDict(h4);
    BowlTurnsOnTotals(h4, c);
    assert h4.(wickets := h4.wickets + c.wickets, overs := h4.overs + c.overs) == m;
  }

  /** The counter turns on a dict holding only a name and a team. */
  lemma CounterTurnsOnNamed(c: Agg)
    ensures var a2 := map["name" := Str(c.name), "team" := Str(c.team)];
            var a4 := AfterCount(AfterCount(a2, "runs", Int(c.runs)), "balls", Int(c.balls));
            AfterCount(AfterCount(a4, "wickets", Int(c.wickets)), "overs", Real(c.overs)) == AsDict(c)
  {
    FieldNamesDiffer();
    var a2 := map["name" := Str(c.name), "team" := Str(c.team)];
    var a4 := a2["runs" := Int(c.runs)]["balls" := Int(c.balls)];
    assert AfterCount(AfterCount(a2, "runs", Int(c.runs)), "balls", Int(c.balls)) == a4;
  }

  /** The six turns of `_combine` on an empty dict. */
  lemma TurnsOnEmpty(c: Agg)
    ensures var a0: map<string, Raw> := map[];
            var a4 := AfterCount(AfterCount(AfterText(AfterText(a0, "name", c.name), "team", c.team), "runs", Int(c.runs)), "balls", Int(c.balls));
            AfterCount(AfterCount(a4, "wickets", Int(c.wickets)), "overs", Real(c.overs)) == AsDict(c)
  {
    FieldNamesDiffer();
    var a0: map<string, Raw> := map[];
    assert AfterText(AfterText(a0, "name", c.name), "team", c.team) == map["name" := Str(c.name), "team" := Str(c.team)];
    CounterTurnsOnNamed(c);
  }

  /** A first entry becomes the player's totals as they are. */
  lemma CombineFresh(c: Agg)
    ensures Combined(map[], EntryOf(c)) == AsDict(c)
  {
    CombineEntryHead(map[], c);
    CombineEntry(map[], c);
    TurnsOnEmpty(c);
  }

  /** A later entry adds to the counters and fills only an empty name or team. */
  lemma CombineExisting(g: Agg, c: Agg)
    ensures CountersNumeric(AsDict(g))
    ensures Combined(AsDict(g), EntryOf(c)) == AsDict(MergeAgg(g, c))
  {
    var d := AsDict(g);
    assert CountersNumeric(d);
    var head := AfterCount(AfterCount(AfterText(AfterText(d, "name", c.name), "team", c.team), "runs", Int(c.runs)), "balls", Int(c.balls));
    CombineEntryHead(d, c);
    assert Combined(d, EntryHead(c)) == head;
    CombineEntry(d, c);
    assert Combined(d, EntryOf(c)) == AfterCount(AfterCount(head, "wickets", Int(c.wickets)), "overs", Real(c.overs));
    TurnsOnTotals(g, c);
  }

  /** A dict of totals, keys in insertion order. */
  type Table = seq<(string, Agg)>

  /** `f"{team}::{name}"` */
  function KeyOf(c: Agg): string {
    c.team + "::" + c.name
  }

  /** The position of `key` among the keys of an insertion-ordered dict. */
  function Find<V>(t: seq<(string, V)>, key: string): (r: Option<nat>)
    ensures r.None? <==> forall i :: 0 <= i < |t| ==> t[i].0 != key
    ensures r.Some? ==> r.value < |t| && t[r.value].0 == key && forall j :: 0 <= j < r.value ==> t[j].0 != key
  {
    if t == [] then None
    else if t[0].0 == key then Some(0)
    else
      var r := Find(t[1..], key);
      assert forall i :: 1 <= i < |t| ==> t[1..][i - 1] == t[i];
      if r.Some? then Some(r.value + 1) else None
  }

  /** `d[key] = value`: replaced in place when present, appended otherwise. */
  function Put<V>(t: seq<(string, V)>, key: string, value: V): (r: seq<(string, V)>)
    ensures Find(t, key).Some? ==> |r| == |t| && r[Find(t, key).value] == (key, value)
    ensures Find(t, key).None? ==> r == t + [(key, value)]
    ensures forall i :: 0 <= i < |t| && t[i].0 != key ==> r[i] == t[i]
  {
    match Find(t, key)
    case Some(i) => t[i := (key, value)]
    case None => t + [(key, value)]
  }

  /** Two dicts with the same keys at the same positions find every key at the same place. */
  lemma FindSameKeys<V, W>(t: seq<(string, V)>, u: seq<(string, W)>, key: string)
    requires |t| == |u| && forall i :: 0 <= i < |t| ==> t[i].0 == u[i].0
    ensures Find(t, key) == Find(u, key)
  {
    var a, b := Find(t, key), Find(u, key);
    if a.Some? && b.Some? {
      assert !(a.value < b.value) && !(b.value < a.value);
    }
  }

  /** `players[key] = _combine(players.get(key, {}), entry)` for the entry `c`, on totals. */
  function Upsert(t: Table, c: Agg): Table {
    match Find(t, KeyOf(c))
    case Some(i) => Put(t, KeyOf(c), MergeAgg(t[i].1, c))
    case None => Put(t, KeyOf(c), c)
  }

  /** The table after merging every entry of `es` in order. */
  function Fold(es: seq<Agg>): Table {
    if es == [] then [] else Upsert(Fold(es[..|es| - 1]), es[|es| - 1])
  }

  function EntryKeys(es: seq<Agg>): (ks: seq<string>)
    ensures |ks| == |es| && forall j :: 0 <= j < |es| ==> ks[j] == KeyOf(es[j])
  {
    seq(|es|, j requires 0 <= j < |es| => KeyOf(es[j]))
  }

  predicate Distinct(ks: seq<string>) {
    forall i, j :: 0 <= i < j < |ks| ==> ks[i] != ks[j]
  }

  /** One upsert keeps the keys distinct and adds exactly the entry's key. */
  lemma UpsertKeys(t: Table, c: Agg)
    requires Distinct(Keys(t))
    ensures Distinct(Keys(Upsert(t, c)))
    ensures forall key :: key in Keys(Upsert(t, c)) <==> key in Keys(t) || key == KeyOf(c)
  {
    var u := Upsert(t, c);
    var f := Find(t, KeyOf(c));
    if f.Some? {
      assert forall i :: 0 <= i < |t| ==> u[i].0 == t[i].0;
      assert Keys(u) == Keys(t);
    } else {
      assert Keys(u) == Keys(t) + [KeyOf(c)];
    }
  }

  /** The table never holds a key twice, and holds exactly the keys of the entries. */
  lemma {:induction false} FoldKeys(es: seq<Agg>)
    ensures Distinct(Keys(Fold(es)))
    ensures forall key :: key in Keys(Fold(es)) <==> key in EntryKeys(es)
  {
    if es != [] {
      var p := es[..|es| - 1];
      FoldKeys(p);
      UpsertKeys(Fold(p), es[|es| - 1]);
      assert EntryKeys(es) == EntryKeys(p) + [KeyOf(es[|es| - 1])];
    }
  }

  /** The sum of `f` over a list of totals. */
  function Total(xs: seq<Agg>, f: Agg -> real): real {
    if xs == [] then 0.0 else Total(xs[..|xs| - 1], f) + f(xs[|xs| - 1])
  }

  lemma {:induction false} TotalUpdate(xs: seq<Agg>, i: nat, x: Agg, f: Agg -> real)
    requires i < |xs|
    ensures Total(xs[i := x], f) == Total(xs, f) - f(xs[i]) + f(x)
  {
    var n := |xs| - 1;
    if i < n {
      assert xs[i := x][..n] == xs[..n][i := x];
      TotalUpdate(xs[..n], i, x, f);
    } else {
      assert xs[i := x][..n] == xs[..n];
    }
  }

  /** A counter that adds up when two totals merge. */
  ghost predicate Additive(f: Agg -> real) {
    forall g, c :: f(MergeAgg(g, c)) == f(g) + f(c)
  }

  /** Merging moves no total from one player to another: a counter summed over the table equals
      that counter summed over the entries merged into it. */
  lemma {:induction false} FoldTotal(es: seq<Agg>, f: Agg -> real)
    requires Additive(f)
    ensures Total(Values(Fold(es)), f) == Total(es, f)
  {
    if es != [] {
      var p := es[..|es| - 1];
      var c := es[|es| - 1];
      FoldTotal(p, f);
      var t := Fold(p);
      var vs := Values(t);
      match Find(t, KeyOf(c))
      case Some(i) =>
        assert Values(Fold(es)) == vs[i := MergeAgg(t[i].1, c)];
        TotalUpdate(vs, i, MergeAgg(t[i].1, c), f);
      case None =>
        assert Values(Fold(es))[..|t|] == vs;
    }
  }

  /** Every player in the table has a non-empty name when every entry has one. */
  lemma {:induction false} FoldNames(es: seq<Agg>)
    requires forall j :: 0 <= j < |es| ==> es[j].name != ""
    ensures forall i :: 0 <= i < |Fold(es)| ==> Fold(es)[i].1.name != ""
  {
    if es != [] {
      var p := es[..|es| - 1];
      assert forall j :: 0 <= j < |p| ==> p[j] == es[j];
      FoldNames(p);
    }
  }

  // ---- rows ----

  const InningsTeamKeys: seq<string> := ["batTeamName", "team", "teamName"]
  const BatNameKeys: seq<string> := ["batsman", "batter", "name", "playerName"]
  const BatRunsKeys: seq<string> := ["runs", "R", "r"]
  const BatBallsKeys: seq<string> := ["balls", "B", "b"]
  const BowlNameKeys: seq<string> := ["bowler", "name", "playerName"]
  const BowlWicketsKeys: seq<string> := ["wickets", "W", "w"]
  const BowlOversKeys: seq<string> := ["overs", "O", "o"]
  const BowlTeamKeys: seq<string> := ["teamName", "team"]

  /** `inn.get(k1) or inn.get(k2) or []` */
  function Block(inn: Fields, k1: string, k2: string): Raw {
    Or(Or(GetOr(inn, k1, Null), GetOr(inn, k2, Null)), List([]))
  }

  /** The one-character strings iterating over a string gives. */
  function Chars(s: string): (r: seq<Raw>)
    ensures |r| == |s| && forall i :: 0 <= i < |s| ==> r[i] == Str([s[i]])
  {
    if s == [] then [] else [Str([s[0]])] + Chars(s[1..])
  }

  /** The rows `for bt in block or []` visits, after a dict block is replaced by its values:
      the items of a list, the one-character strings of a string, nothing for a falsy block;
      a truthy number or bool is not iterable. */
  function Rows(block: Raw): (r: Result<seq<Raw>>)
    ensures r.Err? <==> IsNumber(block) && Truthy(block)
    ensures block.Record? ==> r == Ok(Values(block.fields))
    ensures block.List? ==> r == Ok(block.items)
  {
    var listed := if block.Record? then List(Values(block.fields)) else block;
    match Or(listed, List([]))
    case List(xs) => Ok(xs)
    case Str(s) => Ok(Chars(s))
    case _ => Err(RowsNotIterable)
  }

  /** The entry a batting row contributes, if it is kept: a dict with a non-empty player name. */
  function BatEntry(team: string, bt: Raw): (r: Option<Agg>)
    ensures r.Some? <==> bt.Record? && PlayerName(Pick(bt.fields, BatNameKeys, Str(""))) != ""
    ensures r.Some? ==> r.value.team == team && r.value.name != "" && r.value.wickets == 0 && r.value.overs == 0.0
  {
    if !bt.Record? then None
    else
      var name := PlayerName(Pick(bt.fields, BatNameKeys, Str("")));
      if name == "" then None
      else
        var runs := ToInt(Pick(bt.fields, BatRunsKeys, Int(0)));
        var balls := ToInt(Pick(bt.fields, BatBallsKeys, Int(0)));
        Some(Agg(name, team, runs, balls, 0, 0.0))
  }

  /** The entry a bowling row contributes, if it is kept; its team is the row's own. */
  function BowlEntry(bl: Raw): (r: Option<Agg>)
    ensures r.Some? <==> bl.Record? && PlayerName(Pick(bl.fields, BowlNameKeys, Str(""))) != ""
    ensures r.Some? ==> && r.value.team == TeamName(Pick(bl.fields, BowlTeamKeys, Str("")))
                        && r.value.name != "" && r.value.runs == 0 && r.value.balls == 0
  {
    if !bl.Record? then None
    else
      var name := PlayerName(Pick(bl.fields, BowlNameKeys, Str("")));
      if name == "" then None
      else
        var wickets := ToInt(Pick(bl.fields, BowlWicketsKeys, Int(0)));
        var overs := OversToFloat(Pick(bl.fields, BowlOversKeys, Int(0)));
        var team := TeamName(Pick(bl.fields, BowlTeamKeys, Str("")));
        Some(Agg(name, team, 0, 0, wickets, overs))
  }

  function Opt(o: Option<Agg>): seq<Agg> {
    if o.Some? then [o.value] else []
  }

  /** The entries of the kept batting rows, in row order. */
  function BatEntries(team: string, rows: seq<Raw>): (es: seq<Agg>)
    ensures forall j :: 0 <= j < |es| ==> es[j].team == team && es[j].name != "" && es[j].wickets == 0 && es[j].overs == 0.0
  {
    if rows == [] then [] else BatEntries(team, rows[..|rows| - 1]) + Opt(BatEntry(team, rows[|rows| - 1]))
  }

  /** The entries of the kept bowling rows, in row order. */
  function BowlEntries(rows: seq<Raw>): (es: seq<Agg>)
    ensures forall j :: 0 <= j < |es| ==> es[j].name != "" && es[j].runs == 0 && es[j].balls == 0
  {
    if rows == [] then [] else BowlEntries(rows[..|rows| - 1]) + Opt(BowlEntry(rows[|rows| - 1]))
  }

  /** The batting team of an innings: `_team_name(_pick(inn, [...], ""))`. */
  function BattingTeam(inn: Fields): string {
    TeamName(Pick(inn, InningsTeamKeys, Str("")))
  }

  /** The entries one innings contributes: its batting rows, then its bowling rows. */
  function InningsEntries(inn: Raw): Result<seq<Agg>> {
    if !inn.Record? then Err(InningsNotRecord)
    else
      match Rows(Block(inn.fields, "batting", "batsmen"))
      case Err(e) => Err(e)
      case Ok(bats) =>
        match Rows(Block(inn.fields, "bowling", "bowlers"))
        case Err(e) => Err(e)
        case Ok(bowls) => Ok(BatEntries(BattingTeam(inn.fields), bats) + BowlEntries(bowls))
  }

  /** The entries of all innings in order, or the first innings' failure. */
  function Entries(sc: seq<Raw>): Result<seq<Agg>> {
    if sc == [] then Ok([])
    else
      match Entries(sc[..|sc| - 1])
      case Err(e) => Err(e)
      case Ok(es) =>
        match InningsEntries(sc[|sc| - 1])
        case Err(e) => Err(e)
        case Ok(more) => Ok(es + more)
  }

  /** `_normalize_from_scorecard(scorecard)` on totals. */
  function Normalized(sc: seq<Raw>): Result<Table> {
    match Entries(sc)
    case Ok(es) => Ok(Fold(es))
    case Err(e) => Err(e)
  }

  /** A failing innings makes the whole scorecard fail, whatever follows it. */
  lemma {:induction false} EntriesErrorStays(sc: seq<Raw>, m: nat)
    requires m <= |sc| && Entries(sc[..m]).Err?
    ensures Entries(sc) == Entries(sc[..m])
  {
    if m < |sc| {
      var p := sc[..|sc| - 1];
      assert p[..m] == sc[..m];
      EntriesErrorStays(p, m);
    } else {
      assert sc[..m] == sc;
    }
  }

  lemma {:induction false} EntriesNames(sc: seq<Raw>)
    requires Entries(sc).Ok?
    ensures forall j :: 0 <= j < |Entries(sc).value| ==> Entries(sc).value[j].name != ""
  {
    if sc != [] {
      EntriesNames(sc[..|sc| - 1]);
    }
  }

  /** Every player of a normalised scorecard has a non-empty name, and no key appears twice. */
  lemma NormalizedPlayers(sc: seq<Raw>)
    requires Normalized(sc).Ok?
    ensures Distinct(Keys(Normalized(sc).value))
    ensures forall i :: 0 <= i < |Normalized(sc).value| ==> Normalized(sc).value[i].1.name != ""
  {
    var es := Entries(sc).value;
    EntriesNames(sc);
    FoldNames(es);
    FoldKeys(es);
  }

  // ---- the dicts the source holds ----

  /** The players dict as the source holds it: keys with dicts of totals. */
  type Dicts = seq<(string, map<string, Raw>)>

  function AsDicts(t: Table): (d: Dicts)
    ensures |d| == |t| && forall i :: 0 <= i < |t| ==> d[i] == (t[i].0, AsDict(t[i].1))
  {
    seq(|t|, i requires 0 <= i < |t| => (t[i].0, AsDict(t[i].1)))
  }

  /** `players.get(key, {})` */
  function Lookup(d: Dicts, key: string): map<string, Raw> {
    match Find(d, key)
    case Some(i) => d[i].1
    case None => map[]
  }

  lemma EntryNumericOf(c: Agg)
    ensures EntryNumeric(EntryOf(c))
  {
  }

  /** The dict-level update the source performs for one entry is the table-level `Upsert`. */
  lemma UpsertDicts(t: Table, c: Agg)
    ensures CountersNumeric(Lookup(AsDicts(t), KeyOf(c))) && EntryNumeric(EntryOf(c))
    ensures Put(AsDicts(t), KeyOf(c), Combined(Lookup(AsDicts(t), KeyOf(c)), EntryOf(c))) == AsDicts(Upsert(t, c))
  {
    var key := KeyOf(c);
    var d := AsDicts(t);
    FindSameKeys(t, d, key);
    EntryNumericOf(c);
    match Find(t, key)
    case Some(i) =>
      CombineExisting(t[i].1, c);
      assert Put(d, key, AsDict(MergeAgg(t[i].1, c))) == AsDicts(Upsert(t, c));
    case None =>
      CombineFresh(c);
      assert Put(d, key, AsDict(c)) == AsDicts(Upsert(t, c));
  }

  /** `players[key] = _combine(players.get(key, {}), entry)` for one kept entry, on the dicts. */
  method AddEntry(players: Dicts, ghost t: Table, ghost c: Agg, name: string, team: string, entry: Fields) returns (next: Dicts)
    requires players == AsDicts(t)
    requires c.name == name && c.team == team && entry == EntryOf(c)
    ensures next == AsDicts(Upsert(t, c))
  {
    var key := team + "::" + name;
    assert key == KeyOf(c);
    UpsertDicts(t, c);
    var merged := Combine(Lookup(players, key), entry);
    next := Put(players, key, merged);
  }

  /** One batting row, as the source handles it. */
  method AddBattingRow(players: Dicts, ghost t: Table, team: string, bt: Raw) returns (next: Dicts)
    requires players == AsDicts(t)
    ensures next == AsDicts(if BatEntry(team, bt).Some? then Upsert(t, BatEntry(team, bt).value) else t)
  {
    next := players;
    if !bt.Record? {
      return;
    }
    var rawName := Pick(bt.fields, BatNameKeys, Str(""));
    var name := PlayerName(rawName);
    if name == "" {
      return;
    }
    var runs := ToInt(Pick(bt.fields, BatRunsKeys, Int(0)));
    var balls := ToInt(Pick(bt.fields, BatBallsKeys, Int(0)));
    var entry := [("name", Str(name)), ("team", Str(team)), ("runs", Int(runs)), ("balls", Int(balls)),
                  ("wickets", Int(0)), ("overs", Real(0.0))];
    assert entry == EntryOf(BatEntry(team, bt).value);
    next := AddEntry(players, t, BatEntry(team, bt).value, name, team, entry);
  }

  /** One bowling row, as the source handles it. */
  method AddBowlingRow(players: Dicts, ghost t: Table, bl: Raw) returns (next: Dicts)
    requires players == AsDicts(t)
    ensures next == AsDicts(if BowlEntry(bl).Some? then Upsert(t, BowlEntry(bl).value) else t)
  {
    next := players;
    if !bl.Record? {
      return;
    }
    var rawName := Pick(bl.fields, BowlNameKeys, Str(""));
    var name := PlayerName(rawName);
    if name == "" {
      return;
    }
    var wickets := ToInt(Pick(bl.fields, BowlWicketsKeys, Int(0)));
    var overs := OversToFloat(Pick(bl.fields, BowlOversKeys, Int(0)));
    var bowlTeam := TeamName(Pick(bl.fields, BowlTeamKeys, Str("")));
    var entry := [("name", Str(name)), ("team", Str(bowlTeam)), ("runs", Int(0)), ("balls", Int(0)),
                  ("wickets", Int(wickets)), ("overs", Real(overs))];
    assert entry == EntryOf(BowlEntry(bl).value);
    next := AddEntry(players, t, BowlEntry(bl).value, name, bowlTeam, entry);
  }

  /** Merging one more kept entry after `done + xs`. */
  lemma FoldSnoc(done: seq<Agg>, xs: seq<Agg>, o: Option<Agg>)
    ensures Fold(done + (xs + Opt(o))) == if o.Some? then Upsert(Fold(done + xs), o.value) else Fold(done + xs)
  {
    assert done + (xs + Opt(o)) == (done + xs) + Opt(o);
    if o.Some? {
      assert (done + xs + [o.value])[..|done + xs|] == done + xs;
    } else {
      assert done + xs + [] == done + xs;
    }
  }

  lemma BatEntriesSnoc(team: string, rows: seq<Raw>, j: nat)
    requires j < |rows|
    ensures BatEntries(team, rows[..j + 1]) == BatEntries(team, rows[..j]) + Opt(BatEntry(team, rows[j]))
  {
    assert rows[..j + 1][..j] == rows[..j];
  }

  lemma BowlEntriesSnoc(rows: seq<Raw>, j: nat)
    requires j < |rows|
    ensures BowlEntries(rows[..j + 1]) == BowlEntries(rows[..j]) + Opt(BowlEntry(rows[j]))
  {
    assert rows[..j + 1][..j] == rows[..j];
  }

  /** The batting loop of one innings. */
  method AddBattingRows(players: Dicts, ghost done: seq<Agg>, team: string, rows: seq<Raw>) returns (next: Dicts)
    requires players == AsDicts(Fold(done))
    ensures next == AsDicts(Fold(done + BatEntries(team, rows)))
  {
    next := players;
    var j := 0;
    assert done + BatEntries(team, rows[..0]) == done;
    while j < |rows|
      invariant 0 <= j <= |rows|
      invariant next == AsDicts(Fold(done + BatEntries(team, rows[..j])))
    {
      next := AddBattingRow(next, Fold(done + BatEntries(team, rows[..j])), team, rows[j]);
      BatEntriesSnoc(team, rows, j);
      FoldSnoc(done, BatEntries(team, rows[..j]), BatEntry(team, rows[j]));
      j := j + 1;
    }
    assert rows[..|rows|] == rows;
  }

  /** The bowling loop of one innings. */
  method AddBowlingRows(players: Dicts, ghost done: seq<Agg>, rows: seq<Raw>) returns (next: Dicts)
    requires players == AsDicts(Fold(done))
    ensures next == AsDicts(Fold(done + BowlEntries(rows)))
  {
    next := players;
    var j := 0;
    assert done + BowlEntries(rows[..0]) == done;
    while j < |rows|
      invariant 0 <= j <= |rows|
      invariant next == AsDicts(Fold(done + BowlEntries(rows[..j])))
    {
      next := AddBowlingRow(next, Fold(done + BowlEntries(rows[..j])), rows[j]);
      BowlEntriesSnoc(rows, j);
      FoldSnoc(done, BowlEntries(rows[..j]), BowlEntry(rows[j]));
      j := j + 1;
    }
    assert rows[..|rows|] == rows;
  }

  /** The entries of an innings' bowling rows, or the failure reading them. */
  function BowlingEntries(inn: Fields): Result<seq<Agg>> {
    match Rows(Block(inn, "bowling", "bowlers"))
    case Err(e) => Err(e)
    case Ok(bowls) => Ok(BowlEntries(bowls))
  }

  /** The bowling half of an innings, after its batting rows. */
  method AddBowling(players: Dicts, ghost done: seq<Agg>, inn: Fields) returns (r: Result<Dicts>)
    requires players == AsDicts(Fold(done))
    ensures BowlingEntries(inn).Ok? ==> r == Ok(AsDicts(Fold(done + BowlingEntries(inn).value)))
    ensures BowlingEntries(inn).Err? ==> r == Err(BowlingEntries(inn).error)
  {
    var bowlRows := Rows(Block(inn, "bowling", "bowlers"));
    if bowlRows.Err? {
      return Err(bowlRows.error);
    }
    var next := AddBowlingRows(players, done, bowlRows.value);
    r := Ok(next);
  }

  /** One innings, as the source handles it: batting rows, then bowling rows. */
  method AddInnings(players: Dicts, ghost done: seq<Agg>, inn: Raw) returns (r: Result<Dicts>)
    requires players == AsDicts(Fold(done))
    ensures InningsEntries(inn).Ok? ==> r == Ok(AsDicts(Fold(done + InningsEntries(inn).value)))
    ensures InningsEntries(inn).Err? ==> r == Err(InningsEntries(inn).error)
  {
    if !inn.Record? {
      return Err(InningsNotRecord);
    }
    var battingTeam := BattingTeam(inn.fields);
    var batRows := Rows(Block(inn.fields, "batting", "batsmen"));
    if batRows.Err? {
      return Err(batRows.error);
    }
    var next := AddBattingRows(players, done, battingTeam, batRows.value);
    ghost var bats := BatEntries(battingTeam, batRows.value);
    r := AddBowling(next, done + bats, inn.fields);
    if r.Ok? {
      FoldAssoc(done, bats, BowlingEntries(inn.fields).value);
    }
  }

  lemma FoldAssoc(done: seq<Agg>, xs: seq<Agg>, ys: seq<Agg>)
    ensures Fold(done + xs + ys) == Fold(done + (xs + ys))
  {
    assert done + xs + ys == done + (xs + ys);
  }

  /** `_normalize_from_scorecard(scorecard)`, as the source runs it, on the dicts it holds. */
  method NormalizeFromScorecard(scorecard: seq<Raw>) returns (r: Result<Dicts>)
    ensures Normalized(scorecard).Ok? ==> r == Ok(AsDicts(Normalized(scorecard).value))
    ensures Normalized(scorecard).Err? ==> r == Err(Normalized(scorecard).error)
  {
    var players: Dicts := [];
    ghost var done: seq<Agg> := [];
    var n := 0;
    while n < |scorecard|
      invariant 0 <= n <= |scorecard|
      invariant Entries(scorecard[..n]) == Ok(done)
      invariant players == AsDicts(Fold(done))
    {
      assert scorecard[..n + 1][..n] == scorecard[..n];
      var step := AddInnings(players, done, scorecard[n]);
      if step.Err? {
        EntriesErrorStays(scorecard, n + 1);
        return Err(step.error);
      }
      players := step.value;
      done := done + InningsEntries(scorecard[n]).value;
      n := n + 1;
    }
    assert scorecard[..|scorecard|] == scorecard;
    r := Ok(players);
  }
}
