# Cricket impact engine, modelled in Dafny

This project models the scoring engine of a cricket statistics web app. The engine takes a match
document from a data provider in whatever shape it arrives. It finds the list of innings under one
of six key aliases, either at the top level or one level down. It then collapses every batting and
bowling row into one running total per player. The key for a player is `team + "::" + name`. The
first non-empty name and team win, and the four counters add up.

Each player is scored with a batting formula and a bowling formula and given a role. Each player
is annotated against the average of their team: a tier, a delta, a percentage and a trend mark.
The list is then sorted from the highest score down. A separate report reduces a score list to a
count, averages, and the best and worst player. Two helpers of the web front end are modelled
beside the engine:

- deciding whether a document holds a scorecard;
- the reshaping of a stored match into a card.

## Modules

- `RawValues` (raw.dfy): the decoded JSON values, and Python's truthiness, `dict.get`, `or` and
  `str()` on them. A dict is an association list, so its insertion order is kept. It also holds
  the exceptions the source raises, carried in a `Result`.
- `Text` (text.dfy): `strip`, digits, `str` of integers, `join` and `index`.
- `Coercion` (coercion.dfy): `_i`, `_f` and `_overs_to_float`.
- `Names` (names.dfy): `_team_name` and `_player_name`.
- `Locator` (locator.dfy): `_extract_scorecards`.
- `Combining` (combine.dfy): `_combine`. It has a specification function and a loop method.
- `Normalizing` (normalize.dfy): `_normalize_from_scorecard`.
  - The function `Normalized` states the result on typed totals (`Agg`) in an insertion-ordered
    table.
  - The method `NormalizeFromScorecard` runs the nested loops over innings and rows and updates
    the dict of dicts the source holds. It is proved equal to the function.
- `Totals` (totals.dfy): what the player map adds up to.
- `Scoring` (scoring.dfy): the formulas, rounding, the role rule and the per-player record. It
  also holds the stable descending sort.
- `TeamStats` (teamstats.dfy): the per-team accumulation loop and `_annotate_with_team_stats`.
  The annotation method updates an array of players in place. `summarize_impact` opens with the
  same accumulation loop, so both use the one method `TeamTotals`.
- `Summaries` (summary.dfy): `summarize_impact`.
- `MatchImpact` (match.dfy): `calculate_impact_for_match`. The fetch is a parameter of type
  `Option<string -> Raw>`; `None` stands for the client whose import failed.
- `Cards` (cards.dfy): `_scorecard_exists` with `has_list`, and `_to_card` (app.py).

Numbers are exact reals. `round(x, d)` is round-half-even on the exact value.

## Model

| member | source | states |
|---|---|---|
| RawValues.GetFirst | impact/calculator.py:101 | `d.get(k)` finds something exactly when `k` is present, and what it finds is the value of the first binding of `k` |
| RawValues.GetAt | impact/calculator.py:101 | `d.get(k)` is the value of the first binding of `k` |
| RawValues.KeysAndGet | impact/calculator.py:106-109 | `k` is among the keys exactly when `d.get(k)` finds a binding, and the value found is among `d.values()` |
| RawValues.Pick | impact/calculator.py:54-58 | `_pick` gives the default when no listed key holds a value other than `None`/`""`, else the value of the first key that does |
| RawValues.ShowReal | impact/calculator.py:28 | the `str` of a float always contains a point |
| Text.TrimLeftSpec | impact/calculator.py:28 | `lstrip` drops a prefix of whitespace only, and what is left starts with a non-space |
| Text.TrimRightSpec | impact/calculator.py:28 | `rstrip` drops a suffix of whitespace only, and what is left ends with a non-space |
| Text.StripSpec | impact/calculator.py:28 | `strip` is the middle slice left after the whitespace at both ends is gone |
| Text.StripUnchanged | app.py:59 | a string whose ends are not whitespace is its own strip |
| Text.StripKeeps | app.py:59 | stripping never removes a non-whitespace character |
| Text.ShowNat | impact/calculator.py:28 | `str(n)` of a natural number is a non-empty run of digits |
| Text.ShowNatRoundTrip | impact/calculator.py:28 | reading back the digits of `str(n)` gives `n` |
| Text.IndexOf | impact/calculator.py:47 | `s.split(".", 1)` splits at the first point in `s` |
| Text.DigitsOnly | impact/calculator.py:48 | keeping the digits of a string gives only digits, and never more characters |
| Text.DigitsOnlyMembers | impact/calculator.py:48 | a character survives the filter exactly when it is in the text and is a digit |
| Text.DigitsOnlyAppend | impact/calculator.py:48 | the filter keeps order: the digits of `a + b` are those of `a` followed by those of `b` |
| Text.DigitsOnlyOfDigits | impact/calculator.py:48 | text made only of digits passes the filter unchanged |
| Coercion.OversToFloat | impact/calculator.py:40-51 | `None` gives 0.0, and an int or float comes back as its number |
| Coercion.OversFromText | impact/calculator.py:46-51 | text without a point falls back to `_f`; text with one gives the whole overs plus at most one more over of balls |
| Coercion.BallsOf | impact/calculator.py:48 | the balls part is 0 when the text after the point has no digit, and otherwise the decimal value of all its digits, capped at 6 |
| Coercion.ParseIntRejects | impact/calculator.py:26-30 | `int()` refuses text holding a character that is neither a sign nor a digit |
| Coercion.ParseFloatRejects | impact/calculator.py:33-37 | `float()` refuses text holding a character that is neither a sign, a digit nor a point |
| Coercion.DecimalRejects | impact/calculator.py:33-37 | the unsigned decimal part accepts only digits and a point |
| Coercion.ParseShowInt | impact/calculator.py:26-30 | `str(i)` has no whitespace at its ends and `int()` reads it back as `i` |
| Coercion.ParseShowNegative | impact/calculator.py:26-30 | the same round trip for negative integers |
| Coercion.NegativeText | impact/calculator.py:26-30 | a minus sign followed by digits reads as minus their value |
| Coercion.ToIntOfInt | impact/calculator.py:26-30 | `_i` returns an integer unchanged |
| Coercion.ToIntOfNonInteger | impact/calculator.py:26-30 | `_i` of `None`, a bool, a float, a dict or a list is 0 rather than an exception |
| Coercion.ToFloatOfNonNumber | impact/calculator.py:33-37 | `_f` of `None`, a bool, a dict or a list is 0.0 rather than an exception |
| Coercion.IntOfTextRejects | impact/calculator.py:26-30 | text holding a character that is not a sign, a digit or whitespace gives 0 |
| Coercion.FloatOfTextRejects | impact/calculator.py:33-37 | text holding a character that is not a sign, a digit, a point or whitespace gives 0.0 |
| Coercion.ToFloatOfInt | impact/calculator.py:33-37 | `_f` of an integer is that integer as a float |
| Coercion.FloatReadsInteger | impact/calculator.py:26-37 | text `int()` accepts, `float()` accepts with the same value |
| Coercion.DecimalOfDigits | impact/calculator.py:33-37 | a run of digits reads as that whole number |
| Coercion.OversBallNotation | impact/calculator.py:46-49 | overs `"<w>.<d>"` give `w + min(d, 6)/6` |
| Coercion.OversOfParts | impact/calculator.py:46-49 | text `head.tail`, where `head` has no point, gives `_i(head)` plus the balls of `tail` in sixths |
| Coercion.OversFourPointThree | impact/calculator.py:41 | `_overs_to_float("4.3") == 4.5` |
| Coercion.OversZeroPointNine | impact/calculator.py:48 | `_overs_to_float("0.9") == 1.0`: more than six balls count as six |
| Coercion.OversFourPointTwelve | impact/calculator.py:46-49 | `_overs_to_float("4.12") == 5.0`: the digits `12` read as twelve balls, capped at six |
| Coercion.BallsOfTwelve | impact/calculator.py:48 | the balls part of `12` is 6 |
| Coercion.OversNoBallDigits | impact/calculator.py:46-49 | `_overs_to_float("2.b") == 2.0`: no digit after the point reads as `"0"` balls |
| Names.OrChain | impact/calculator.py:64 | a chain of `or` gives its first truthy operand, or the last operand when none is truthy |
| Names.Dedup | impact/calculator.py:66-70 | the list `_team_name` builds has no repeats and holds exactly the non-empty names |
| Names.DedupFirstSeen | impact/calculator.py:66-70 | names stay in the order they are first seen |
| Names.TeamNameOfRecord | impact/calculator.py:63-64 | on a dict, the `str` of the first truthy of `name`, `teamName`, `shortName`, `abbr` |
| Names.TeamNameOfNamelessRecord | impact/calculator.py:64 | a dict with none of them truthy gives `""` |
| Names.TeamNameOfList | impact/calculator.py:65-71 | on a list, the distinct non-empty member names joined with `" / "`, first seen first |
| Names.NameOfStr | impact/calculator.py:61-88 | a string is its own team name and its own player name |
| Names.ShowEmpty | impact/calculator.py:72 | `str(x)` is empty only for the empty string |
| Names.PlayerNameEmpty | impact/calculator.py:88 | a player value that is not a dict has an empty name exactly when it is falsy |
| Names.PlayerNameOfRecordEmpty | impact/calculator.py:77-86 | a dict has an empty player name exactly when none of its seven name fields is truthy |
| Locator.FirstListKey | impact/calculator.py:100-103 | the first alias, in the fixed order, whose value is a non-empty list; none when there is none |
| Locator.FirstNested | impact/calculator.py:106-111 | the first dict value, in document order, that holds a non-empty list under an alias |
| Locator.ExtractScorecards | impact/calculator.py:92-113 | `[]` exactly when no alias matches at either level; otherwise a non-empty list taken as it stands from an alias at the top level or in a dict value |
| Locator.ExtractTopLevel | impact/calculator.py:100-103 | the first top-level alias holding a list wins over everything nested |
| Locator.ExtractNested | impact/calculator.py:106-111 | without a top-level match, the first dict value holding the list decides |
| Combining.Plus | impact/calculator.py:120 | `+` on numbers adds their values, and gives a float exactly when an operand is a float |
| Combining.Combine | impact/calculator.py:116-129 | the copy-then-update loop computes `Combined(a, b)` |
| Combining.CombinedKeeps | impact/calculator.py:116-129 | a key `_combine` does not handle, or that `b` lacks, keeps its value from `a` |
| Combining.CombinedAt | impact/calculator.py:119-128 | a counter becomes `a`'s value (default 0) plus `b`'s; `name`/`team` keep `a`'s truthy value, else take `b`'s normalised |
| Combining.CombinedCounterSum | impact/calculator.py:119-120 | each counter holds the sum of the two as a number |
| Combining.CombinedFirstWriter | impact/calculator.py:121-128 | a truthy name or team already present survives: the first writer wins |
| Normalizing.CombineFresh | impact/calculator.py:165-166 | combining a row's entry into `{}` gives the entry's totals |
| Normalizing.CombineExisting | impact/calculator.py:165-166 | combining into existing totals keeps their non-empty name and team and adds the counters |
| Normalizing.Find | impact/calculator.py:166 | the position of the player's key in the map, if present |
| Normalizing.Put | impact/calculator.py:166 | `players[key] = v` replaces in place when the key is present, else appends, and changes nothing else |
| Normalizing.FoldKeys | impact/calculator.py:146-184 | the map never holds a key twice and holds exactly the keys of the kept rows |
| Normalizing.FoldTotal | impact/calculator.py:146-184 | an additive counter summed over the map equals its sum over the kept rows' entries |
| Normalizing.FoldNames | impact/calculator.py:146-184 | every player in the map has a non-empty name |
| Normalizing.Rows | impact/calculator.py:152-155 | a dict block gives its values and a list its items; only a truthy number or bool raises |
| Normalizing.BatEntry | impact/calculator.py:156-165 | a batting row is kept exactly when it is a dict with a non-empty player name; it is keyed by the innings' batting team and has 0 wickets and overs |
| Normalizing.BowlEntry | impact/calculator.py:174-183 | a bowling row is kept under the same rule; its team is the row's own `teamName`/`team`, and it has 0 runs and balls |
| Normalizing.BatEntries | impact/calculator.py:156-166 | the kept batting rows, in order, all of the batting team |
| Normalizing.BowlEntries | impact/calculator.py:174-184 | the kept bowling rows, in order |
| Normalizing.EntriesErrorStays | impact/calculator.py:149-184 | an innings that raises makes the whole scorecard raise |
| Normalizing.NormalizedPlayers | impact/calculator.py:132-186 | every player has a non-empty name, and no key appears twice |
| Normalizing.UpsertDicts | impact/calculator.py:166 | `players[key] = _combine(players.get(key, {}), entry)` on the dicts is the upsert on the totals |
| Normalizing.AddEntry | impact/calculator.py:165-166 | one row's update of the dict map is the upsert on the totals |
| Normalizing.AddBattingRow | impact/calculator.py:156-166 | one batting row adds its entry or, when skipped, changes nothing |
| Normalizing.AddBowlingRow | impact/calculator.py:174-184 | one bowling row adds its entry or, when skipped, changes nothing |
| Normalizing.AddBattingRows | impact/calculator.py:156-166 | the batting loop folds its kept rows into the map, in order |
| Normalizing.AddBowlingRows | impact/calculator.py:174-184 | the bowling loop folds its kept rows into the map, in order |
| Normalizing.AddBowling | impact/calculator.py:169-184 | the bowling block of an innings, or its exception |
| Normalizing.AddInnings | impact/calculator.py:149-184 | one innings: its batting rows, then its bowling rows, or its exception |
| Normalizing.NormalizeFromScorecard | impact/calculator.py:132-186 | the nested loops compute `Normalized(scorecard)` as dicts, or raise what it raises |
| Totals.NormalizedTotals | impact/calculator.py:146-184 | the runs summed over the map are the runs of the kept batting rows, and the wickets those of the kept bowling rows |
| Totals.InningsTotals | impact/calculator.py:149-184 | an innings' runs come from its batting rows and its wickets from its bowling rows |
| Totals.EntriesTotals | impact/calculator.py:149-184 | the same over a whole scorecard |
| Scoring.NearestEven | impact/calculator.py:16 | the integer nearest to `y`, within one half; when `y` lies exactly halfway, the even neighbour |
| Scoring.RoundClose | impact/calculator.py:12-22 | `round(x, d)` is within half a unit of the last place kept |
| Scoring.RoundExact | impact/calculator.py:12-22 | a multiple of 10^-d is its own rounding |
| Scoring.RoundIdempotent | impact/calculator.py:12-22 | rounding twice is rounding once |
| Scoring.RoundWhole | impact/calculator.py:12-22 | a whole number is unchanged by rounding |
| Scoring.RoundHalfToEven | impact/calculator.py:16 | ties go to the even last digit: `round(0.125, 2) == 0.12` and `round(0.135, 2) == 0.14` |
| Scoring.BattingWithoutBalls | impact/calculator.py:12-16 | with no ball faced, the strike rate counts as 0 and the impact is 0.4 per run |
| Scoring.BattingOfNothing | impact/calculator.py:12-16 | `calculate_batting_impact(0, 0) == 0` |
| Scoring.BattingHundredOffFifty | impact/calculator.py:12-16 | 100 runs off 50 balls score 160 |
| Scoring.BowlingOfNothing | impact/calculator.py:19-22 | `calculate_bowling_impact(0, 0) == 10` |
| Scoring.BowlingWhole | impact/calculator.py:19-22 | `wickets*8 + 10 - overs`, unclamped |
| Scoring.RoleOf | impact/calculator.py:210-211 | all-rounder iff wickets are truthy and runs ≥ 20; bowler iff wickets are truthy and runs < 20; batter iff wickets are 0 |
| Scoring.ScorePlayer | impact/calculator.py:207-223 | the record keeps the totals, has the two impacts, the rounded sum as score and the role, and no annotation yet |
| Scoring.SortPermutes | impact/calculator.py:226 | the sorted list holds the same players, each as often |
| Scoring.SortSorted | impact/calculator.py:226 | the list is ordered from the highest score down |
| Scoring.SortStable | impact/calculator.py:226 | players with equal scores keep their order |
| TeamStats.TeamOf | impact/calculator.py:253 | a player's group is its team string |
| TeamStats.Teams | impact/calculator.py:251-255 | the teams in first-seen order, each once |
| TeamStats.TeamsListed | impact/calculator.py:251-256 | a team is listed exactly when it has players |
| TeamStats.TeamCountPositive | impact/calculator.py:251-255 | a team has players exactly when some player's team is it |
| TeamStats.TeamTotals | impact/calculator.py:251-255 | the loop gives the teams in first-seen order, and the sum and the count of each |
| TeamStats.TeamAverages | impact/calculator.py:256 | `team_avg` holds exactly the listed teams, each with its average |
| TeamStats.TierOf | impact/calculator.py:258-262 | elite at 110 or more, high at 80 or more, solid at 50 or more, else developing, each as an iff |
| TeamStats.SymbolOf | impact/calculator.py:269 | ▲ iff delta > 3, ▼ iff delta < -3, ▬ otherwise |
| TeamStats.AnnotateOne | impact/calculator.py:264-273 | only the four annotation keys change |
| TeamStats.Annotated | impact/calculator.py:248-273 | every player is annotated against its team's average; the length is kept |
| TeamStats.AnnotateWithTeamStats | impact/calculator.py:248-273 | the in-place update leaves the array equal to `Annotated` of its old contents |
| TeamStats.AnnotateIdempotent | impact/calculator.py:264-273 | scores and teams never change, so a second call gives the same list |
| TeamStats.UniformTeamLevel | impact/calculator.py:266-269 | a player whose team all score the same positive value has delta 0, percentage 0 and ▬ |
| TeamStats.DeltaAgainstTeam | impact/calculator.py:266-270 | with a positive average, the delta is the rounded gap to it and the percentage is computed from that rounded delta; otherwise both are 0.0 |
| Summaries.BestIndex | impact/calculator.py:241 | `max` picks a highest score, the first such |
| Summaries.WorstIndex | impact/calculator.py:242 | `min` picks a lowest score, the first such |
| Summaries.TeamAvgs | impact/calculator.py:239 | one entry per team in first-seen order, with its average rounded to 2 places |
| Summaries.SummaryOf | impact/calculator.py:230-245 | `[]` gives count 0, 0.0, no team averages and no best/worst; otherwise the count is the length, the global average is the mean rounded to 2 places, best and worst are the players at `BestIndex` and `WorstIndex`, and no team appears twice |
| Summaries.SummarizeImpact | impact/calculator.py:230-245 | the method computes `SummaryOf(players)` |
| Summaries.SummaryTeams | impact/calculator.py:233-239 | there is a `team_avgs` entry for a team exactly when some player is in it, with its rounded average |
| Summaries.SummaryExtremes | impact/calculator.py:241-245 | `best` is the first maximal player and `worst` the first minimal one |
| Summaries.MeanBetweenExtremes | impact/calculator.py:240-242 | before rounding, the global average lies between the worst and the best score |
| MatchImpact.ReadAgg | impact/calculator.py:207-222 | reading a totals dict back gives the totals it was built from |
| MatchImpact.ScoredPlayers | impact/calculator.py:205-223 | one record per player, in the map's insertion order |
| MatchImpact.ScoreAll | impact/calculator.py:205-223 | the append loop builds `ScoredPlayers` of the map |
| MatchImpact.ImpactOfScorecard | impact/calculator.py:202-227 | normalising, scoring, annotating in place and sorting give `ScorecardImpact` |
| MatchImpact.CalculateImpactForMatch | impact/calculator.py:190-227 | the method computes `MatchImpactOf`: `[]` without an id, a client, a truthy document or a scorecard, an exception for a document that is not a dict |
| MatchImpact.ScorecardImpactOrdered | impact/calculator.py:225-227 | the result is sorted from the highest score down, is a permutation of the annotated players, and keeps ties in map order |
| MatchImpact.ScorecardImpactPlayers | impact/calculator.py:205-227 | one record per player of the map, each named, annotated and carrying that player's name, team, runs and wickets |
| MatchImpact.ImpactImpliesScorecard | impact/calculator.py:196-202 | a non-empty score list comes from a document `_scorecard_exists` accepts |
| Cards.ScorecardExists | app.py:103-130 | False for anything that is not a dict; True exactly when an alias passes `has_list` at the top level or in a dict value |
| Cards.AliasSpec | app.py:119-121 | the alias loop succeeds exactly when some alias passes `has_list` |
| Cards.NestedSpec | app.py:124-128 | the nested loop succeeds exactly when some dict value has an alias passing `has_list` |
| Cards.ExtractImpliesExists | app.py:103-130 | whatever `_extract_scorecards` finds, `_scorecard_exists` reports |
| Cards.ExistsWithoutExtraction | app.py:114-115 | the converse fails: an alias holding a dict with a non-empty `innings` passes `has_list`, while `_extract_scorecards` returns `[]` |
| Cards.SingleBinding | app.py:111 | `get` on a one-binding dict |
| Cards.ToCard | app.py:57-72 | exactly the eleven keys in order; `id` is `match_id` if truthy else `id`; `name` is the name if truthy else `"<team1> vs <team2>"` stripped; every other field is copied, defaulting to `""` |
| Cards.CardNameFromTeams | app.py:59 | with no name and clean team names, the card is named `"<team1> vs <team2>"` |
| Cards.CardNameWithoutTeams | app.py:59 | with neither a name nor teams, the card is named `"vs"` |

## Behaviour worth knowing

The model keeps these behaviours of the code, though the engine's design elsewhere aims to
degrade gracefully to defaults.

- The engine raises instead of returning a default in three cases the model represents:
  - a fetched document that is truthy but not a dict;
  - an innings that is not a dict;
  - a batting or bowling block that is a truthy number or bool.

  The model returns `Err` with that exception.
- Every player gets `calculate_bowling_impact(wickets, overs)`, including players who never bowled.
  A pure batter therefore gets 10 points for bowling, because nothing clamps it.
- The role rule tests wickets by truthiness rather than `wickets > 0`. Any non-zero count, even a
  negative one, makes a bowler or an all-rounder.

## Left out

- The HTTP client, the database layer, the sample fixtures, the Flask routes and the app's
  bootstrap are not part of this model.
- `_first_live_with_scorecard` and `_impact_from_samples` are not part of this model.
- The import fallback for `get_match_details` is modelled only as a `None` fetch.
- Floating point: arithmetic is exact, and `round` is round-half-even on the exact value. IEEE
  results, such as `round(2.675, 2)` giving 2.67, and the order of summation are not modelled.
  Neither is the `OverflowError` that `float()` raises on an integer too large for a double,
  such as a 400-digit run count read by `_i`.
- `str()` of a float is modelled as positional notation with at most 16 fractional digits, not
  Python's shortest round-trip `repr`. Exponent notation is not modelled.
- `repr` of strings inside containers is modelled without Python's escaping.
- `isdigit` is modelled as ASCII digits only.
- `int()` and `float()` text parsing cover an optional sign, digits and one point. Underscores,
  `inf`, `nan`, exponents and non-ASCII digits are not modelled.
- Dicts are association lists, and `get` reads the first binding. Duplicate keys, which a real
  dict cannot hold, are not excluded.
- Combining.Combine: requires the counters of both dicts to be numbers, which every row the
  engine builds holds. Other counters are not modelled: two strings or two lists are
  concatenated by `+`, and mixed types, or a non-number added to the default 0, raise a
  `TypeError`.
- MatchImpact.ImpactOfScorecard: the in-place `out.sort(...)` is modelled by its result,
  `SortByImpact` of the annotated array's contents. The sorting steps inside the array are not
  modelled.
- TeamStats.AnnotateWithTeamStats: the four keys are written into a player's annotation field
  rather than into a shared dict. Aliasing between the list and other holders of the same dicts is
  not modelled.
- Scoring.BattingImpact and Scoring.BowlingImpact take the totals as reals. The `float(x or 0)`
  conversion of inputs other than numbers is not modelled, because the engine only passes numbers.
