# Wurstliga rank charts in Dafny

This project models the logic of the rank-over-time charts of the Wurstliga
standings site. Each round ("Spieltag") is published as a JSON document
listing every player with the `wurstliga_pts` they scored in it. The charts
load all rounds and keep a running total per player. After every round they
rank the players by descending total and emit one
`{spieltag, name, rank, points}` record per ranked player. The model covers:

- **The Map-based rank series** of `InteractiveRankChart` and `SimpleRankChart`.
  Their loading loops are textually the same apart from URLs and logging,
  so one model (`RankSeries`) serves both.
  - The rounds are walked in ascending id order.
  - A round whose fetch failed or whose status is `not_started` is skipped.
  - Every other round adds its points to a JavaScript `Map`.
  - It then appends the Map's entries sorted by descending total, with
    `rank = index + 1`.
  - Only players seen so far are ranked. Ties keep the Map's insertion order,
    because `Array.prototype.sort` is stable (section 23.1.3.30 of ECMA-262).
- **The all-names variant** of `RankEvolution` (`RankEvolution`).
  - The kept documents are collected first.
  - Every name in them starts at 0.
  - The documents are walked in order of their own `spieltag` field.
  - Every round ranks every player, with `rank = ranking.indexOf(name) + 1`.
  - `byPlayer` then regroups the points into one line per player.
- **The selection controls** of `InteractiveRankChart` (`Selection`):
  `togglePlayer`, `selectAll`, `selectNone`, `selectTop5` and `filteredData`.
- **What the charts derive from the records** (`ChartAxes`):
  - the distinct player list and the sorted distinct round list;
  - `maxRank`, the rank lines and the `min(maxRank, 8)` rank labels;
  - the eight-player legend and its 12-character name truncation;
  - each player's points sorted by round.
- **Worked seasons** (`Scenarios`): a lead change, a tie, skipped rounds, and
  a late joiner, the last showing where the two chart families differ.
- **The round schedule** (`Schedule`): the numerically sorted metadata ids, and
  the file name `String(id).padStart(2, '0')`, which reads back as the id.

Supporting modules:

- `Seqs`: `indexOf`, `Array.from(new Set(xs))`, `Math.max`, and block layout.
- `StableSort`: a stable insertion sort, proved to be a sorted, stable
  permutation. It also has the numeric ascending sort.
- `Rounds`: round documents and the reference definitions. These say which
  documents count, which names they mention, and the points each player
  collects.
- `Totals`: the JavaScript `Map<string, number>`. It is modelled as its key
  order plus the value stored under each key, so that `set` on an existing
  key keeps that key's position.
- `Ranking`: what a round's ranking must be, stated independently of either
  chart. Every key appears once, by non-increasing total, with ties in key
  order and rank = position + 1. Such a ranking is unique.

The two chart families differ in two ways:

- `RankEvolution` sets every name to 0 before its walk
  (`src/components/RankEvolution.tsx:34`), so every round ranks every player.
  The Map-based charts add a player the first time they see them
  (`src/components/InteractiveRankChart.tsx:46-49`,
  `src/components/SimpleRankChart.tsx:36-43`), so each round ranks only the
  players seen so far.
- The Map-based charts stamp each record with the metadata id of its round.
  `RankEvolution` stamps it with the document's own `spieltag` field, and it
  also orders its walk by that field.

## Model

| member | source | states |
|---|---|---|
| RankSeries.LoadSeries | src/components/InteractiveRankChart.tsx:35-62 | The loading loop emits exactly `Series(rounds)` and leaves the Map at `TotalsAfter(rounds)`. It skips a round that failed or has not started, and otherwise adds its points and then appends its standings. |
| RankSeries.SkippedRound | src/components/InteractiveRankChart.tsx:40-43 | A round whose fetch is not ok or whose status is `not_started` emits no records and changes no running total. |
| RankSeries.TotalsAfterValid | src/components/InteractiveRankChart.tsx:46-49 | After any prefix of the rounds the Map is well formed: each key listed once, a value stored under exactly the listed keys. |
| RankSeries.TotalsArePrefixSums | src/components/InteractiveRankChart.tsx:46-49 | After any prefix of the rounds, the Map's keys are the players seen so far, each once, in order of first appearance. Each total is the sum of that player's points over the rounds that counted, and a name repeated within a round counts every time. |
| RankSeries.CountedRound | src/components/InteractiveRankChart.tsx:46-61 | A counted round appends exactly the stable ranking of the totals after it. That ranking has one record per player seen so far, and the totals equal the prefix sums. |
| RankSeries.StandingsAreStableRanking | src/components/InteractiveRankChart.tsx:52-61 | The records of a round list every Map key once, with rank = position + 1 and points = the key's total. They are ordered by non-increasing total, with ties in insertion order. |
| RankSeries.StandingsOrder | src/components/InteractiveRankChart.tsx:52-53 | The sorted entries name different players. Each player is ahead of every later one: either a larger total, or an equal total and an earlier key. |
| RankSeries.StandingsMembers | src/components/InteractiveRankChart.tsx:55-61 | Every record names a Map key and carries that key's total. |
| RankSeries.StandingsCover | src/components/InteractiveRankChart.tsx:52-61 | Every Map key has a record. |
| RankSeries.SeenNamesGrow | src/components/SimpleRankChart.tsx:36-43 | The ranked players only grow. The players seen after some rounds are a prefix of those seen after any continuation. |
| RankSeries.TotalsNonDecreasing | src/components/InteractiveRankChart.tsx:46-49 | When a round awards no negative points, no player's running total goes down. |
| Ranking.RankingShape | src/components/InteractiveRankChart.tsx:55-61 | In a stable ranking of k players the ranks are exactly 1..k, each once, and points never increase down the ranking. |
| Ranking.RankingIsUnique | src/components/InteractiveRankChart.tsx:52-53 | Two stable rankings of the same totals are the same sequence of records. The output therefore depends on the totals alone, whichever stable sort produced it. |
| Ranking.PointsNamedMembers | src/components/SimpleRankChart.tsx:126 | `data.filter(d => d.name === player)` keeps exactly that player's records. |
| Totals.PutSpec | src/components/InteractiveRankChart.tsx:47-48 | `Map.set` appends a key only when it is new and stores the value under it. Every other key's value is unchanged, and the Map stays well formed. |
| Totals.AddPointsGet | src/components/InteractiveRankChart.tsx:46-49 | After a round, every name holds its old total plus every point the round awards it. |
| Totals.AddPointsKeys | src/components/InteractiveRankChart.tsx:46-49 | A round appends the names new to the Map, in order of their first appearance in the round. |
| Totals.AddPointsValid | src/components/InteractiveRankChart.tsx:46-49 | A round keeps the Map well formed. |
| Totals.AddPointsKnownKeys | src/components/RankEvolution.tsx:37 | A round whose players all hold keys already leaves the key order as it was. |
| Rounds.KeptDocsAppend | src/components/RankEvolution.tsx:21-28 | Dropping the failed and not-started rounds distributes over concatenation. |
| Rounds.DocNamesAppend | src/components/RankEvolution.tsx:31 | The flattened name list of two document lists is the concatenation of theirs. |
| Rounds.PointsOfAbsent | src/components/InteractiveRankChart.tsx:46-49 | A player not named in a round gets no points from it. |
| Rounds.PointsOfNonNegative | src/components/InteractiveRankChart.tsx:46-49 | A round without negative entries gives nobody a negative sum. |
| StableSort.SortCorrect | src/components/InteractiveRankChart.tsx:52-53 | The sort of a duplicate-free sequence is a duplicate-free permutation of it. It is sorted by descending key, and equal keys keep their input order. |
| StableSort.SortSortsPermutation | src/components/InteractiveRankChart.tsx:52-53 | The sort is a permutation of its input, sorted by descending key. |
| StableSort.SortIsStable | src/components/InteractiveRankChart.tsx:52-53 | Elements with equal keys keep their relative input order. |
| StableSort.SortKeepsNoDups | src/components/RankEvolution.tsx:39 | Sorting a duplicate-free sequence leaves it duplicate-free. |
| StableSort.SortMembers | src/components/InteractiveRankChart.tsx:52-53 | The sort keeps every element, adds none, and keeps the length. |
| StableSort.SortSorted | src/components/SimpleRankChart.tsx:126 | Sorting a sequence that is already in order leaves it unchanged. |
| StableSort.SortNumbers | src/components/InteractiveRankChart.tsx:32 | `.sort((a, b) => a - b)` returns the same numbers, counted with multiplicity, in non-decreasing order. |
| StableSort.SortNumbersUnique | src/components/InteractiveRankChart.tsx:32 | Any non-decreasing sequence holding the same numbers is the sort's result, so the sort has only one possible outcome. |
| StableSort.SortNumbersStrict | src/components/SimpleRankChart.tsx:77 | Sorting distinct numbers gives distinct numbers in strictly ascending order. |
| Seqs.IndexOf | src/components/RankEvolution.tsx:41 | `indexOf` returns -1 exactly when the element is absent. Otherwise it returns a position holding the element. |
| Seqs.IndexOfFirst | src/components/RankEvolution.tsx:41 | No position before the one `indexOf` returns holds the element. |
| Seqs.IndexOfNoDups | src/components/RankEvolution.tsx:41 | In a duplicate-free sequence, `indexOf` of the element at position i is i. |
| Seqs.Distinct | src/components/RankEvolution.tsx:31 | `Array.from(new Set(xs))` is duplicate-free and holds exactly the elements of `xs`. |
| Seqs.DistinctFirstAppearance | src/components/SimpleRankChart.tsx:76 | The distinct elements come in the order of their first appearance in `xs`. |
| Seqs.AddNewMembers | src/components/RankEvolution.tsx:31 | Adding elements to a set in order keeps the old ones and adds exactly the new ones. |
| Seqs.AddNewNoDups | src/components/RankEvolution.tsx:31 | Adding elements in order never lists one twice. |
| Seqs.AddNewAppend | src/components/RankEvolution.tsx:31 | Adding `xs + ys` is adding `xs` and then `ys`. |
| Seqs.Max | src/components/SimpleRankChart.tsx:86 | `Math.max(...xs)` of a non-empty list is an element of it, and no element exceeds it. |
| RankEvolution.ZeroesSpec | src/components/RankEvolution.tsx:34 | `new Map(names.map(n => [n, 0]))` with distinct names has exactly the keys `names`, in order, all at 0. |
| RankEvolution.SetZeroesSpec | src/components/RankEvolution.tsx:34 | Setting names to 0 appends the new ones in first-appearance order and leaves every other total alone. |
| RankEvolution.WalkSorted | src/components/RankEvolution.tsx:36 | The walk visits every kept document once, by non-decreasing `spieltag` field. |
| RankEvolution.WalkSetup | src/components/RankEvolution.tsx:31 | `names` holds every name of the kept documents once, in order of first appearance. |
| RankEvolution.CumAfterValid | src/components/RankEvolution.tsx:34-37 | Starting from distinct names, every `cum.set` of the walk leaves the Map well formed: each key listed once, a value stored under exactly the listed keys. |
| RankEvolution.CumAfterKeys | src/components/RankEvolution.tsx:37 | With all names preset, no `cum.set` adds a key, so the totals keep exactly `names` as their keys. |
| RankEvolution.CumAfterSums | src/components/RankEvolution.tsx:37 | After n documents of the walk, every player's `cum` value is the sum of their points over those documents. |
| RankEvolution.RankIsPosition | src/components/RankEvolution.tsx:39-41 | `ranking.indexOf(name) + 1` is position + 1, because the names are distinct. |
| RankEvolution.RankAllIsStableRanking | src/components/RankEvolution.tsx:39-41 | Each round's records are the stable ranking of all names by `cum`, with ties in `names` order. |
| RankEvolution.PushRanking | src/components/RankEvolution.tsx:40-42 | The `ranking.forEach` loop appends exactly that round's ranking to `out`. |
| RankEvolution.Walk | src/components/RankEvolution.tsx:36-43 | The document loop leaves `cum` at the totals after the last document and `out` at the blocks of all rounds in walk order. |
| RankEvolution.SeriesBlock | src/components/RankEvolution.tsx:36-43 | The i-th block of `names.length` records is the ranking at the i-th walked document. |
| RankEvolution.SeriesLength | src/components/RankEvolution.tsx:36-43 | Every walked document contributes `names.length` records. |
| RankEvolution.EvolutionRanksEveryRound | src/components/RankEvolution.tsx:16-43 | For every walked document, its block ranks every player. The totals are prefix sums over the walk, and the block is the stable ranking of those totals. |
| RankEvolution.EvolutionLength | src/components/RankEvolution.tsx:28-43 | The output has `docs.length * names.length` records. |
| RankEvolution.AddToTrack | src/components/RankEvolution.tsx:58-61 | One step of `byPlayer` pushes the point's spieltag and rank onto its own player's line and changes no other line. |
| RankEvolution.ByPlayerNames | src/components/RankEvolution.tsx:56-63 | The lines appear in order of each player's first point. |
| RankEvolution.ByPlayerTracks | src/components/RankEvolution.tsx:56-63 | Each player's `x` lists the spieltag of that player's points in order, and `y[i]` is the rank at `x[i]`. |
| Selection.TogglePlayer | src/components/InteractiveRankChart.tsx:82-90 | Toggling flips the player's membership, leaves everyone else's unchanged, and sets the mode to `none`. |
| Selection.ToggleTwice | src/components/InteractiveRankChart.tsx:82-90 | Toggling the same player twice restores the selection. |
| Selection.SelectAll | src/components/InteractiveRankChart.tsx:99-102 | `selectAll` selects exactly the listed players, with mode `all`. |
| Selection.SelectNone | src/components/InteractiveRankChart.tsx:104-107 | `selectNone` selects nobody, with mode `none`. |
| Selection.SelectNoneShowsNothing | src/components/InteractiveRankChart.tsx:104-107 | After `selectNone`, `filteredData` is empty. |
| Selection.FilteredDataMembers | src/components/InteractiveRankChart.tsx:120-122 | `filteredData` keeps exactly the records of selected players and never grows. |
| Selection.FilteredDataKeepsAll | src/components/InteractiveRankChart.tsx:120-122 | When every record's player is selected, the filter returns the data unchanged. |
| Selection.FilteredDataTwice | src/components/InteractiveRankChart.tsx:120-122 | Filtering by one selection and then another is filtering by their intersection. |
| Selection.SelectAllShowsEverything | src/components/InteractiveRankChart.tsx:99-102 | After `selectAll` over the loaded players, `filteredData` is all the data. |
| Selection.ToggleKeepsOthers | src/components/InteractiveRankChart.tsx:82-90 | Toggling one player leaves the drawn records of every other player unchanged. |
| Selection.NamedIsFiltered | src/components/InteractiveRankChart.tsx:120-122 | One player's records are the filter by the singleton selection. |
| Selection.MaxSpieltag | src/components/InteractiveRankChart.tsx:112 | `Math.max(...data.map(x => x.spieltag))` is some record's spieltag, and no record's spieltag exceeds it. |
| Selection.AtRoundMembers | src/components/InteractiveRankChart.tsx:110-113 | The last-round filter keeps exactly the records of that round. |
| Selection.FinalRanks | src/components/InteractiveRankChart.tsx:110-114 | `finalRanks` is a permutation of the last round's records, in non-decreasing rank order. |
| Selection.SelectTop5 | src/components/InteractiveRankChart.tsx:109-118 | `selectTop5` selects at most five players, all from the last round, with mode `top5`. With no data it selects nobody. |
| Selection.FinalBlockIsAtRound | src/components/InteractiveRankChart.tsx:109-114 | With ascending ids, the records at the largest spieltag are exactly the standings of the last round that emitted any, ranked 1, 2, ... in order. |
| Selection.Top5IsFinalTopRanks | src/components/InteractiveRankChart.tsx:109-118 | On the loaded series, `selectTop5` selects exactly the players ranked 1..5 at the largest emitted spieltag. |
| Selection.UpToRankIsPrefix | src/components/InteractiveRankChart.tsx:114-116 | For records ranked 1, 2, ... in order, those ranked k or better are the first k. |
| ChartAxes.PlayersSpec | src/components/SimpleRankChart.tsx:76 | `players` lists every name that has a record, once, in order of first appearance. |
| ChartAxes.SeriesNames | src/components/InteractiveRankChart.tsx:65 | The loaded records name exactly the players seen in the rounds that counted. |
| ChartAxes.SpieltageSpec | src/components/SimpleRankChart.tsx:77 | `spieltage` lists every round that has a record, once, in strictly ascending order. |
| ChartAxes.SeriesRanks | src/components/SimpleRankChart.tsx:42-52 | Every loaded record's rank lies in 1..k for the k players seen. Once anything is loaded, every rank 1..k occurs. |
| ChartAxes.MaxRankIsPlayerCount | src/components/SimpleRankChart.tsx:86 | For non-empty data, `maxRank` is the number of players seen, which is also the number of players with a line. |
| ChartAxes.UpToSpec | src/components/SimpleRankChart.tsx:109 | `Array.from({length: n}, (_, i) => i + 1)` lists exactly 1..n in strictly ascending order. |
| ChartAxes.YLabelsArePrefix | src/components/SimpleRankChart.tsx:183 | The rank labels are the first `min(maxRank, 8)` rank lines, never more than eight, labelled 1..min(maxRank, 8). |
| ChartAxes.RankLinesAreRanks | src/components/SimpleRankChart.tsx:109 | On the loaded series, the rank lines are exactly the ranks that occur, and every label is such a rank. |
| ChartAxes.SeriesLegend | src/components/SimpleRankChart.tsx:200 | The legend lists `min(8, k)` distinct players, all of them players seen. |
| ChartAxes.LegendLabelSpec | src/components/SimpleRankChart.tsx:218 | A name of at most 12 characters is shown unchanged. A longer one becomes its first 12 characters followed by `...`, and no label is longer than 15. |
| ChartAxes.LegendLabelIdempotent | src/components/SimpleRankChart.tsx:218 | Shortening an already shortened label changes nothing. |
| ChartAxes.PlayerPathSpec | src/components/SimpleRankChart.tsx:126 | A player's path holds exactly that player's records, earliest round first. |
| ChartAxes.SeriesInRoundOrder | src/components/SimpleRankChart.tsx:28-52 | With ascending ids, the loaded records come in non-decreasing round order. |
| ChartAxes.PlayerPathOfSeries | src/components/SimpleRankChart.tsx:126 | On the loaded series, the path's sort leaves the filtered records as they are. |
| Scenarios.LeadChange | src/components/InteractiveRankChart.tsx:38-62 | Two rounds (A 10 and B 7, then A 0 and B 10) give A=1, B=2 after round 1 and B=1 (17), A=2 (10) after round 2. |
| Scenarios.TieKeepsInsertionOrder | src/components/InteractiveRankChart.tsx:52-53 | Two players tied at 5 after one round are ranked in the order the round lists them, whichever that is. |
| Scenarios.SkippedRoundsAddNothing | src/components/InteractiveRankChart.tsx:40-43 | A failed fetch and a `not_started` round listing 100 points leave both the records and the totals as they were after round 1. |
| Scenarios.LateJoinerSeries | src/components/SimpleRankChart.tsx:36-52 | A player who first scores in round 2 has no record for round 1 in the Map-based charts. |
| Scenarios.LateJoinerEvolution | src/components/RankEvolution.tsx:28-43 | In the same season the all-names chart ranks that player second at 0 in round 1. |
| Schedule.RoundIdsAscending | src/components/SimpleRankChart.tsx:20 | The sorted metadata ids hold exactly the ids. When the ids are distinct, the rounds walked in that order have strictly ascending ids. |
| Schedule.PadStartSpec | src/components/SimpleRankChart.tsx:29 | `padStart` keeps the string at the end, fills only the front with the pad character, and reaches the target width unless the string is longer already. |
| Schedule.DecimalShape | src/components/SimpleRankChart.tsx:29 | For an integer id below 2^53, `String(n)` is a non-empty digit string with no leading zero, one character long exactly for 0..9. |
| Schedule.DecimalRoundTrip | src/components/SimpleRankChart.tsx:29 | For an integer id below 2^53, `Number(String(n)) == n`. |
| Schedule.LeadingZeros | src/components/SimpleRankChart.tsx:29 | Leading zeros do not change the number a digit string reads as. |
| Schedule.RoundFileSpec | src/components/SimpleRankChart.tsx:29 | The file name is at least two digits: the decimal id, with one leading zero for ids below 10. It reads back as the id. |
| Schedule.RoundFileInjective | src/components/InteractiveRankChart.tsx:39 | Different rounds are fetched from different files. |

## Left out

- Fetching, `await`, `Promise.all`, JSON parsing, cache-busting query strings
  and `Date.now` are I/O. A round is an input value: its metadata id plus
  either "not ok" or the parsed document.
- A round document that fails to parse throws out of the loading loop. The
  catch handler then leaves the chart without data. The model's rounds are
  already parsed.
- In `RankEvolution` (`src/components/RankEvolution.tsx:16-28`) a round fetch
  that rejects, for example on a network error, is not turned into a dropped
  round. It rejects the whole `Promise.all`, and nothing is loaded at all.
  Only a response that is not ok, or a `not_started` document, drops a single
  round. The model's `NotOk` covers only that case. In the Map-based charts
  a rejected fetch likewise throws out of the loop into the catch handler
  (`src/components/InteractiveRankChart.tsx:73-76`), before any data is
  set.
- React state, hooks, `useMemo`, JSX, SVG and the Chart.js wiring are left
  out. So are colours and the chart coordinate arithmetic, which is
  floating-point division and divides by zero for a single round or a single
  rank.
- `selectRandom` and the initial random five players use `Math.random`, so
  they are not deterministic and are left out.
- `wurstliga_pts` is an integer. NaN from a missing field, and fractional
  points, are not modelled.
- `Object.keys(meta.spieltage).map(Number)`: the keys are taken as already
  converted to non-negative numbers. A non-numeric key (NaN) is not
  modelled. Two keys that convert to the same number, such as "1" and "01",
  would make the loop walk that round twice; `Schedule.RoundIdsAscending`
  and the results that assume `AscendingIds` require distinct ids for this
  reason.
- ChartAxes.MaxRank: defined for non-empty data only. The charts return
  before computing it when there is no data, so `Math.max()` of nothing
  (`-Infinity`) never arises.
- ChartAxes.LegendLabel counts characters, while JavaScript's `length` and
  `substring` count UTF-16 code units. The two differ only for names with
  characters outside the Basic Multilingual Plane.
- Schedule.RoundFile: ids are non-negative. `String` of a negative or
  fractional number is not modelled.
- Schedule.Decimal: ids are taken as exact integers below 2^53, and so below
  1e21. JavaScript ids are double-precision Numbers. From 1e21 up, `String`
  prints them in exponent form (`"1e+21"`). Above 2^53 a Number no longer
  holds every integer, so `Number(String(n))` need not be the id the metadata
  listed. Neither range is modelled: `Decimal` and its lemmas speak of
  unbounded `nat`s.
- Schedule.ParseDecimal models `Number` only on strings of decimal digits.
- `InteractiveRankChart`'s round list, `maxRank`, rank lines and path filter
  (lines 132-133, 255 and 273) are the same as `SimpleRankChart`'s, so the
  same members model them. Its path filter runs on `filteredData` instead of
  `data`; `PlayerPath` takes either. Its y-axis labels (line 341) are not
  capped at eight: they are `RankLines(maxRank)`, described by
  `ChartAxes.RankLinesAreRanks`, not `ChartAxes.YLabels`.
- The selection is a `set<string>`. The JavaScript `Set` also has an
  insertion order, and `Array.from(selectedPlayers)`
  (`src/components/InteractiveRankChart.tsx:272`) draws the lines in that
  order. The order affects only which line is drawn on top, so the model
  does not keep it.
- `StandingsTable`, `Badge`, `src/lib/data.ts` and the build configuration
  are fetch-and-render code, a colour map, thin fetch wrappers and
  configuration. They hold no logic beyond `index + 1`.
