/** The player selection of `InteractiveRankChart`: which players' lines are
    drawn (`selectedPlayers`), the button that last set the selection
    (`selectionMode`), and the records that are drawn (`filteredData`). */
module Selection {
  import opened Seqs
  import opened StableSort
  import opened Rounds
  import opened Totals
  import opened Ranking
  import opened RankSeries

  /** `selectionMode`. */
  datatype Mode = Random | Top5 | All | None

  /** The selection state of the chart. */
  datatype View = View(selected: set<string>, mode: Mode)

  /** How many players `selectTop5` picks. */
  const TopCount: nat := 5

  /** `togglePlayer(p)`: `p` changes membership, nobody else does, and the
      mode is reset to `none`. */
  function TogglePlayer(v: View, p: string): (r: View)
    ensures p in r.selected <==> p !in v.selected
    ensures forall q :: q != p ==> (q in r.selected <==> q in v.selected)
    ensures r.mode == None
  {
    View(if p in v.selected then v.selected - {p} else v.selected + {p}, None)
  }

  /** Toggling the same player twice restores the selection. */
  lemma ToggleTwice(v: View, p: string)
    ensures TogglePlayer(TogglePlayer(v, p), p).selected == v.selected
  {
    var once := TogglePlayer(v, p);
    var twice := TogglePlayer(once, p);
    assert forall q :: q in twice.selected <==> q in v.selected;
  }

  /** `selectAll`: every listed player, mode `all`. */
  function SelectAll(allPlayers: seq<string>): (r: View)
    ensures forall q :: q in r.selected <==> q in allPlayers
    ensures r.mode == All
  {
    View(set i | 0 <= i < |allPlayers| :: allPlayers[i], All)
  }

  /** `selectNone`: nobody, mode `none`. */
  function SelectNone(): (r: View)
    ensures forall q :: q !in r.selected
    ensures r.mode == None
  {
    View({}, None)
  }

  /** `data.filter(d => selectedPlayers.has(d.name))`. */
  function FilteredData(data: seq<PlayerRank>, sel: set<string>): seq<PlayerRank> {
    if |data| == 0 then [] else FilteredData(data[..|data| - 1], sel) + KeepIfSelected(data[|data| - 1], sel)
  }

  /** One record of `FilteredData`: kept when its player is selected. */
  function KeepIfSelected(d: PlayerRank, sel: set<string>): seq<PlayerRank> {
    if d.name in sel then [d] else []
  }

  /** The filter keeps exactly the records of selected players, and never
      lengthens the data. */
  lemma {:induction false} FilteredDataMembers(data: seq<PlayerRank>, sel: set<string>)
    ensures |FilteredData(data, sel)| <= |data|
    ensures forall x :: x in FilteredData(data, sel) <==> x in data && x.name in sel
    decreases |data|
  {
    if |data| != 0 {
      FilteredDataMembers(data[..|data| - 1], sel);
      assert data == data[..|data| - 1] + [data[|data| - 1]];
    }
  }

  /** Filtering keeps the original order: it distributes over concatenation. */
  lemma {:induction false} FilteredDataAppend(a: seq<PlayerRank>, b: seq<PlayerRank>, sel: set<string>)
    ensures FilteredData(a + b, sel) == FilteredData(a, sel) + FilteredData(b, sel)
    decreases |b|
  {
    if |b| == 0 {
      assert a + b == a;
    } else {
      var b' := b[..|b| - 1];
      assert (a + b)[..|a + b| - 1] == a + b';
      assert (a + b)[|a + b| - 1] == b[|b| - 1];
      FilteredDataAppend(a, b', sel);
    }
  }

  /** When every record's player is selected, nothing is filtered out. */
  lemma {:induction false} FilteredDataKeepsAll(data: seq<PlayerRank>, sel: set<string>)
    requires forall i :: 0 <= i < |data| ==> data[i].name in sel
    ensures FilteredData(data, sel) == data
    decreases |data|
  {
    if |data| != 0 {
      FilteredDataKeepsAll(data[..|data| - 1], sel);
      assert data[..|data| - 1] + [data[|data| - 1]] == data;
    }
  }

  /** Filtering twice is filtering once by both selections. */
  lemma {:induction false} FilteredDataTwice(data: seq<PlayerRank>, s1: set<string>, s2: set<string>)
    ensures FilteredData(FilteredData(data, s1), s2) == FilteredData(data, s1 * s2)
    decreases |data|
  {
    if |data| != 0 {
      var prefix, d := data[..|data| - 1], data[|data| - 1];
      FilteredDataTwice(prefix, s1, s2);
      FilteredDataAppend(FilteredData(prefix, s1), KeepIfSelected(d, s1), s2);
      assert FilteredData([d], s2) == FilteredData([], s2) + KeepIfSelected(d, s2);
    }
  }

  /** After `selectAll` over the chart's player list, every record is drawn. */
  lemma SelectAllShowsEverything(data: seq<PlayerRank>)
    ensures FilteredData(data, SelectAll(Distinct(RankedNames(data))).selected) == data
  {
    var sel := SelectAll(Distinct(RankedNames(data))).selected;
    forall i | 0 <= i < |data|
      ensures data[i].name in sel
    {
      assert RankedNames(data)[i] == data[i].name;
    }
    FilteredDataKeepsAll(data, sel);
  }

  /** After `selectNone`, no record is drawn. */
  lemma SelectNoneShowsNothing(data: seq<PlayerRank>)
    ensures FilteredData(data, SelectNone().selected) == []
  {
    FilteredDataMembers(data, SelectNone().selected);
  }

  /** After `togglePlayer(p)`, the records of every other player are drawn
      exactly as before. */
  lemma ToggleKeepsOthers(data: seq<PlayerRank>, v: View, p: string, q: string)
    requires q != p
    ensures PointsNamed(FilteredData(data, TogglePlayer(v, p).selected), q)
         == PointsNamed(FilteredData(data, v.selected), q)
  {
    var after := TogglePlayer(v, p).selected;
    FilteredDataTwice(data, after, {q});
    FilteredDataTwice(data, v.selected, {q});
    assert after * {q} == v.selected * {q};
    NamedIsFiltered(FilteredData(data, after), q);
    NamedIsFiltered(FilteredData(data, v.selected), q);
  }

  /** The records of one player are the records filtered by `{name}`. */
  lemma {:induction false} NamedIsFiltered(data: seq<PlayerRank>, n: string)
    ensures PointsNamed(data, n) == FilteredData(data, {n})
    decreases |data|
  {
    if |data| != 0 {
      NamedIsFiltered(data[..|data| - 1], n);
    }
  }

  /** `Math.max(...data.map(x => x.spieltag))`, for non-empty data. */
  function MaxSpieltag(data: seq<PlayerRank>): (m: int)
    requires |data| > 0
    ensures forall i :: 0 <= i < |data| ==> data[i].spieltag <= m
    ensures exists i :: 0 <= i < |data| && data[i].spieltag == m
  {
    Max(SpieltagOf(data))
  }

  /** `data.filter(d => d.spieltag === m)`. */
  function AtRound(data: seq<PlayerRank>, m: int): seq<PlayerRank> {
    if |data| == 0 then [] else AtRound(data[..|data| - 1], m) + KeepIfAt(data[|data| - 1], m)
  }

  /** One record of `AtRound`: kept when it belongs to round `m`. */
  function KeepIfAt(d: PlayerRank, m: int): seq<PlayerRank> {
    if d.spieltag == m then [d] else []
  }

  /** The filter keeps exactly the records of round `m`. */
  lemma {:induction false} AtRoundMembers(data: seq<PlayerRank>, m: int)
    ensures forall x :: x in AtRound(data, m) <==> x in data && x.spieltag == m
    decreases |data|
  {
    if |data| != 0 {
      AtRoundMembers(data[..|data| - 1], m);
      assert data == data[..|data| - 1] + [data[|data| - 1]];
    }
  }

  /** Filtering by round distributes over concatenation. */
  lemma {:induction false} AtRoundAppend(a: seq<PlayerRank>, b: seq<PlayerRank>, m: int)
    ensures AtRound(a + b, m) == AtRound(a, m) + AtRound(b, m)
    decreases |b|
  {
    if |b| == 0 {
      assert a + b == a;
    } else {
      var b' := b[..|b| - 1];
      assert (a + b)[..|a + b| - 1] == a + b';
      assert (a + b)[|a + b| - 1] == b[|b| - 1];
      AtRoundAppend(a, b', m);
    }
  }

  /** A block whose records all belong to round `m` passes the filter whole. */
  lemma {:induction false} AtRoundKeepsAll(data: seq<PlayerRank>, m: int)
    requires forall i :: 0 <= i < |data| ==> data[i].spieltag == m
    ensures AtRound(data, m) == data
    decreases |data|
  {
    if |data| != 0 {
      AtRoundKeepsAll(data[..|data| - 1], m);
      assert data[..|data| - 1] + [data[|data| - 1]] == data;
    }
  }

  /** The sort key of `(a, b) => a.rank - b.rank` (smallest rank first). */
  function ByRank(d: PlayerRank): int {
    -d.rank
  }

  /** `new Set(b.map(d => d.name))`, as a set. */
  function NameSet(b: seq<PlayerRank>): (s: set<string>)
    ensures |s| <= |b|
    ensures forall n :: n in s <==> n in RankedNames(b)
  {
    if |b| == 0 then {}
    else
      var prefix := b[..|b| - 1];
      assert RankedNames(b) == RankedNames(prefix) + [b[|b| - 1].name];
      NameSet(prefix) + {b[|b| - 1].name}
  }

  /** `b.filter(d => d.rank <= k)`: the records ranked `k` or better. */
  function UpToRank(b: seq<PlayerRank>, k: int): seq<PlayerRank> {
    if |b| == 0 then [] else UpToRank(b[..|b| - 1], k) + KeepIfUpTo(b[|b| - 1], k)
  }

  /** One record of `UpToRank`: kept when ranked `k` or better. */
  function KeepIfUpTo(d: PlayerRank, k: int): seq<PlayerRank> {
    if d.rank <= k then [d] else []
  }

  /** `UpToRank` keeps exactly the records ranked `k` or better. */
  lemma {:induction false} UpToRankMembers(b: seq<PlayerRank>, k: int)
    ensures forall x :: x in UpToRank(b, k) <==> x in b && x.rank <= k
    decreases |b|
  {
    if |b| != 0 {
      UpToRankMembers(b[..|b| - 1], k);
      assert b == b[..|b| - 1] + [b[|b| - 1]];
    }
  }

  /** `selectTop5`: the names of the first five records of the last round by
      ascending rank, mode `top5`. With no data, `Math.max()` is `-Infinity`,
      no record matches it, and nobody is selected. */
  function SelectTop5(data: seq<PlayerRank>): (r: View)
    ensures r.mode == Top5
    ensures |r.selected| <= TopCount
    ensures |data| == 0 ==> r.selected == {}
    ensures |data| > 0 ==> r.selected <= NameSet(AtRound(data, MaxSpieltag(data)))
  {
    if |data| == 0 then View({}, Top5)
    else
      var finalRanks := FinalRanks(data);
      NameSetPrefix(finalRanks, Min(TopCount, |finalRanks|));
      NameSetPermutation(finalRanks, AtRound(data, MaxSpieltag(data)));
      View(NameSet(Take(finalRanks, TopCount)), Top5)
  }

  /** `finalRanks`: the records of the last round, by ascending rank. */
  function FinalRanks(data: seq<PlayerRank>): (r: seq<PlayerRank>)
    requires |data| > 0
    ensures multiset(r) == multiset(AtRound(data, MaxSpieltag(data)))
    ensures forall i, j :: 0 <= i < j < |r| ==> r[i].rank <= r[j].rank
  {
    var atMax := AtRound(data, MaxSpieltag(data));
    SortSortsPermutation(atMax, ByRank);
    var r := Sort(atMax, ByRank);
    assert forall i, j :: 0 <= i < j < |r| ==> ByRank(r[i]) >= ByRank(r[j]);
    r
  }

  /** `b.slice(0, k)`. */
  function Take(b: seq<PlayerRank>, k: nat): seq<PlayerRank> {
    b[..Min(k, |b|)]
  }

  /** A prefix names no one the whole sequence does not. */
  lemma NameSetPrefix(b: seq<PlayerRank>, k: int)
    requires 0 <= k <= |b|
    ensures NameSet(b[..k]) <= NameSet(b)
  {
    forall n | n in NameSet(b[..k])
      ensures n in NameSet(b)
    {
      var i :| 0 <= i < k && RankedNames(b[..k])[i] == n;
      assert RankedNames(b)[i] == n;
    }
  }

  /** Reordering records does not change whom they name. */
  lemma NameSetPermutation(a: seq<PlayerRank>, b: seq<PlayerRank>)
    requires multiset(a) == multiset(b)
    ensures NameSet(a) == NameSet(b)
  {
    forall n | n in NameSet(a)
      ensures n in NameSet(b)
    {
      var i :| 0 <= i < |a| && RankedNames(a)[i] == n;
      assert a[i] in multiset(b);
      var j :| 0 <= j < |b| && b[j] == a[i];
      assert RankedNames(b)[j] == n;
    }
    forall n | n in NameSet(b)
      ensures n in NameSet(a)
    {
      var i :| 0 <= i < |b| && RankedNames(b)[i] == n;
      assert b[i] in multiset(a);
      var j :| 0 <= j < |a| && a[j] == b[i];
      assert RankedNames(a)[j] == n;
    }
  }

  /** The standings of the last round that emitted any records. */
  function FinalBlock(rounds: seq<Round>): seq<PlayerRank> {
    if |rounds| == 0 then []
    else
      var r := rounds[|rounds| - 1];
      if Counts(r.response) && |TotalsAfter(rounds).keys| > 0 then Standings(r.id, TotalsAfter(rounds))
      else FinalBlock(rounds[..|rounds| - 1])
  }

  /** Records of earlier rounds, then a non-empty block of round `m`: the
      largest spieltag is `m`. */
  lemma MaxOfAppend(a: seq<PlayerRank>, b: seq<PlayerRank>, m: int)
    requires forall i :: 0 <= i < |a| ==> a[i].spieltag < m
    requires forall i :: 0 <= i < |b| ==> b[i].spieltag == m
    requires |b| > 0
    ensures MaxSpieltag(a + b) == m
  {
    var d := a + b;
    assert d[|a|] == b[0];
    var i :| 0 <= i < |d| && d[i].spieltag == MaxSpieltag(d);
    if i < |a| {
      assert d[i] == a[i];
    } else {
      assert d[i] == b[i - |a|];
    }
  }

  /** No record of round `m`: the filter is empty. */
  lemma {:induction false} AtRoundNone(data: seq<PlayerRank>, m: int)
    requires forall i :: 0 <= i < |data| ==> data[i].spieltag != m
    ensures AtRound(data, m) == []
    decreases |data|
  {
    if |data| != 0 {
      AtRoundNone(data[..|data| - 1], m);
    }
  }

  /** Records of earlier rounds followed by a non-empty block of round `m`:
      the block is what the last-round filter keeps. */
  lemma LastBlockAtMax(earlier: seq<PlayerRank>, block: seq<PlayerRank>, m: int)
    requires forall i :: 0 <= i < |earlier| ==> earlier[i].spieltag < m
    requires forall i :: 0 <= i < |block| ==> block[i].spieltag == m
    requires |block| > 0
    ensures AtRound(earlier + block, MaxSpieltag(earlier + block)) == block
  {
    MaxOfAppend(earlier, block, m);
    AtRoundAppend(earlier, block, m);
    AtRoundKeepsAll(block, m);
    AtRoundNone(earlier, m);
  }

  /** When the last round counts and ranks anyone, its standings are the
      records at the largest spieltag. */
  lemma FinalBlockLastRound(rounds: seq<Round>)
    requires AscendingIds(rounds)
    requires |rounds| > 0
    requires Counts(rounds[|rounds| - 1].response) && |TotalsAfter(rounds).keys| > 0
    ensures |Series(rounds)| > 0
    ensures AtRound(Series(rounds), MaxSpieltag(Series(rounds))) == FinalBlock(rounds)
    ensures RankedInOrder(FinalBlock(rounds))
  {
    var prefix, r := rounds[..|rounds| - 1], rounds[|rounds| - 1];
    var block := Standings(r.id, TotalsAfter(rounds));
    var earlier := Series(prefix);
    assert Series(rounds) == earlier + block;
    assert FinalBlock(rounds) == block;
    StandingsShape(r.id, TotalsAfter(rounds));
    SeriesIdsBelow(prefix, r.id);
    LastBlockAtMax(earlier, block, r.id);
  }

  /** With ascending round ids, the records at the largest emitted spieltag
      are exactly the standings of the last round that emitted any, ranked
      1, 2, ... in order. */
  lemma {:induction false} FinalBlockIsAtRound(rounds: seq<Round>)
    requires AscendingIds(rounds)
    requires |Series(rounds)| > 0
    ensures AtRound(Series(rounds), MaxSpieltag(Series(rounds))) == FinalBlock(rounds)
    ensures RankedInOrder(FinalBlock(rounds))
    decreases |rounds|
  {
    var prefix, r := rounds[..|rounds| - 1], rounds[|rounds| - 1];
    if Counts(r.response) && |TotalsAfter(rounds).keys| > 0 {
      FinalBlockLastRound(rounds);
    } else {
      assert Series(rounds) == Series(prefix) by {
        if Counts(r.response) {
          assert Standings(r.id, TotalsAfter(rounds)) == [];
        }
      }
      assert FinalBlock(rounds) == FinalBlock(prefix);
      FinalBlockIsAtRound(prefix);
    }
  }

  /** Records ranked 1, 2, ... in order: those ranked `k` or better are the
      first `k`. */
  lemma {:induction false} UpToRankIsPrefix(b: seq<PlayerRank>, k: nat)
    requires RankedInOrder(b)
    ensures UpToRank(b, k) == Take(b, k)
    decreases |b|
  {
    if |b| != 0 {
      var prefix := b[..|b| - 1];
      assert RankedInOrder(prefix) by {
        forall i | 0 <= i < |prefix| ensures prefix[i].rank == i + 1 {
          assert prefix[i] == b[i];
        }
      }
      UpToRankIsPrefix(prefix, k);
      UpToRankStep(b, k);
    }
  }

  /** One step of `UpToRankIsPrefix`: the last record, ranked `|b|`, is kept
      exactly when `|b| <= k`. */
  lemma {:induction false} UpToRankStep(b: seq<PlayerRank>, k: nat)
    requires |b| > 0 && b[|b| - 1].rank == |b|
    requires UpToRank(b[..|b| - 1], k) == b[..|b| - 1][..Min(k, |b| - 1)]
    ensures UpToRank(b, k) == b[..Min(k, |b|)]
  {
    var prefix, last := b[..|b| - 1], b[|b| - 1];
    assert UpToRank(b, k) == UpToRank(prefix, k) + KeepIfUpTo(last, k);
    if |b| <= k {
      assert prefix[..Min(k, |prefix|)] == prefix;
      FrontSnoc(b);
    } else {
      assert prefix[..Min(k, |prefix|)] == b[..k];
    }
  }

  /** When the last round's records are ranked 1, 2, ... in order, sorting
      them by rank changes nothing and `selectTop5` names those ranked 1..5. */
  lemma Top5OfRankedRound(data: seq<PlayerRank>)
    requires |data| > 0
    requires RankedInOrder(AtRound(data, MaxSpieltag(data)))
    ensures SelectTop5(data).selected == NameSet(UpToRank(AtRound(data, MaxSpieltag(data)), TopCount))
  {
    var atMax := AtRound(data, MaxSpieltag(data));
    assert FinalRanks(data) == atMax by {
      assert SortedDesc(atMax, ByRank);
      SortSorted(atMax, ByRank);
    }
    var up := UpToRank(atMax, TopCount);
    assert up == Take(atMax, TopCount) by {
      UpToRankIsPrefix(atMax, TopCount);
    }
    assert Take(FinalRanks(data), TopCount) == up;
    SelectedTop(data);
  }

  /** What `selectTop5` selects from non-empty data. */
  lemma SelectedTop(data: seq<PlayerRank>)
    requires |data| > 0
    ensures SelectTop5(data) == View(NameSet(Take(FinalRanks(data), TopCount)), Top5)
  {
  }

  /** With ascending round ids (as the charts walk them), `selectTop5` on
      the loaded series selects exactly the players ranked 1..5 at the largest
      emitted spieltag. */
  lemma Top5IsFinalTopRanks(rounds: seq<Round>)
    requires AscendingIds(rounds)
    requires |Series(rounds)| > 0
    ensures var data := Series(rounds);
      SelectTop5(data).selected == NameSet(UpToRank(AtRound(data, MaxSpieltag(data)), TopCount))
  {
    FinalBlockIsAtRound(rounds);
    Top5OfRankedRound(Series(rounds));
  }
}
