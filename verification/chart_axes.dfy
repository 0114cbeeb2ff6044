/** What `SimpleRankChart` derives from the loaded records before drawing
    (and `InteractiveRankChart` its player list): the players that get a
    line, the rounds on the x axis, the largest rank, how many rank lines
    and rank labels are drawn, which players the legend lists and how it
    shortens their names, and each player's points in drawing order. */
module ChartAxes {
  import opened Seqs
  import opened StableSort
  import opened Rounds
  import opened Totals
  import opened Ranking
  import opened RankSeries

  /** At most this many rank labels on the y axis, and players in the
      legend. */
  const MaxLabels: nat := 8

  /** The longest legend name shown in full. */
  const NameWidth: nat := 12

  /** What replaces the rest of a longer name. */
  const Ellipsis: string := "..."

  /** `Array.from(new Set(data.map(d => d.name)))`. */
  function Players(data: seq<PlayerRank>): seq<string> {
    Distinct(RankedNames(data))
  }

  /** The players are the names of the records, each once, in order of
      first appearance. */
  lemma PlayersSpec(data: seq<PlayerRank>)
    ensures NoDups(Players(data))
    ensures forall n :: n in Players(data) <==> exists i :: 0 <= i < |data| && data[i].name == n
    ensures FirstAppearanceOrder(Players(data), RankedNames(data))
  {
    DistinctFirstAppearance(RankedNames(data));
    forall n
      ensures n in RankedNames(data) <==> exists i :: 0 <= i < |data| && data[i].name == n
    {
      if n in RankedNames(data) {
        var i :| 0 <= i < |data| && RankedNames(data)[i] == n;
        assert data[i].name == n;
      }
    }
  }

  /** `Array.from(new Set(data.map(d => d.spieltag))).sort((a, b) => a - b)`. */
  function Spieltage(data: seq<PlayerRank>): seq<int> {
    SortNumbers(Distinct(SpieltagOf(data)))
  }

  /** The x axis lists every round that has a record, once, in strictly
      ascending order. */
  lemma SpieltageSpec(data: seq<PlayerRank>)
    ensures forall x :: x in Spieltage(data) <==> exists i :: 0 <= i < |data| && data[i].spieltag == x
    ensures forall i, j :: 0 <= i < j < |Spieltage(data)| ==> Spieltage(data)[i] < Spieltage(data)[j]
  {
    var ds := Distinct(SpieltagOf(data));
    SortNumbersStrict(ds);
    forall x
      ensures x in Spieltage(data) <==> exists i :: 0 <= i < |data| && data[i].spieltag == x
    {
      assert x in Spieltage(data) <==> x in multiset(ds);
      if x in SpieltagOf(data) {
        var i :| 0 <= i < |data| && SpieltagOf(data)[i] == x;
        assert data[i].spieltag == x;
      }
    }
  }

  /** `Math.max(...data.map(d => d.rank))`; the chart only gets here with at
      least one record. */
  function MaxRank(data: seq<PlayerRank>): int
    requires |data| > 0
  {
    Max(Ranks(data))
  }

  /** `Array.from({length: n}, (_, i) => i + 1)`; a negative length makes an
      empty array. */
  function UpTo(n: int): seq<int> {
    seq(if n < 0 then 0 else n, i => i + 1)
  }

  /** `UpTo(n)` lists 1..n, each once, in order. */
  lemma UpToSpec(n: int)
    ensures forall k :: k in UpTo(n) <==> 1 <= k <= n
    ensures forall i, j :: 0 <= i < j < |UpTo(n)| ==> UpTo(n)[i] < UpTo(n)[j]
  {
    forall k | 1 <= k <= n
      ensures k in UpTo(n)
    {
      assert UpTo(n)[k - 1] == k;
    }
  }

  /** The horizontal rank lines: one per rank 1..maxRank. */
  function RankLines(maxRank: int): seq<int> {
    UpTo(maxRank)
  }

  /** The rank labels: `Math.min(maxRank, 8)` of them, from 1. */
  function YLabels(maxRank: int): seq<int> {
    UpTo(Min(maxRank, MaxLabels))
  }

  /** The labels are the first (at most eight) rank lines. */
  lemma YLabelsArePrefix(maxRank: int)
    ensures |YLabels(maxRank)| <= MaxLabels
    ensures |YLabels(maxRank)| <= |RankLines(maxRank)|
    ensures YLabels(maxRank) == RankLines(maxRank)[..|YLabels(maxRank)|]
    ensures forall k :: k in YLabels(maxRank) <==> 1 <= k <= maxRank && k <= MaxLabels
  {
    UpToSpec(Min(maxRank, MaxLabels));
  }

  /** `players.slice(0, 8)`. */
  function Legend(players: seq<string>): seq<string> {
    players[..Min(MaxLabels, |players|)]
  }

  /** `player.length > 12 ? player.substring(0, 12) + '...' : player`. */
  function LegendLabel(name: string): string {
    if |name| > NameWidth then name[..NameWidth] + Ellipsis else name
  }

  /** A name of at most 12 characters is shown as it is; a longer one as its
      first 12 characters and an ellipsis, so no label is longer than 15. */
  lemma LegendLabelSpec(name: string)
    ensures |LegendLabel(name)| <= NameWidth + |Ellipsis|
    ensures |name| <= NameWidth ==> LegendLabel(name) == name
    ensures |name| > NameWidth ==>
      && |LegendLabel(name)| == NameWidth + |Ellipsis|
      && LegendLabel(name)[..NameWidth] == name[..NameWidth]
      && LegendLabel(name)[NameWidth..] == Ellipsis
  {
  }

  /** Shortening a label again changes nothing. */
  lemma LegendLabelIdempotent(name: string)
    ensures LegendLabel(LegendLabel(name)) == LegendLabel(name)
  {
    if |name| > NameWidth {
      var l := LegendLabel(name);
      assert l[..NameWidth] == name[..NameWidth];
      assert l[..NameWidth] + Ellipsis == l;
    }
  }

  /** The records of the loaded series name exactly the players seen in the
      rounds that counted. */
  lemma {:induction false} SeriesNames(rounds: seq<Round>)
    ensures forall n :: n in RankedNames(Series(rounds)) <==> n in SeenNames(rounds)
    decreases |rounds|
  {
    if |rounds| != 0 {
      var prefix, r := rounds[..|rounds| - 1], rounds[|rounds| - 1];
      assert prefix + [r] == rounds;
      SeriesNames(prefix);
      if Counts(r.response) {
        var t := TotalsAfter(rounds);
        var block := Standings(r.id, t);
        CountedRound(prefix, r);
        SeenNamesGrow(prefix, [r]);
        assert RankedNames(Series(rounds)) == RankedNames(Series(prefix)) + RankedNames(block);
        forall n | n in RankedNames(block)
          ensures n in t.keys
        {
          var i :| 0 <= i < |block| && RankedNames(block)[i] == n;
          assert block[i].name in t.keys;
        }
      } else {
        SkippedRound(prefix, r);
        assert KeptDocs(rounds) == KeptDocs(prefix);
      }
    }
  }

  /** Every record of the loaded series has a rank between 1 and the number
      of players seen, and once anything is loaded every such rank occurs. */
  lemma {:induction false} SeriesRanks(rounds: seq<Round>)
    ensures forall i :: 0 <= i < |Series(rounds)| ==> 1 <= Series(rounds)[i].rank <= |SeenNames(rounds)|
    ensures forall k :: 1 <= k <= |SeenNames(rounds)| && |Series(rounds)| > 0 ==> k in Ranks(Series(rounds))
    decreases |rounds|
  {
    if |rounds| != 0 {
      var prefix, r := rounds[..|rounds| - 1], rounds[|rounds| - 1];
      assert prefix + [r] == rounds;
      SeriesRanks(prefix);
      if Counts(r.response) {
        var t := TotalsAfter(rounds);
        var block := Standings(r.id, t);
        CountedRound(prefix, r);
        SeenNamesGrow(prefix, [r]);
        RankingShape(block, r.id, t);
        SeriesRanksStep(Series(prefix), block, |SeenNames(prefix)|, |SeenNames(rounds)|);
      } else {
        SkippedRound(prefix, r);
        assert KeptDocs(rounds) == KeptDocs(prefix);
      }
    }
  }

  /** Earlier records ranked within 1..k, then a block ranked exactly 1..m
      with k <= m: every record is ranked within 1..m, and every rank of
      1..m occurs. */
  lemma SeriesRanksStep(earlier: seq<PlayerRank>, block: seq<PlayerRank>, k: int, m: int)
    requires k <= m
    requires forall i :: 0 <= i < |earlier| ==> 1 <= earlier[i].rank <= k
    requires forall q :: q in Ranks(block) <==> 1 <= q <= m
    ensures forall i :: 0 <= i < |earlier + block| ==> 1 <= (earlier + block)[i].rank <= m
    ensures forall q :: 1 <= q <= m ==> q in Ranks(earlier + block)
  {
    var d := earlier + block;
    forall i | 0 <= i < |d|
      ensures 1 <= d[i].rank <= m
    {
      if i >= |earlier| {
        assert d[i] == block[i - |earlier|];
        assert Ranks(block)[i - |earlier|] == d[i].rank;
        assert d[i].rank in Ranks(block);
      } else {
        assert d[i] == earlier[i];
      }
    }
    forall q | 1 <= q <= m
      ensures q in Ranks(d)
    {
      assert q in Ranks(block);
      var j :| 0 <= j < |block| && Ranks(block)[j] == q;
      assert Ranks(d)[|earlier| + j] == q;
    }
  }

  /** Once anything is loaded, the largest rank is the number of players
      seen, which is also the number of chart lines. */
  lemma MaxRankIsPlayerCount(rounds: seq<Round>)
    requires |Series(rounds)| > 0
    ensures MaxRank(Series(rounds)) == |SeenNames(rounds)|
    ensures MaxRank(Series(rounds)) == |Players(Series(rounds))|
  {
    var data := Series(rounds);
    var m, k := MaxRank(data), |SeenNames(rounds)|;
    SeriesRanks(rounds);
    var i :| 0 <= i < |data| && Ranks(data)[i] == m;
    assert m <= k;
    assert 1 <= data[0].rank <= k;
    assert k in Ranks(data);
    var j :| 0 <= j < |data| && Ranks(data)[j] == k;
    assert k <= m;
    SeriesNames(rounds);
    PlayersSpec(data);
    forall n
      ensures n in Players(data) <==> n in SeenNames(rounds)
    {
      if n in RankedNames(data) {
        var p :| 0 <= p < |data| && RankedNames(data)[p] == n;
      }
    }
    SameMembersSameLength(Players(data), SeenNames(rounds));
  }

  /** On the loaded series, the rank lines are exactly the ranks that occur,
      and every rank label is one of them. */
  lemma RankLinesAreRanks(rounds: seq<Round>)
    requires |Series(rounds)| > 0
    ensures forall k :: k in RankLines(MaxRank(Series(rounds))) <==> k in Ranks(Series(rounds))
    ensures forall k :: k in YLabels(MaxRank(Series(rounds))) ==> k in Ranks(Series(rounds))
  {
    var data := Series(rounds);
    MaxRankIsPlayerCount(rounds);
    SeriesRanks(rounds);
    UpToSpec(MaxRank(data));
    YLabelsArePrefix(MaxRank(data));
    forall k | k in Ranks(data)
      ensures 1 <= k <= MaxRank(data)
    {
      var i :| 0 <= i < |data| && Ranks(data)[i] == k;
    }
  }

  /** On the loaded series, the legend lists the first eight players (or
      all of them, when there are fewer), each a player seen and each once. */
  lemma SeriesLegend(rounds: seq<Round>)
    ensures |Legend(Players(Series(rounds)))| == Min(MaxLabels, |SeenNames(rounds)|)
    ensures NoDups(Legend(Players(Series(rounds))))
    ensures forall n :: n in Legend(Players(Series(rounds))) ==> n in SeenNames(rounds)
  {
    var data := Series(rounds);
    var players := Players(data);
    var legend := Legend(players);
    PlayersSpec(data);
    SeriesNames(rounds);
    forall n
      ensures n in players <==> n in SeenNames(rounds)
    {
      if n in RankedNames(data) {
        var p :| 0 <= p < |data| && RankedNames(data)[p] == n;
      }
    }
    SameMembersSameLength(players, SeenNames(rounds));
    forall n | n in legend
      ensures n in players
    {
      var i :| 0 <= i < |legend| && legend[i] == n;
      assert players[i] == n;
    }
    forall i, j | 0 <= i < j < |legend|
      ensures legend[i] != legend[j]
    {
      assert legend[i] == players[i] && legend[j] == players[j];
    }
  }

  /** The sort key of `(a, b) => a.spieltag - b.spieltag` (earliest first). */
  function EarlierRound(d: PlayerRank): int {
    -d.spieltag
  }

  /** One player's points in drawing order:
      `data.filter(d => d.name === player).sort((a, b) => a.spieltag - b.spieltag)`. */
  function PlayerPath(data: seq<PlayerRank>, n: string): seq<PlayerRank> {
    Sort(PointsNamed(data, n), EarlierRound)
  }

  /** Records in non-decreasing order of their round. */
  predicate InRoundOrder(b: seq<PlayerRank>) {
    forall i, j :: 0 <= i < j < |b| ==> b[i].spieltag <= b[j].spieltag
  }

  /** A player's path holds exactly that player's records, earliest round
      first. */
  lemma PlayerPathSpec(data: seq<PlayerRank>, n: string)
    ensures forall x :: x in PlayerPath(data, n) <==> x in data && x.name == n
    ensures |PlayerPath(data, n)| == |PointsNamed(data, n)|
    ensures InRoundOrder(PlayerPath(data, n))
  {
    var path := PlayerPath(data, n);
    PointsNamedMembers(data, n);
    SortMembers(PointsNamed(data, n), EarlierRound);
    SortSortsPermutation(PointsNamed(data, n), EarlierRound);
    forall i, j | 0 <= i < j < |path|
      ensures path[i].spieltag <= path[j].spieltag
    {
      assert EarlierRound(path[i]) >= EarlierRound(path[j]);
    }
  }

  /** With ascending round ids, the loaded records come in round order. */
  lemma {:induction false} SeriesInRoundOrder(rounds: seq<Round>)
    requires AscendingIds(rounds)
    ensures InRoundOrder(Series(rounds))
    decreases |rounds|
  {
    if |rounds| != 0 {
      var prefix, r := rounds[..|rounds| - 1], rounds[|rounds| - 1];
      assert AscendingIds(prefix);
      SeriesInRoundOrder(prefix);
      if Counts(r.response) {
        var block := Standings(r.id, TotalsAfter(rounds));
        StandingsShape(r.id, TotalsAfter(rounds));
        SeriesIdsBelow(prefix, r.id);
        AppendInRoundOrder(Series(prefix), block, r.id);
      }
    }
  }

  /** Records in round order, all before round `m`, followed by records of
      round `m`, are in round order. */
  lemma AppendInRoundOrder(earlier: seq<PlayerRank>, block: seq<PlayerRank>, m: int)
    requires InRoundOrder(earlier)
    requires forall i :: 0 <= i < |earlier| ==> earlier[i].spieltag < m
    requires forall i :: 0 <= i < |block| ==> block[i].spieltag == m
    ensures InRoundOrder(earlier + block)
  {
    var d := earlier + block;
    forall i, j | 0 <= i < j < |d|
      ensures d[i].spieltag <= d[j].spieltag
    {
      if j >= |earlier| {
        assert d[j] == block[j - |earlier|];
        if i >= |earlier| {
          assert d[i] == block[i - |earlier|];
        }
      }
    }
  }

  /** Picking one player's records keeps round order. */
  lemma {:induction false} PointsNamedInRoundOrder(data: seq<PlayerRank>, n: string)
    requires InRoundOrder(data)
    ensures InRoundOrder(PointsNamed(data, n))
    decreases |data|
  {
    if |data| != 0 {
      var prefix, last := data[..|data| - 1], data[|data| - 1];
      assert InRoundOrder(prefix) by {
        forall i, j | 0 <= i < j < |prefix|
          ensures prefix[i].spieltag <= prefix[j].spieltag
        {
          assert prefix[i] == data[i] && prefix[j] == data[j];
        }
      }
      PointsNamedInRoundOrder(prefix, n);
      PointsNamedMembers(prefix, n);
      var front := PointsNamed(prefix, n);
      forall i | 0 <= i < |front|
        ensures front[i].spieltag <= last.spieltag
      {
        assert front[i] in prefix;
        var k :| 0 <= k < |prefix| && prefix[k] == front[i];
        assert data[k] == front[i];
      }
      assert PointsNamed(data, n) == front + KeepIfNamed(last, n);
    }
  }

  /** With ascending round ids, a player's records already come in round
      order, so the path's sort leaves them as the filter found them. */
  lemma PlayerPathOfSeries(rounds: seq<Round>, n: string)
    requires AscendingIds(rounds)
    ensures PlayerPath(Series(rounds), n) == PointsNamed(Series(rounds), n)
  {
    var named := PointsNamed(Series(rounds), n);
    SeriesInRoundOrder(rounds);
    PointsNamedInRoundOrder(Series(rounds), n);
    assert SortedDesc(named, EarlierRound) by {
      forall i, j | 0 <= i < j < |named|
        ensures EarlierRound(named[i]) >= EarlierRound(named[j])
      {
        assert named[i].spieltag <= named[j].spieltag;
      }
    }
    SortSorted(named, EarlierRound);
  }
}
