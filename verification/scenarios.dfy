/** Small concrete seasons worked through the model: two rounds with a lead
    change, a tie on the first round, a round that has not started, and a
    player who joins late (where the all-names chart and the Map-based
    charts differ). */
module Scenarios {
  import opened Seqs
  import opened Rounds
  import opened Totals
  import opened Ranking
  import opened RankSeries
  import opened StableSort
  import opened RankEvolution

  /** A played round with the given entries. */
  function Played(id: nat, ps: seq<Entry>): Round {
    Round(id, Ok(Doc("finished", id, ps)))
  }

  /** Round 1: A scores 10, B scores 7. */
  const LeadA: Round := Played(1, [Entry("A", 10), Entry("B", 7)])

  /** Round 2: A scores 0, B scores 10. */
  const LeadB: Round := Played(2, [Entry("A", 0), Entry("B", 10)])

  /** The totals after round 1. */
  const AfterLeadA: Totals := Totals(["A", "B"], map["A" := 10, "B" := 7])

  /** The totals after round 2. */
  const AfterLeadB: Totals := Totals(["A", "B"], map["A" := 10, "B" := 17])

  lemma LeadATotals()
    ensures TotalsAfter([LeadA]) == AfterLeadA
  {
    assert [LeadA][..0] == [];
  }

  lemma LeadBTotals()
    ensures TotalsAfter([LeadA, LeadB]) == AfterLeadB
  {
    assert [LeadA, LeadB][..1] == [LeadA];
    LeadATotals();
  }

  /** After round 1, A (10) is ranked ahead of B (7). */
  lemma LeadABlock()
    ensures Standings(1, AfterLeadA) == [PlayerRank(1, "A", 1, 10), PlayerRank(1, "B", 2, 7)]
  {
    var b := [PlayerRank(1, "A", 1, 10), PlayerRank(1, "B", 2, 7)];
    assert RankedNames(b) == ["A", "B"];
    assert IsStableRanking(b, 1, AfterLeadA);
    StandingsAreStableRanking(1, AfterLeadA);
    RankingIsUnique(Standings(1, AfterLeadA), b, 1, AfterLeadA);
  }

  /** After round 2, B (17) is ranked ahead of A (10). */
  lemma LeadBBlock()
    ensures Standings(2, AfterLeadB) == [PlayerRank(2, "B", 1, 17), PlayerRank(2, "A", 2, 10)]
  {
    var b := [PlayerRank(2, "B", 1, 17), PlayerRank(2, "A", 2, 10)];
    assert RankedNames(b) == ["B", "A"];
    assert IsStableRanking(b, 2, AfterLeadB);
    StandingsAreStableRanking(2, AfterLeadB);
    RankingIsUnique(Standings(2, AfterLeadB), b, 2, AfterLeadB);
  }

  /** Two rounds: A leads 10 to 7 after round 1; after round 2 B leads 17 to
      10 and the ranks swap. */
  lemma LeadChange()
    ensures Series([LeadA, LeadB]) == [
      PlayerRank(1, "A", 1, 10), PlayerRank(1, "B", 2, 7),
      PlayerRank(2, "B", 1, 17), PlayerRank(2, "A", 2, 10)]
  {
    assert [LeadA, LeadB][..1] == [LeadA];
    assert [LeadA][..0] == [];
    LeadATotals();
    LeadBTotals();
    LeadABlock();
    LeadBBlock();
    assert Series([LeadA]) == Standings(1, AfterLeadA);
    assert Series([LeadA, LeadB]) == Series([LeadA]) + Standings(2, AfterLeadB);
  }

  /** A tie on the first round is broken by the order the players were
      first inserted into the map: whoever is listed first ranks first. */
  lemma TieKeepsInsertionOrder()
    ensures Series([Played(1, [Entry("A", 5), Entry("B", 5)])])
      == [PlayerRank(1, "A", 1, 5), PlayerRank(1, "B", 2, 5)]
    ensures Series([Played(1, [Entry("B", 5), Entry("A", 5)])])
      == [PlayerRank(1, "B", 1, 5), PlayerRank(1, "A", 2, 5)]
  {
    TieBlock("A", "B");
    TieBlock("B", "A");
  }

  /** One round in which `x` and then `y` score 5 each ranks `x` first. */
  lemma TieBlock(x: string, y: string)
    requires x != y
    ensures Series([Played(1, [Entry(x, 5), Entry(y, 5)])])
      == [PlayerRank(1, x, 1, 5), PlayerRank(1, y, 2, 5)]
  {
    var r := Played(1, [Entry(x, 5), Entry(y, 5)]);
    var t := Totals([x, y], map[x := 5, y := 5]);
    assert [r][..0] == [];
    TieTotals(x, y);
    TieStandings(x, y);
    assert Series([r]) == Standings(1, t);
  }

  /** The map after `x` and then `y` score 5. */
  lemma TieTotals(x: string, y: string)
    requires x != y
    ensures TotalsAfter([Played(1, [Entry(x, 5), Entry(y, 5)])]) == Totals([x, y], map[x := 5, y := 5])
  {
    var r := Played(1, [Entry(x, 5), Entry(y, 5)]);
    var t1 := Totals([x], map[x := 5]);
    assert [r][..0] == [];
    assert Credit(Empty, Entry(x, 5)) == t1;
    assert Credit(t1, Entry(y, 5)) == Totals([x, y], map[x := 5, y := 5]);
    assert AddPoints(Empty, [Entry(x, 5), Entry(y, 5)]) == AddPoints(t1, [Entry(y, 5)]);
    assert [Entry(x, 5), Entry(y, 5)][1..] == [Entry(y, 5)];
  }

  /** With equal totals, the earlier key ranks first. */
  lemma TieStandings(x: string, y: string)
    requires x != y
    ensures Standings(1, Totals([x, y], map[x := 5, y := 5]))
      == [PlayerRank(1, x, 1, 5), PlayerRank(1, y, 2, 5)]
  {
    var t := Totals([x, y], map[x := 5, y := 5]);
    var b := [PlayerRank(1, x, 1, 5), PlayerRank(1, y, 2, 5)];
    assert RankedNames(b) == [x, y];
    assert IndexOf(t.keys, x) == 0;
    assert IndexOf(t.keys, y) == 1;
    assert IsStableRanking(b, 1, t);
    StandingsAreStableRanking(1, t);
    RankingIsUnique(Standings(1, t), b, 1, t);
  }

  /** A round whose fetch failed and a round that has not started add no
      records and no points, however many points the unstarted document
      lists. */
  lemma SkippedRoundsAddNothing()
    ensures Series([LeadA, Round(2, NotOk), Round(3, Ok(Doc(NotStarted, 3, [Entry("B", 100)])))])
      == Series([LeadA])
    ensures TotalsAfter([LeadA, Round(2, NotOk), Round(3, Ok(Doc(NotStarted, 3, [Entry("B", 100)])))])
      == AfterLeadA
  {
    var r2, r3 := Round(2, NotOk), Round(3, Ok(Doc(NotStarted, 3, [Entry("B", 100)])));
    SkippedRound([LeadA], r2);
    SkippedRound([LeadA, r2], r3);
    assert [LeadA] + [r2] == [LeadA, r2];
    assert [LeadA, r2] + [r3] == [LeadA, r2, r3];
    LeadATotals();
  }

  /** Round 1 of the late-joiner season: only A plays. */
  const OnlyADoc: Doc := Doc("finished", 1, [Entry("A", 10)])
  const OnlyA: Round := Round(1, Ok(OnlyADoc))

  /** Round 2: A scores 0 and C joins with 5. */
  const JoinCDoc: Doc := Doc("finished", 2, [Entry("A", 0), Entry("C", 5)])
  const JoinC: Round := Round(2, Ok(JoinCDoc))

  /** A player who joins in round 2: the Map-based charts rank only A after
      round 1, so C has no record there. */
  lemma LateJoinerSeries()
    ensures Series([OnlyA, JoinC]) == [
      PlayerRank(1, "A", 1, 10),
      PlayerRank(2, "A", 1, 10), PlayerRank(2, "C", 2, 5)]
  {
    var t1 := Totals(["A"], map["A" := 10]);
    var t2 := Totals(["A", "C"], map["A" := 10, "C" := 5]);
    assert [OnlyA, JoinC][..1] == [OnlyA];
    assert [OnlyA][..0] == [];
    assert TotalsAfter([OnlyA]) == t1;
    assert Credit(t1, Entry("A", 0)) == t1;
    assert TotalsAfter([OnlyA, JoinC]) == t2;
    OnlyABlock(t1);
    JoinCBlock(2, t2);
    assert Series([OnlyA]) == Standings(1, t1);
  }

  /** A lone player ranks first. */
  lemma OnlyABlock(t: Totals)
    requires t == Totals(["A"], map["A" := 10])
    ensures Standings(1, t) == [PlayerRank(1, "A", 1, 10)]
  {
    var b := [PlayerRank(1, "A", 1, 10)];
    assert RankedNames(b) == ["A"];
    assert IsStableRanking(b, 1, t);
    StandingsAreStableRanking(1, t);
    RankingIsUnique(Standings(1, t), b, 1, t);
  }

  /** A (10) ranks ahead of C (5). */
  lemma JoinCBlock(id: int, t: Totals)
    requires t == Totals(["A", "C"], map["A" := 10, "C" := 5])
    ensures Standings(id, t) == [PlayerRank(id, "A", 1, 10), PlayerRank(id, "C", 2, 5)]
  {
    var b := [PlayerRank(id, "A", 1, 10), PlayerRank(id, "C", 2, 5)];
    assert RankedNames(b) == ["A", "C"];
    assert IsStableRanking(b, id, t);
    StandingsAreStableRanking(id, t);
    RankingIsUnique(Standings(id, t), b, id, t);
  }

  /** The same season in `RankEvolution`: every name of any kept document is
      ranked in every round, so C is ranked second at 0 after round 1. */
  lemma LateJoinerEvolution()
    ensures Evolution([OnlyA, JoinC]) == [
      PlayerRank(1, "A", 1, 10), PlayerRank(1, "C", 2, 0),
      PlayerRank(2, "A", 1, 10), PlayerRank(2, "C", 2, 5)]
  {
    LateJoinerNames();
    LateJoinerOrder();
    LateJoinerWalk();
  }

  /** Both documents count. */
  lemma LateJoinerKept()
    ensures KeptDocs([OnlyA, JoinC]) == [OnlyADoc, JoinCDoc]
  {
    assert [OnlyA, JoinC][..1] == [OnlyA];
    assert [OnlyA][..0] == [];
  }

  /** The names, in order of first appearance: A, then C. */
  lemma LateJoinerNames()
    ensures SeenNames([OnlyA, JoinC]) == ["A", "C"]
  {
    var docs := [OnlyADoc, JoinCDoc];
    LateJoinerKept();
    assert docs[..1] == [OnlyADoc];
    assert [OnlyADoc][..0] == [];
    assert EntryNames(OnlyADoc.players) == ["A"];
    assert EntryNames(JoinCDoc.players) == ["A", "C"];
    assert DocNames([OnlyADoc]) == ["A"];
    assert DocNames(docs) == ["A"] + ["A", "C"];
    assert AddNew([], ["A", "A", "C"]) == ["A", "C"];
  }

  /** The documents are already in `spieltag` order, so the walk keeps
      them. */
  lemma LateJoinerOrder()
    ensures WalkOrder([OnlyA, JoinC]) == [OnlyADoc, JoinCDoc]
  {
    LateJoinerKept();
    assert SortedDesc([OnlyADoc, JoinCDoc], EarlierFirst);
    SortSorted([OnlyADoc, JoinCDoc], EarlierFirst);
  }

  /** The walk over both documents with every name preset. */
  lemma LateJoinerWalk()
    ensures SeriesOf(["A", "C"], [OnlyADoc, JoinCDoc]) == [
      PlayerRank(1, "A", 1, 10), PlayerRank(1, "C", 2, 0),
      PlayerRank(2, "A", 1, 10), PlayerRank(2, "C", 2, 5)]
  {
    var names, walk := ["A", "C"], [OnlyADoc, JoinCDoc];
    var c1 := Totals(["A", "C"], map["A" := 10, "C" := 0]);
    var c2 := Totals(["A", "C"], map["A" := 10, "C" := 5]);
    LateJoinerCum(c1, c2);
    AllNamesBlock(1, c1);
    AllNamesBlock(2, c2);
    var f := RoundRecords(names, walk);
    assert f(0) == RankAll(1, c1);
    assert f(1) == RankAll(2, c2);
    assert Blocks(2, f) == Blocks(1, f) + f(1);
    assert Blocks(1, f) == f(0);
  }

  /** The all-names totals after each round of the late-joiner season. */
  lemma LateJoinerCum(c1: Totals, c2: Totals)
    requires c1 == Totals(["A", "C"], map["A" := 10, "C" := 0])
    requires c2 == Totals(["A", "C"], map["A" := 10, "C" := 5])
    ensures CumAfter(["A", "C"], [OnlyADoc, JoinCDoc], 1) == c1
    ensures CumAfter(["A", "C"], [OnlyADoc, JoinCDoc], 2) == c2
  {
    var z := Totals(["A", "C"], map["A" := 0, "C" := 0]);
    LateJoinerZeroes(z);
    LateJoinerPoints(z, c1, c2);
    assert CumAfter(["A", "C"], [OnlyADoc, JoinCDoc], 1) == AddPoints(z, OnlyADoc.players);
  }

  /** What each document adds to the preset totals. */
  lemma LateJoinerPoints(z: Totals, c1: Totals, c2: Totals)
    requires z == Totals(["A", "C"], map["A" := 0, "C" := 0])
    requires c1 == Totals(["A", "C"], map["A" := 10, "C" := 0])
    requires c2 == Totals(["A", "C"], map["A" := 10, "C" := 5])
    ensures AddPoints(z, OnlyADoc.players) == c1
    ensures AddPoints(c1, JoinCDoc.players) == c2
  {
    LateJoinerCredits(z, c1, c2);
    AddPointsStep(z, OnlyADoc.players);
    assert OnlyADoc.players[1..] == [];
    AddPointsStep(c1, JoinCDoc.players);
    assert JoinCDoc.players[1..] == [Entry("C", 5)];
    AddPointsStep(c1, [Entry("C", 5)]);
    assert [Entry("C", 5)][1..] == [];
  }

  /** Each entry of the late-joiner season credited on its own. */
  lemma LateJoinerCredits(z: Totals, c1: Totals, c2: Totals)
    requires z == Totals(["A", "C"], map["A" := 0, "C" := 0])
    requires c1 == Totals(["A", "C"], map["A" := 10, "C" := 0])
    requires c2 == Totals(["A", "C"], map["A" := 10, "C" := 5])
    ensures Credit(z, Entry("A", 10)) == c1
    ensures Credit(c1, Entry("A", 0)) == c1
    ensures Credit(c1, Entry("C", 5)) == c2
  {
    assert z.vals["A" := 10] == c1.vals;
    assert c1.vals["A" := 0 + 10] == c1.vals;
    assert c1.vals["C" := 5] == c2.vals;
  }

  /** Both names start at 0. */
  lemma LateJoinerZeroes(z: Totals)
    requires z == Totals(["A", "C"], map["A" := 0, "C" := 0])
    ensures Zeroes(["A", "C"]) == z
  {
    assert Put(Empty, "A", 0) == Totals(["A"], map["A" := 0]);
    assert Zeroes(["A", "C"]) == SetZeroes(Totals(["A"], map["A" := 0]), ["C"]);
  }

  /** `RankEvolution` ranks A ahead of C when A's total is larger. */
  lemma AllNamesBlock(spieltag: int, t: Totals)
    requires t == Totals(["A", "C"], map["A" := 10, "C" := 0]) || t == Totals(["A", "C"], map["A" := 10, "C" := 5])
    ensures RankAll(spieltag, t) == [PlayerRank(spieltag, "A", 1, 10), PlayerRank(spieltag, "C", 2, Get(t, "C"))]
  {
    var b := [PlayerRank(spieltag, "A", 1, 10), PlayerRank(spieltag, "C", 2, Get(t, "C"))];
    assert RankedNames(b) == ["A", "C"];
    assert IsStableRanking(b, spieltag, t);
    RankAllIsStableRanking(spieltag, t);
    RankingIsUnique(RankAll(spieltag, t), b, spieltag, t);
  }
}
