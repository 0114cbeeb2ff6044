/** The cumulative rank series of `InteractiveRankChart` and `SimpleRankChart`
    (their loading loops are the same): the rounds are walked in id order,
    skipped rounds leave everything unchanged, every other round adds its
    points to a `Map` of running totals and appends one record per player
    seen so far, ranked by descending total with ties in first-insertion
    order. */
module RankSeries {
  import opened Seqs
  import opened StableSort
  import opened Rounds
  import opened Totals
  import opened Ranking

  /** `Array.from(cumulativePoints.entries()).sort((a, b) => b[1] - a[1])`,
      turned into one record per entry with `rank: index + 1`. */
  function Standings(id: int, t: Totals): seq<PlayerRank> {
    var sorted := Sort(Entries(t), TotalOf);
    seq(|sorted|, i requires 0 <= i < |sorted| =>
      PlayerRank(id, sorted[i].name, i + 1, sorted[i].total))
  }

  /** The sorted entries are the map's entries, each once. */
  lemma SortedEntries(t: Totals)
    requires DistinctKeys(t)
    ensures var sorted := Sort(Entries(t), TotalOf);
      && |sorted| == |t.keys|
      && NoDups(sorted)
      && (forall x :: x in sorted <==> x in Entries(t))
  {
    EntriesNoDups(t);
    SortMembers(Entries(t), TotalOf);
    SortKeepsNoDups(Entries(t), TotalOf);
  }

  /** Every record names a player of the map, with that player's total. */
  lemma StandingsMembers(id: int, t: Totals)
    requires DistinctKeys(t)
    ensures var b := Standings(id, t);
      forall i :: 0 <= i < |b| ==> b[i].name in t.keys && b[i].points == Get(t, b[i].name)
  {
    var sorted := Sort(Entries(t), TotalOf);
    var b := Standings(id, t);
    SortedEntries(t);
    forall i | 0 <= i < |b|
      ensures b[i].name in t.keys && b[i].points == Get(t, b[i].name)
    {
      assert sorted[i] in Entries(t);
      var k :| 0 <= k < |t.keys| && Entries(t)[k] == sorted[i];
    }
  }

  /** Every player of the map has a record. */
  lemma StandingsCover(id: int, t: Totals)
    requires DistinctKeys(t)
    ensures forall n :: n in t.keys ==> n in RankedNames(Standings(id, t))
  {
    var sorted := Sort(Entries(t), TotalOf);
    var b := Standings(id, t);
    SortedEntries(t);
    forall n | n in t.keys
      ensures n in RankedNames(b)
    {
      var k :| 0 <= k < |t.keys| && t.keys[k] == n;
      assert Entries(t)[k] in sorted;
      var i :| 0 <= i < |sorted| && sorted[i] == Entries(t)[k];
      assert RankedNames(b)[i] == n;
    }
  }

  /** Records come in `Ahead` order, so no player is ranked twice. */
  lemma StandingsOrder(id: int, t: Totals)
    requires DistinctKeys(t)
    ensures var b := Standings(id, t);
      forall i, j :: 0 <= i < j < |b| ==> b[i].name != b[j].name && Ahead(t, b[i].name, b[j].name)
  {
    var es := Entries(t);
    var sorted := Sort(es, TotalOf);
    var b := Standings(id, t);
    SortedEntries(t);
    SortSortsPermutation(es, TotalOf);
    SortIsStable(es, TotalOf);
    forall i, j | 0 <= i < j < |b|
      ensures b[i].name != b[j].name && Ahead(t, b[i].name, b[j].name)
    {
      assert sorted[i] != sorted[j];
      assert TotalOf(sorted[i]) >= TotalOf(sorted[j]);
      EntryAhead(t, sorted[i], sorted[j]);
    }
  }

  /** Of two different entries, one with a larger total, or an equal total
      and an earlier position, names a different player who is ahead. */
  lemma EntryAhead(t: Totals, x: Pair, y: Pair)
    requires DistinctKeys(t)
    requires x in Entries(t) && y in Entries(t) && x != y
    requires x.total >= y.total
    requires x.total == y.total ==> IndexOf(Entries(t), x) < IndexOf(Entries(t), y)
    ensures x.name != y.name && Ahead(t, x.name, y.name)
  {
    var ki :| 0 <= ki < |Entries(t)| && Entries(t)[ki] == x;
    var kj :| 0 <= kj < |Entries(t)| && Entries(t)[kj] == y;
    IndexOfEntry(t, ki);
    IndexOfEntry(t, kj);
  }

  /** The records a round emits are the stable ranking of the totals. */
  lemma StandingsAreStableRanking(id: int, t: Totals)
    requires DistinctKeys(t)
    ensures IsStableRanking(Standings(id, t), id, t)
  {
    var b := Standings(id, t);
    SortedEntries(t);
    StandingsMembers(id, t);
    StandingsCover(id, t);
    StandingsOrder(id, t);
    assert NoDups(RankedNames(b));
  }

  /** The running totals after the loop has walked `rounds`. */
  function TotalsAfter(rounds: seq<Round>): Totals {
    if |rounds| == 0 then Empty
    else
      var t := TotalsAfter(rounds[..|rounds| - 1]);
      var r := rounds[|rounds| - 1];
      if Counts(r.response) then AddPoints(t, r.response.doc.players) else t
  }

  /** The records `allData` holds after the loop has walked `rounds`. */
  function Series(rounds: seq<Round>): seq<PlayerRank> {
    if |rounds| == 0 then []
    else
      var r := rounds[|rounds| - 1];
      Series(rounds[..|rounds| - 1])
        + (if Counts(r.response) then Standings(r.id, TotalsAfter(rounds)) else [])
  }

  /** The loading loop itself: skip a round whose fetch failed or that has
      not started; otherwise add its points and append its standings. */
  method LoadSeries(rounds: seq<Round>) returns (data: seq<PlayerRank>, cumulative: Totals)
    ensures data == Series(rounds)
    ensures cumulative == TotalsAfter(rounds)
  {
    data, cumulative := [], Empty;
    var i := 0;
    while i < |rounds|
      invariant 0 <= i <= |rounds|
      invariant data == Series(rounds[..i])
      invariant cumulative == TotalsAfter(rounds[..i])
    {
      var r := rounds[i];
      assert rounds[..i + 1][..i] == rounds[..i];
      if !r.response.Ok? || r.response.doc.status == NotStarted {
        i := i + 1;
        continue;
      }
      cumulative := AddPoints(cumulative, r.response.doc.players);
      data := data + Standings(r.id, cumulative);
      i := i + 1;
    }
    assert rounds[..i] == rounds;
  }

  /** After any prefix of the rounds, the totals map holds exactly the
      players seen so far, in order of first appearance, each with the sum of
      their points over the rounds that counted. */
  lemma {:induction false} TotalsArePrefixSums(rounds: seq<Round>)
    ensures TotalsAfter(rounds).keys == SeenNames(rounds)
    ensures DistinctKeys(TotalsAfter(rounds))
    ensures forall n :: Get(TotalsAfter(rounds), n) == DocPoints(KeptDocs(rounds), n)
    decreases |rounds|
  {
    if |rounds| != 0 {
      var prefix, r := rounds[..|rounds| - 1], rounds[|rounds| - 1];
      TotalsArePrefixSums(prefix);
      var docs := KeptDocs(prefix);
      if Counts(r.response) {
        var d := r.response.doc;
        assert KeptDocs(rounds) == docs + [d];
        assert (docs + [d])[..|docs|] == docs;
        assert DocNames(docs + [d]) == DocNames(docs) + EntryNames(d.players);
        AddNewAppend([], DocNames(docs), EntryNames(d.players));
        AddPointsKeys(TotalsAfter(prefix), d.players);
        forall n
          ensures Get(TotalsAfter(rounds), n) == DocPoints(KeptDocs(rounds), n)
        {
          AddPointsGet(TotalsAfter(prefix), d.players, n);
        }
      } else {
        assert KeptDocs(rounds) == docs;
      }
    }
  }

  /** However many rounds the loop has walked, the totals map lists each
      name once and stores a value under exactly the names it lists. */
  lemma {:induction false} TotalsAfterValid(rounds: seq<Round>)
    ensures Valid(TotalsAfter(rounds))
    decreases |rounds|
  {
    if |rounds| == 0 {
      EmptyValid();
    } else {
      var prefix, r := rounds[..|rounds| - 1], rounds[|rounds| - 1];
      TotalsAfterValid(prefix);
      if Counts(r.response) {
        AddPointsValid(TotalsAfter(prefix), r.response.doc.players);
      }
    }
  }

  /** A round whose fetch failed or that has not started emits no records and
      leaves every running total unchanged. */
  lemma SkippedRound(rounds: seq<Round>, r: Round)
    requires !Counts(r.response)
    ensures TotalsAfter(rounds + [r]) == TotalsAfter(rounds)
    ensures Series(rounds + [r]) == Series(rounds)
  {
    assert (rounds + [r])[..|rounds|] == rounds;
  }

  /** A round that counts appends exactly the stable ranking of all players
      seen up to and including it: one record per player, ranks 1..k, points
      equal to the player's sum so far and non-increasing down the ranking,
      ties in order of first appearance. */
  lemma CountedRound(rounds: seq<Round>, r: Round)
    requires Counts(r.response)
    ensures var t := TotalsAfter(rounds + [r]);
      && Series(rounds + [r]) == Series(rounds) + Standings(r.id, t)
      && IsStableRanking(Standings(r.id, t), r.id, t)
      && t.keys == SeenNames(rounds + [r])
      && |Standings(r.id, t)| == |SeenNames(rounds + [r])|
      && forall n :: Get(t, n) == DocPoints(KeptDocs(rounds + [r]), n)
  {
    assert (rounds + [r])[..|rounds|] == rounds;
    var t := TotalsAfter(rounds + [r]);
    TotalsArePrefixSums(rounds + [r]);
    StandingsAreStableRanking(r.id, t);
  }

  /** The set of ranked players only grows: the players seen after `rounds`
      are a prefix of those seen after any continuation. */
  lemma SeenNamesGrow(rounds: seq<Round>, more: seq<Round>)
    ensures SeenNames(rounds) <= SeenNames(rounds + more)
  {
    KeptDocsAppend(rounds, more);
    DocNamesAppend(KeptDocs(rounds), KeptDocs(more));
    AddNewAppend([], DocNames(KeptDocs(rounds)), DocNames(KeptDocs(more)));
    AddNewMembers(SeenNames(rounds), DocNames(KeptDocs(more)));
  }

  /** When a round awards no negative points, no running total decreases. */
  lemma TotalsNonDecreasing(rounds: seq<Round>, r: Round, n: string)
    requires r.response.Ok? ==> forall k :: 0 <= k < |r.response.doc.players| ==> r.response.doc.players[k].pts >= 0
    ensures Get(TotalsAfter(rounds), n) <= Get(TotalsAfter(rounds + [r]), n)
  {
    assert (rounds + [r])[..|rounds|] == rounds;
    if Counts(r.response) {
      PointsOfNonNegative(r.response.doc.players, n);
      AddPointsGet(TotalsAfter(rounds), r.response.doc.players, n);
    }
  }

  /** Every record `Series` emits carries the id of a round it walked, so
      with all ids below `b` every record's spieltag is below `b`. */
  lemma {:induction false} SeriesIdsBelow(rounds: seq<Round>, b: int)
    requires forall k :: 0 <= k < |rounds| ==> rounds[k].id < b
    ensures forall i :: 0 <= i < |Series(rounds)| ==> Series(rounds)[i].spieltag < b
    decreases |rounds|
  {
    if |rounds| != 0 {
      var prefix := rounds[..|rounds| - 1];
      SeriesIdsBelow(prefix, b);
    }
  }

  /** The record at position `i` has rank `i + 1`. */
  predicate RankedInOrder(b: seq<PlayerRank>) {
    forall i :: 0 <= i < |b| ==> b[i].rank == i + 1
  }

  /** One record per map entry, each tagged with the round and ranked by
      position. */
  lemma StandingsShape(id: int, t: Totals)
    ensures |Standings(id, t)| == |t.keys|
    ensures forall i :: 0 <= i < |t.keys| ==> Standings(id, t)[i].spieltag == id
    ensures RankedInOrder(Standings(id, t))
  {
    SortMembers(Entries(t), TotalOf);
  }
}
