/** The rank series of `RankEvolution`: the documents of the rounds that
    count are collected first, every player named in any of them starts at 0,
    the documents are walked in order of their own `spieltag` field, and
    every round ranks every player. Then `byPlayer` regroups the points into
    one chart line per player. */
module RankEvolution {
  import opened Seqs
  import opened StableSort
  import opened Rounds
  import opened Totals
  import opened Ranking

  /** The sort key of `(a, b) => a.spieltag - b.spieltag` (smallest first). */
  function EarlierFirst(d: Doc): int {
    -d.spieltag
  }

  /** `new Map(names.map(n => [n, 0]))`: the names are set to 0 one after
      the other, starting from an empty map. */
  function Zeroes(names: seq<string>): Totals {
    SetZeroes(Empty, names)
  }

  /** Sets every name of `names`, in order, to 0. */
  function SetZeroes(t: Totals, names: seq<string>): Totals
    decreases |names|
  {
    if |names| == 0 then t else SetZeroes(Put(t, names[0], 0), names[1..])
  }

  /** Setting names to 0 appends the new ones to the key order, in order of
      first appearance, and leaves every other total alone. */
  lemma {:induction false} SetZeroesSpec(t: Totals, names: seq<string>)
    ensures SetZeroes(t, names).keys == AddNew(t.keys, names)
    ensures forall n :: Get(SetZeroes(t, names), n) == if n in names then 0 else Get(t, n)
    ensures Valid(t) ==> Valid(SetZeroes(t, names))
    decreases |names|
  {
    if |names| != 0 {
      var t' := Put(t, names[0], 0);
      PutSpec(t, names[0], 0);
      SetZeroesSpec(t', names[1..]);
      AddNewStep(t.keys, names, names[0], names[1..], t'.keys, SetZeroes(t', names[1..]).keys);
      assert forall n :: n in names <==> n == names[0] || n in names[1..] by {
        assert names == [names[0]] + names[1..];
      }
    }
  }

  /** With distinct names, the map holds exactly `names`, in order, all at
      0, and is well formed. */
  lemma ZeroesSpec(names: seq<string>)
    requires NoDups(names)
    ensures Zeroes(names).keys == names
    ensures forall n :: Get(Zeroes(names), n) == 0
    ensures Valid(Zeroes(names))
  {
    EmptyValid();
    SetZeroesSpec(Empty, names);
    AddNewFresh([], names);
    assert [] + names == names;
  }

  /** The sort key of `(a, b) => (cum.get(b) || 0) - (cum.get(a) || 0)`. */
  function ByTotal(cum: Totals): string -> int {
    n => Get(cum, n)
  }

  /** `names.slice().sort(...)` followed by one record per name, with
      `rank: ranking.indexOf(name) + 1`. */
  function RankAll(spieltag: int, cum: Totals): seq<PlayerRank> {
    var ranking := Sort(cum.keys, ByTotal(cum));
    seq(|ranking|, i requires 0 <= i < |ranking| =>
      PlayerRank(spieltag, ranking[i], IndexOf(ranking, ranking[i]) + 1, Get(cum, ranking[i])))
  }

  /** The totals after the walk has processed the first `n` documents of
      `walk`: every name starts at 0 and each document adds its points. */
  function CumAfter(names: seq<string>, walk: seq<Doc>, n: nat): Totals
    requires n <= |walk|
  {
    if n == 0 then Zeroes(names)
    else AddPoints(CumAfter(names, walk, n - 1), walk[n - 1].players)
  }

  /** The records the walk pushes for its `j`-th document: every player,
      ranked at the totals after that document. */
  function RoundRecords(names: seq<string>, walk: seq<Doc>): nat -> seq<PlayerRank> {
    (j: nat) => if j < |walk| then RankAll(walk[j].spieltag, CumAfter(names, walk, j + 1)) else []
  }

  /** The records `out` holds once the walk has finished: the blocks of all
      walked documents, in walk order. */
  function SeriesOf(names: seq<string>, walk: seq<Doc>): seq<PlayerRank> {
    Blocks(|walk|, RoundRecords(names, walk))
  }

  /** The kept documents in the order they are walked. */
  function WalkOrder(rounds: seq<Round>): seq<Doc> {
    Sort(KeptDocs(rounds), EarlierFirst)
  }

  /** The points `RankEvolution` plots. */
  function Evolution(rounds: seq<Round>): seq<PlayerRank> {
    SeriesOf(SeenNames(rounds), WalkOrder(rounds))
  }

  /** Every player's total in `cum` is the sum of their points over `docs`. */
  ghost predicate SumsOver(cum: Totals, docs: seq<Doc>) {
    forall n :: Get(cum, n) == DocPoints(docs, n)
  }

  /** Every name in `docs` is one of `names`. */
  predicate NamesCovered(names: seq<string>, docs: seq<Doc>) {
    forall k, e :: 0 <= k < |docs| && 0 <= e < |docs[k].players| ==> docs[k].players[e].name in names
  }

  /** Every name of every document occurs in the flattened name list. */
  lemma {:induction false} DocNamesContains(docs: seq<Doc>)
    ensures NamesCovered(DocNames(docs), docs)
    decreases |docs|
  {
    if |docs| != 0 {
      var prefix := docs[..|docs| - 1];
      DocNamesContains(prefix);
      forall k, e | 0 <= k < |docs| && 0 <= e < |docs[k].players|
        ensures docs[k].players[e].name in DocNames(docs)
      {
        if k < |docs| - 1 {
          assert docs[k] == prefix[k];
        } else {
          assert EntryNames(docs[k].players)[e] == docs[k].players[e].name;
        }
      }
    }
  }

  /** The walk visits every kept document once, by non-decreasing
      `spieltag`. */
  lemma WalkSorted(rounds: seq<Round>)
    ensures multiset(WalkOrder(rounds)) == multiset(KeptDocs(rounds))
    ensures forall i, j :: 0 <= i < j < |WalkOrder(rounds)| ==> WalkOrder(rounds)[i].spieltag <= WalkOrder(rounds)[j].spieltag
  {
    var walk := WalkOrder(rounds);
    SortSortsPermutation(KeptDocs(rounds), EarlierFirst);
    forall i, j | 0 <= i < j < |walk|
      ensures walk[i].spieltag <= walk[j].spieltag
    {
      assert EarlierFirst(walk[i]) >= EarlierFirst(walk[j]);
    }
  }

  /** `names` holds every name of the kept documents once, in order of first
      appearance, so it covers every document of the walk. */
  lemma WalkSetup(rounds: seq<Round>)
    ensures NoDups(SeenNames(rounds))
    ensures FirstAppearanceOrder(SeenNames(rounds), DocNames(KeptDocs(rounds)))
    ensures NamesCovered(SeenNames(rounds), WalkOrder(rounds))
  {
    var docs, walk, names := KeptDocs(rounds), WalkOrder(rounds), SeenNames(rounds);
    DistinctFirstAppearance(DocNames(docs));
    DocNamesContains(docs);
    WalkSorted(rounds);
    forall k, e | 0 <= k < |walk| && 0 <= e < |walk[k].players|
      ensures walk[k].players[e].name in names
    {
      assert walk[k] in multiset(docs);
      var k' :| 0 <= k' < |docs| && docs[k'] == walk[k];
      assert docs[k'].players[e].name in DocNames(docs);
    }
  }

  /** With every name of the walked documents among `names`, the totals
      keep `names` as their keys: no `set` adds a new key. */
  lemma {:induction false} CumAfterKeys(names: seq<string>, walk: seq<Doc>, n: nat)
    requires NoDups(names) && NamesCovered(names, walk)
    requires n <= |walk|
    ensures CumAfter(names, walk, n).keys == names
  {
    if n == 0 {
      ZeroesSpec(names);
    } else {
      var before, ps := CumAfter(names, walk, n - 1), walk[n - 1].players;
      CumAfterKeys(names, walk, n - 1);
      forall e | 0 <= e < |ps|
        ensures ps[e].name in before.keys
      {
        assert walk[n - 1].players[e].name in names;
      }
      AddPointsKnownKeys(before, ps);
      assert CumAfter(names, walk, n) == AddPoints(before, ps);
    }
  }

  /** Starting from distinct names, the totals stay well formed after every
      document of the walk. */
  lemma {:induction false} CumAfterValid(names: seq<string>, walk: seq<Doc>, n: nat)
    requires NoDups(names)
    requires n <= |walk|
    ensures Valid(CumAfter(names, walk, n))
  {
    if n == 0 {
      ZeroesSpec(names);
    } else {
      CumAfterValid(names, walk, n - 1);
      AddPointsValid(CumAfter(names, walk, n - 1), walk[n - 1].players);
    }
  }

  /** After `n` documents every player's total is their prefix sum over
      those documents. */
  lemma {:induction false} CumAfterSums(names: seq<string>, walk: seq<Doc>, n: nat)
    requires n <= |walk|
    ensures SumsOver(CumAfter(names, walk, n), walk[..n])
  {
    if n == 0 {
      SetZeroesSpec(Empty, names);
    } else {
      var before, d := CumAfter(names, walk, n - 1), walk[n - 1];
      CumAfterSums(names, walk, n - 1);
      assert walk[..n][..n - 1] == walk[..n - 1];
      forall m
        ensures Get(CumAfter(names, walk, n), m) == DocPoints(walk[..n], m)
      {
        AddPointsGet(before, d.players, m);
      }
    }
  }

  /** What the sort of the names promises, stated on the names. */
  lemma SortedNames(cum: Totals)
    requires DistinctKeys(cum)
    ensures var ranking := Sort(cum.keys, ByTotal(cum));
      && |ranking| == |cum.keys|
      && NoDups(ranking)
      && (forall i :: 0 <= i < |ranking| ==> ranking[i] in cum.keys)
      && (forall n :: n in cum.keys ==> n in ranking)
      && (forall i, j :: 0 <= i < j < |ranking| ==> Ahead(cum, ranking[i], ranking[j]))
  {
    var key := ByTotal(cum);
    var ranking := Sort(cum.keys, key);
    SortSortsPermutation(cum.keys, key);
    assert |ranking| == |cum.keys| by {
      assert |ranking| == |multiset(ranking)| == |multiset(cum.keys)| == |cum.keys|;
    }
    assert forall i :: 0 <= i < |ranking| ==> ranking[i] in cum.keys by {
      assert forall i :: 0 <= i < |ranking| ==> ranking[i] in multiset(cum.keys);
    }
    assert forall n :: n in cum.keys ==> n in ranking by {
      assert forall n :: n in cum.keys ==> n in multiset(ranking);
    }
    assert NoDups(ranking) by {
      SortKeepsNoDups(cum.keys, key);
    }
    RankingAhead(cum);
  }

  /** The sorted names come in `Ahead` order: larger totals first, ties in
      key order. */
  lemma RankingAhead(cum: Totals)
    requires DistinctKeys(cum)
    ensures var ranking := Sort(cum.keys, ByTotal(cum));
      forall i, j :: 0 <= i < j < |ranking| ==> Ahead(cum, ranking[i], ranking[j])
  {
    var key := ByTotal(cum);
    var ranking := Sort(cum.keys, key);
    SortSortsPermutation(cum.keys, key);
    SortIsStable(cum.keys, key);
    SortKeepsNoDups(cum.keys, key);
    forall i, j | 0 <= i < j < |ranking|
      ensures Ahead(cum, ranking[i], ranking[j])
    {
      assert key(ranking[i]) >= key(ranking[j]);
      assert key(ranking[i]) == Get(cum, ranking[i]) && key(ranking[j]) == Get(cum, ranking[j]);
    }
  }

  /** Every record's rank, `indexOf(name) + 1`, is its position + 1, because
      the names are distinct. */
  lemma RankIsPosition(spieltag: int, cum: Totals)
    requires DistinctKeys(cum)
    ensures var b := RankAll(spieltag, cum);
      |b| == |cum.keys| && forall i :: 0 <= i < |b| ==> b[i].rank == i + 1
  {
    var ranking := Sort(cum.keys, ByTotal(cum));
    SortedNames(cum);
    forall i | 0 <= i < |ranking|
      ensures IndexOf(ranking, ranking[i]) == i
    {
      IndexOfNoDups(ranking, i);
    }
  }

  /** The records of one round are the stable ranking of the totals. */
  lemma RankAllIsStableRanking(spieltag: int, cum: Totals)
    requires DistinctKeys(cum)
    ensures IsStableRanking(RankAll(spieltag, cum), spieltag, cum)
  {
    var ranking := Sort(cum.keys, ByTotal(cum));
    var b := RankAll(spieltag, cum);
    SortedNames(cum);
    RankIsPosition(spieltag, cum);
    assert forall i :: 0 <= i < |b| ==> b[i] == PlayerRank(spieltag, ranking[i], i + 1, Get(cum, ranking[i]));
    RecordsOfOrder(b, spieltag, cum, ranking);
  }

  /** One round's records: one per key of the totals. */
  lemma RankAllLength(spieltag: int, cum: Totals)
    ensures |RankAll(spieltag, cum)| == |cum.keys|
  {
    var ranking := Sort(cum.keys, ByTotal(cum));
    SortSortsPermutation(cum.keys, ByTotal(cum));
    assert |ranking| == |multiset(ranking)| == |multiset(cum.keys)| == |cum.keys|;
  }

  /** Every document's block has one record per name. */
  lemma RoundsHaveAllNames(names: seq<string>, walk: seq<Doc>)
    requires NoDups(names) && NamesCovered(names, walk)
    ensures SameLength(|walk|, RoundRecords(names, walk), |names|)
  {
    forall j: nat | j < |walk|
      ensures |RoundRecords(names, walk)(j)| == |names|
    {
      CumAfterKeys(names, walk, j + 1);
      RankAllLength(walk[j].spieltag, CumAfter(names, walk, j + 1));
    }
  }

  /** One document's `ranking.forEach`: sort the names by their totals and
      push one record per name, `rank: ranking.indexOf(name) + 1`. */
  method PushRanking(out: seq<PlayerRank>, spieltag: int, cum: Totals) returns (r: seq<PlayerRank>)
    ensures r == out + RankAll(spieltag, cum)
  {
    var ranking := Sort(cum.keys, ByTotal(cum));
    ghost var block := RankAll(spieltag, cum);
    r := out;
    var k := 0;
    while k < |ranking|
      invariant 0 <= k <= |ranking| == |block|
      invariant r == out + block[..k]
    {
      var name := ranking[k];
      assert block[k] == PlayerRank(spieltag, name, IndexOf(ranking, name) + 1, Get(cum, name));
      TakeSnoc(block, k);
      r := r + [PlayerRank(spieltag, name, IndexOf(ranking, name) + 1, Get(cum, name))];
      k := k + 1;
    }
    assert block[..k] == block;
  }

  /** The `forEach` over the sorted documents: add each document's points to
      `cum`, sort all names by their new totals, and push one record per
      name with `rank: ranking.indexOf(name) + 1`. */
  method Walk(names: seq<string>, walk: seq<Doc>) returns (out: seq<PlayerRank>, cum: Totals)
    ensures cum == CumAfter(names, walk, |walk|)
    ensures out == SeriesOf(names, walk)
  {
    cum, out := Zeroes(names), [];
    var i := 0;
    while i < |walk|
      invariant 0 <= i <= |walk|
      invariant cum == CumAfter(names, walk, i)
      invariant out == Blocks(i, RoundRecords(names, walk))
    {
      var d := walk[i];
      WalkStep(names, walk, i);
      cum := AddPoints(cum, d.players);
      out := PushRanking(out, d.spieltag, cum);
      i := i + 1;
    }
  }

  /** One pass of the `forEach`: the totals gain the document's points and
      the records gain the ranking at the new totals. */
  lemma WalkStep(names: seq<string>, walk: seq<Doc>, i: nat)
    requires i < |walk|
    ensures CumAfter(names, walk, i + 1) == AddPoints(CumAfter(names, walk, i), walk[i].players)
    ensures Blocks(i + 1, RoundRecords(names, walk))
         == Blocks(i, RoundRecords(names, walk)) + RankAll(walk[i].spieltag, AddPoints(CumAfter(names, walk, i), walk[i].players))
  {
    assert RoundRecords(names, walk)(i) == RankAll(walk[i].spieltag, CumAfter(names, walk, i + 1));
  }

  /** The `i`-th block of `|names|` records of the finished walk is the
      ranking at the `i`-th walked document. */
  lemma SeriesBlock(names: seq<string>, walk: seq<Doc>, i: nat)
    requires NoDups(names) && NamesCovered(names, walk)
    requires i < |walk|
    ensures Times(i, |names|) + |names| <= |SeriesOf(names, walk)|
    ensures SeriesOf(names, walk)[Times(i, |names|) .. Times(i, |names|) + |names|]
         == RankAll(walk[i].spieltag, CumAfter(names, walk, i + 1))
  {
    RoundsHaveAllNames(names, walk);
    SeriesBlockAt(names, walk, i);
    assert RoundRecords(names, walk)(i) == RankAll(walk[i].spieltag, CumAfter(names, walk, i + 1));
  }

  /** With every block `|names|` long, the `i`-th slice of `|names|` records
      is the `i`-th block. */
  lemma SeriesBlockAt(names: seq<string>, walk: seq<Doc>, i: nat)
    requires SameLength(|walk|, RoundRecords(names, walk), |names|)
    requires i < |walk|
    ensures Times(i, |names|) + |names| <= |SeriesOf(names, walk)|
    ensures SeriesOf(names, walk)[Times(i, |names|) .. Times(i, |names|) + |names|] == RoundRecords(names, walk)(i)
  {
    BlocksAt(|walk|, RoundRecords(names, walk), |names|, i);
  }

  /** Every walked document contributes `|names|` records. */
  lemma SeriesLength(names: seq<string>, walk: seq<Doc>)
    requires NoDups(names) && NamesCovered(names, walk)
    ensures |SeriesOf(names, walk)| == Times(|walk|, |names|)
  {
    RoundsHaveAllNames(names, walk);
    BlocksLength(|walk|, RoundRecords(names, walk), |names|);
  }

  /** The whole `RankEvolution` output: the `i`-th block of `|names|` records
      is the ranking of every player at the `i`-th walked document, whose
      totals are the prefix sums over the walk; that ranking is the stable
      ranking of those totals (ranks 1..|names|, ties in `names` order). */
  lemma EvolutionRanksEveryRound(rounds: seq<Round>, i: nat)
    requires i < |WalkOrder(rounds)|
    ensures var names, walk := SeenNames(rounds), WalkOrder(rounds);
      && Times(i, |names|) + |names| <= |Evolution(rounds)|
      && Evolution(rounds)[Times(i, |names|) .. Times(i, |names|) + |names|]
         == RankAll(walk[i].spieltag, CumAfter(names, walk, i + 1))
      && CumAfter(names, walk, i + 1).keys == names
      && SumsOver(CumAfter(names, walk, i + 1), walk[..i + 1])
      && IsStableRanking(RankAll(walk[i].spieltag, CumAfter(names, walk, i + 1)),
           walk[i].spieltag, CumAfter(names, walk, i + 1))
  {
    assert NamesCovered(SeenNames(rounds), WalkOrder(rounds)) && NoDups(SeenNames(rounds)) by {
      WalkSetup(rounds);
    }
    SeriesRanksEveryRound(SeenNames(rounds), WalkOrder(rounds), i);
    assert Evolution(rounds) == SeriesOf(SeenNames(rounds), WalkOrder(rounds));
  }

  /** The `i`-th block of `|names|` records of the walk's output ranks every
      player at the `i`-th walked document. */
  lemma SeriesRanksEveryRound(names: seq<string>, walk: seq<Doc>, i: nat)
    requires NoDups(names) && NamesCovered(names, walk)
    requires i < |walk|
    ensures Times(i, |names|) + |names| <= |SeriesOf(names, walk)|
    ensures SeriesOf(names, walk)[Times(i, |names|) .. Times(i, |names|) + |names|]
         == RankAll(walk[i].spieltag, CumAfter(names, walk, i + 1))
    ensures CumAfter(names, walk, i + 1).keys == names
    ensures SumsOver(CumAfter(names, walk, i + 1), walk[..i + 1])
    ensures IsStableRanking(RankAll(walk[i].spieltag, CumAfter(names, walk, i + 1)),
      walk[i].spieltag, CumAfter(names, walk, i + 1))
  {
    SeriesBlock(names, walk, i);
    RoundIsStable(names, walk, i);
    CumAfterKeys(names, walk, i + 1);
    CumAfterSums(names, walk, i + 1);
  }

  /** The records of the `i`-th walked document are the stable ranking of
      the totals after it. */
  lemma RoundIsStable(names: seq<string>, walk: seq<Doc>, i: nat)
    requires NoDups(names) && NamesCovered(names, walk)
    requires i < |walk|
    ensures IsStableRanking(RankAll(walk[i].spieltag, CumAfter(names, walk, i + 1)), walk[i].spieltag, CumAfter(names, walk, i + 1))
  {
    CumAfterKeys(names, walk, i + 1);
    RankAllIsStableRanking(walk[i].spieltag, CumAfter(names, walk, i + 1));
  }

  /** `RankEvolution` emits one record per player for every walked
      document. */
  lemma EvolutionLength(rounds: seq<Round>)
    ensures |Evolution(rounds)| == |KeptDocs(rounds)| * |SeenNames(rounds)|
  {
    var names, walk := SeenNames(rounds), WalkOrder(rounds);
    assert NamesCovered(names, walk) && |walk| == |KeptDocs(rounds)| by {
      WalkSetup(rounds);
      WalkSorted(rounds);
      assert |walk| == |multiset(walk)| == |KeptDocs(rounds)|;
    }
    SeriesLength(names, walk);
    TimesIsProduct(|walk|, |names|);
  }

  /** One chart line of `byPlayer`: a player's spieltag values and ranks. */
  datatype Track = Track(name: string, xs: seq<int>, ys: seq<int>)

  /** The names of the lines, in insertion order. */
  function TrackNames(m: seq<Track>): (ns: seq<string>)
    ensures |ns| == |m|
    ensures forall k :: 0 <= k < |m| ==> ns[k] == m[k].name
  {
    Map(m, (t: Track) => t.name)
  }

  /** `m.get(name) || {x: [], y: []}`. */
  function TrackOf(m: seq<Track>, n: string): Track {
    var k := IndexOf(TrackNames(m), n);
    if k == -1 then Track(n, [], []) else m[k]
  }

  /** One step of `points.forEach`: push the point onto its player's line. */
  function AddToTrack(m: seq<Track>, p: PlayerRank): (r: seq<Track>)
    ensures TrackNames(r) == AddNew(TrackNames(m), [p.name])
    ensures TrackOf(r, p.name).xs == TrackOf(m, p.name).xs + [p.spieltag]
    ensures TrackOf(r, p.name).ys == TrackOf(m, p.name).ys + [p.rank]
    ensures forall n :: n != p.name ==> TrackOf(r, n) == TrackOf(m, n)
  {
    var k := IndexOf(TrackNames(m), p.name);
    var prev := TrackOf(m, p.name);
    var t := Track(p.name, prev.xs + [p.spieltag], prev.ys + [p.rank]);
    if k == -1 then
      var r := m + [t];
      assert TrackNames(r) == TrackNames(m) + [p.name];
      IndexOfSnoc(TrackNames(m), p.name, p.name);
      forall n | n != p.name ensures TrackOf(r, n) == TrackOf(m, n) {
        IndexOfSnoc(TrackNames(m), p.name, n);
      }
      r
    else
      var r := m[k := t];
      assert TrackNames(r) == TrackNames(m);
      r
  }

  /** `byPlayer`. */
  function ByPlayer(points: seq<PlayerRank>): seq<Track> {
    if |points| == 0 then []
    else AddToTrack(ByPlayer(points[..|points| - 1]), points[|points| - 1])
  }

  /** Adding one point changes only its own player's line, by one entry. */
  lemma ByPlayerStep(points: seq<PlayerRank>, n: string)
    requires |points| > 0
    requires TrackOf(ByPlayer(points[..|points| - 1]), n).xs == SpieltagOf(PointsNamed(points[..|points| - 1], n))
    requires TrackOf(ByPlayer(points[..|points| - 1]), n).ys == Ranks(PointsNamed(points[..|points| - 1], n))
    ensures TrackOf(ByPlayer(points), n).xs == SpieltagOf(PointsNamed(points, n))
    ensures TrackOf(ByPlayer(points), n).ys == Ranks(PointsNamed(points, n))
  {
    var prefix, p := points[..|points| - 1], points[|points| - 1];
    assert ByPlayer(points) == AddToTrack(ByPlayer(prefix), p);
    if n == p.name {
      assert PointsNamed(points, n) == PointsNamed(prefix, n) + [p];
      ProjectionsSnoc(PointsNamed(prefix, n), p);
    } else {
      assert PointsNamed(points, n) == PointsNamed(prefix, n);
    }
  }

  /** Appending a point appends its spieltag and its rank. */
  lemma ProjectionsSnoc(b: seq<PlayerRank>, p: PlayerRank)
    ensures SpieltagOf(b + [p]) == SpieltagOf(b) + [p.spieltag]
    ensures Ranks(b + [p]) == Ranks(b) + [p.rank]
  {
  }

  /** The lines appear in order of the players' first points. */
  lemma {:induction false} ByPlayerNames(points: seq<PlayerRank>)
    ensures TrackNames(ByPlayer(points)) == Distinct(RankedNames(points))
    decreases |points|
  {
    if |points| != 0 {
      var prefix, p := points[..|points| - 1], points[|points| - 1];
      assert RankedNames(points) == RankedNames(prefix) + [p.name];
      calc {
        TrackNames(ByPlayer(points));
        TrackNames(AddToTrack(ByPlayer(prefix), p));
        AddNew(TrackNames(ByPlayer(prefix)), [p.name]);
        { ByPlayerNames(prefix); }
        AddNew(AddNew([], RankedNames(prefix)), [p.name]);
        { AddNewAppend([], RankedNames(prefix), [p.name]); }
        AddNew([], RankedNames(points));
      }
    }
  }

  /** Each player's line lists, in processing order, the spieltag values of
      that player's points (`x`) and the rank at each of them (`y`). */
  lemma {:induction false} ByPlayerTracks(points: seq<PlayerRank>)
    ensures forall n :: TrackOf(ByPlayer(points), n).xs == SpieltagOf(PointsNamed(points, n))
    ensures forall n :: TrackOf(ByPlayer(points), n).ys == Ranks(PointsNamed(points, n))
    decreases |points|
  {
    if |points| != 0 {
      ByPlayerTracks(points[..|points| - 1]);
      forall n
        ensures TrackOf(ByPlayer(points), n).xs == SpieltagOf(PointsNamed(points, n))
        ensures TrackOf(ByPlayer(points), n).ys == Ranks(PointsNamed(points, n))
      {
        ByPlayerStep(points, n);
      }
    }
  }
}
