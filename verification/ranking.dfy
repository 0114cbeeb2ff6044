/** What one round's ranking must be, independently of how a chart computes
    it: every player of the totals map exactly once, by non-increasing total,
    ties in the map's insertion order, rank = position + 1. */
module Ranking {
  import opened Seqs
  import opened Rounds
  import opened Totals

  /** `a` is ranked ahead of `b` under `t`: a larger total, or an equal total
      and an earlier key. */
  predicate Ahead(t: Totals, a: string, b: string) {
    || Get(t, a) > Get(t, b)
    || (Get(t, a) == Get(t, b) && IndexOf(t.keys, a) < IndexOf(t.keys, b))
  }

  /** The names of a ranking, in rank order. */
  function RankedNames(b: seq<PlayerRank>): (ns: seq<string>)
    ensures |ns| == |b|
    ensures forall i :: 0 <= i < |b| ==> ns[i] == b[i].name
  {
    Map(b, (p: PlayerRank) => p.name)
  }

  /** `b` is the ranking of the totals `t` at round `spieltag`. */
  predicate IsStableRanking(b: seq<PlayerRank>, spieltag: int, t: Totals) {
    && |b| == |t.keys|
    && (forall i :: 0 <= i < |b| ==> b[i].spieltag == spieltag && b[i].rank == i + 1)
    && (forall i :: 0 <= i < |b| ==> b[i].name in t.keys && b[i].points == Get(t, b[i].name))
    && (forall n :: n in t.keys ==> n in RankedNames(b))
    && NoDups(RankedNames(b))
    && (forall i, j :: 0 <= i < j < |b| ==> Ahead(t, b[i].name, b[j].name))
  }

  /** Records that list, in order, the names of a strict `Ahead` order of
      exactly the keys, each with rank = position + 1 and its total, are the
      stable ranking. */
  lemma RecordsOfOrder(b: seq<PlayerRank>, spieltag: int, t: Totals, ranking: seq<string>)
    requires |b| == |ranking| == |t.keys|
    requires forall i :: 0 <= i < |b| ==> b[i] == PlayerRank(spieltag, ranking[i], i + 1, Get(t, ranking[i]))
    requires NoDups(ranking)
    requires forall i :: 0 <= i < |ranking| ==> ranking[i] in t.keys
    requires forall n :: n in t.keys ==> n in ranking
    requires forall i, j :: 0 <= i < j < |ranking| ==> Ahead(t, ranking[i], ranking[j])
    ensures IsStableRanking(b, spieltag, t)
  {
    assert RankedNames(b) == ranking;
  }

  /** The records of one player, in order (`data.filter(d => d.name === n)`). */
  function PointsNamed(points: seq<PlayerRank>, n: string): seq<PlayerRank> {
    if |points| == 0 then [] else PointsNamed(points[..|points| - 1], n) + KeepIfNamed(points[|points| - 1], n)
  }

  /** One record of `PointsNamed`: kept when it is player `n`'s. */
  function KeepIfNamed(p: PlayerRank, n: string): seq<PlayerRank> {
    if p.name == n then [p] else []
  }

  /** `PointsNamed` keeps exactly the records of player `n`. */
  lemma {:induction false} PointsNamedMembers(points: seq<PlayerRank>, n: string)
    ensures forall x :: x in PointsNamed(points, n) <==> x in points && x.name == n
    decreases |points|
  {
    if |points| != 0 {
      var prefix := points[..|points| - 1];
      PointsNamedMembers(prefix, n);
      assert points == prefix + [points[|points| - 1]];
    }
  }

  /** The spieltag values of a sequence of points. */
  function SpieltagOf(b: seq<PlayerRank>): (xs: seq<int>)
    ensures |xs| == |b|
    ensures forall i :: 0 <= i < |b| ==> xs[i] == b[i].spieltag
  {
    Map(b, (p: PlayerRank) => p.spieltag)
  }

  /** The ranks of a ranking, in order. */
  function Ranks(b: seq<PlayerRank>): (rs: seq<int>)
    ensures |rs| == |b|
    ensures forall i :: 0 <= i < |b| ==> rs[i] == b[i].rank
  {
    Map(b, (p: PlayerRank) => p.rank)
  }

  /** The ranks of a ranking are exactly 1..k, each once, for the k players
      of the map, and points do not increase down the ranking. */
  lemma RankingShape(b: seq<PlayerRank>, spieltag: int, t: Totals)
    requires IsStableRanking(b, spieltag, t)
    ensures forall k :: k in Ranks(b) <==> 1 <= k <= |t.keys|
    ensures NoDups(Ranks(b))
    ensures forall i, j :: 0 <= i < j < |b| ==> b[i].points >= b[j].points
  {
    forall k | 1 <= k <= |t.keys|
      ensures k in Ranks(b)
    {
      assert Ranks(b)[k - 1] == k;
    }
  }

  /** The first name of a sequence strictly ordered by `Ahead` is ahead of
      every other name in it. */
  lemma HeadAhead(t: Totals, n: seq<string>)
    requires |n| > 0
    requires forall i, j :: 0 <= i < j < |n| ==> Ahead(t, n[i], n[j])
    ensures forall z :: z in n && z != n[0] ==> Ahead(t, n[0], z)
  {
    forall z | z in n && z != n[0]
      ensures Ahead(t, n[0], z)
    {
      var k :| 0 <= k < |n| && n[k] == z;
      assert k != 0;
    }
  }

  /** Two name sequences, both strictly ordered by `Ahead` and holding the
      same names, are the same sequence. */
  lemma {:induction false} AheadOrderUnique(t: Totals, n1: seq<string>, n2: seq<string>)
    requires forall i, j :: 0 <= i < j < |n1| ==> Ahead(t, n1[i], n1[j])
    requires forall i, j :: 0 <= i < j < |n2| ==> Ahead(t, n2[i], n2[j])
    requires |n1| == |n2|
    requires forall x :: x in n1 <==> x in n2
    ensures n1 == n2
    decreases |n1|
  {
    if |n1| != 0 {
      var x := n1[0];
      assert x in n2;
      assert |n2| > 0;
      var y := n2[0];
      assert y in n1;
      HeadAhead(t, n1);
      HeadAhead(t, n2);
      assert x == y;
      forall z
        ensures z in n1[1..] <==> z in n2[1..]
      {
        if z in n1[1..] {
          var k :| 0 <= k < |n1| - 1 && n1[1..][k] == z;
          assert Ahead(t, n1[0], n1[k + 1]);
          assert z in n2;
          var m :| 0 <= m < |n2| && n2[m] == z;
          assert m != 0;
          assert n2[1..][m - 1] == z;
        }
        if z in n2[1..] {
          var k :| 0 <= k < |n2| - 1 && n2[1..][k] == z;
          assert Ahead(t, n2[0], n2[k + 1]);
          assert z in n1;
          var m :| 0 <= m < |n1| && n1[m] == z;
          assert m != 0;
          assert n1[1..][m - 1] == z;
        }
      }
      AheadOrderUnique(t, n1[1..], n2[1..]);
      assert n1 == [x] + n1[1..];
      assert n2 == [x] + n2[1..];
    }
  }

  /** The ranking of a round is determined by the totals alone: however a
      chart computes it, it is the same sequence of records. */
  lemma RankingIsUnique(b1: seq<PlayerRank>, b2: seq<PlayerRank>, spieltag: int, t: Totals)
    requires IsStableRanking(b1, spieltag, t)
    requires IsStableRanking(b2, spieltag, t)
    ensures b1 == b2
  {
    var n1, n2 := RankedNames(b1), RankedNames(b2);
    forall x
      ensures x in n1 <==> x in n2
    {
      if x in n1 {
        var i :| 0 <= i < |n1| && n1[i] == x;
        assert b1[i].name in t.keys;
      }
      if x in n2 {
        var i :| 0 <= i < |n2| && n2[i] == x;
        assert b2[i].name in t.keys;
      }
    }
    AheadOrderUnique(t, n1, n2);
    forall i | 0 <= i < |b1|
      ensures b1[i] == b2[i]
    {
      assert n1[i] == n2[i];
    }
  }
}
