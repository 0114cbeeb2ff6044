/** `Array.prototype.sort` with a numeric comparator, which every engine since
    ECMAScript 2019 must perform stably (section 23.1.3.30 of ECMA-262). The
    comparators of the rank charts all have the form `(a, b) => key(b) - key(a)`
    (largest key first) or `(a, b) => key(a) - key(b)` (smallest key first);
    here the sort is by descending `key`, and an ascending sort passes the
    negated key. The algorithm is an insertion sort. Where the charts depend on
    the result, it is pinned down independently of the algorithm: a stable
    ranking of a totals map is unique (`Ranking.RankingIsUnique`), and so is
    the ascending order of a list of ids (`SortNumbersUnique`). */
module StableSort {
  import opened Seqs

  /** Every element's key is at least that of every later element. */
  predicate SortedDesc<T>(s: seq<T>, key: T -> int) {
    forall i, j :: 0 <= i < j < |s| ==> key(s[i]) >= key(s[j])
  }

  /** Equal keys keep the relative order they had in `orig`. */
  predicate StableWrt<T(==)>(r: seq<T>, orig: seq<T>, key: T -> int) {
    forall i, j :: 0 <= i < j < |r| && key(r[i]) == key(r[j]) && r[i] != r[j] ==>
      IndexOf(orig, r[i]) < IndexOf(orig, r[j])
  }

  /** Where `x` goes when inserted into `s`: past every element with a larger
      key, in front of the first one whose key is not larger. */
  function InsertPos<T>(x: T, s: seq<T>, key: T -> int): (p: nat)
    ensures p <= |s|
  {
    if |s| == 0 || key(s[0]) <= key(x) then 0 else 1 + InsertPos(x, s[1..], key)
  }

  /** Every element before the insertion point has a larger key than `x`;
      the one at it, if any, does not. */
  lemma {:induction false} InsertPosBounds<T>(x: T, s: seq<T>, key: T -> int)
    ensures forall k :: 0 <= k < InsertPos(x, s, key) ==> key(s[k]) > key(x)
    ensures InsertPos(x, s, key) < |s| ==> key(s[InsertPos(x, s, key)]) <= key(x)
  {
    if |s| != 0 && key(s[0]) > key(x) {
      InsertPosBounds(x, s[1..], key);
    }
  }

  function Insert<T>(x: T, s: seq<T>, key: T -> int): seq<T> {
    var p := InsertPos(x, s, key);
    s[..p] + [x] + s[p..]
  }

  /** The stable sort of `s` by descending `key`. */
  function Sort<T>(s: seq<T>, key: T -> int): seq<T> {
    if |s| == 0 then [] else Insert(s[0], Sort(s[1..], key), key)
  }

  /** Inserting adds exactly `x`. */
  lemma InsertPermutes<T>(x: T, s: seq<T>, key: T -> int)
    ensures multiset(Insert(x, s, key)) == multiset(s) + multiset{x}
  {
    var p := InsertPos(x, s, key);
    assert s == s[..p] + s[p..];
  }

  /** Inserting into a sorted sequence keeps it sorted. */
  lemma InsertSorted<T>(x: T, s: seq<T>, key: T -> int)
    requires SortedDesc(s, key)
    ensures SortedDesc(Insert(x, s, key), key)
  {
    var p, r := InsertPos(x, s, key), Insert(x, s, key);
    InsertShape(x, s, key);
    InsertPosBounds(x, s, key);
    forall i, j | 0 <= i < j < |r|
      ensures key(r[i]) >= key(r[j])
    {
      if j < p {
        assert r[i] == s[i] && r[j] == s[j];
      } else if j == p {
        assert r[i] == s[i];
      } else if i < p {
        assert r[i] == s[i] && r[j] == s[j - 1];
      } else if i == p {
        assert r[j] == s[j - 1];
      } else {
        assert r[i] == s[i - 1] && r[j] == s[j - 1];
      }
    }
  }

  /** The elements of `Insert(x, s, key)`: those of `s` before the insertion
      point, then `x`, then the rest of `s`. */
  lemma InsertShape<T>(x: T, s: seq<T>, key: T -> int)
    ensures var p, r := InsertPos(x, s, key), Insert(x, s, key);
      && |r| == |s| + 1 && r[p] == x
      && (forall k :: 0 <= k < p ==> r[k] == s[k])
      && (forall k :: p < k < |r| ==> r[k] == s[k - 1])
  {
  }

  /** The result of the sort is a permutation of its input, sorted by
      descending key. */
  lemma {:induction false} SortSortsPermutation<T>(s: seq<T>, key: T -> int)
    ensures multiset(Sort(s, key)) == multiset(s)
    ensures SortedDesc(Sort(s, key), key)
    decreases |s|
  {
    if |s| != 0 {
      assert s == [s[0]] + s[1..];
      SortSortsPermutation(s[1..], key);
      InsertPermutes(s[0], Sort(s[1..], key), key);
      InsertSorted(s[0], Sort(s[1..], key), key);
    }
  }

  /** Searching `[x] + rest` for an element other than `x` that occurs in
      `rest` finds it one position later than in `rest`. */
  lemma IndexOfCons<T>(x: T, rest: seq<T>, y: T)
    requires y != x && y in rest
    ensures IndexOf([x] + rest, y) == IndexOf(rest, y) + 1
  {
    assert ([x] + rest)[1..] == rest;
  }

  /** One pair of positions of the sorted result keeps its input order. */
  lemma StablePair<T>(x: T, rest: seq<T>, key: T -> int, i: int, j: int)
    requires x !in rest
    requires StableWrt(Sort(rest, key), rest, key)
    requires multiset(Sort(rest, key)) == multiset(rest)
    requires var r := Insert(x, Sort(rest, key), key);
      0 <= i < j < |r| && key(r[i]) == key(r[j]) && r[i] != r[j]
    ensures var r := Insert(x, Sort(rest, key), key);
      IndexOf([x] + rest, r[i]) < IndexOf([x] + rest, r[j])
  {
    var t := Sort(rest, key);
    var r := Insert(x, t, key);
    InsertShape(x, t, key);
    InsertPosBounds(x, t, key);
    var p := InsertPos(x, t, key);
    if j == p {
      assert false;
    } else if i == p {
      assert r[j] == t[j - 1] && t[j - 1] in multiset(rest);
      IndexOfCons(x, rest, r[j]);
    } else {
      var i' := if i < p then i else i - 1;
      var j' := if j < p then j else j - 1;
      assert r[i] == t[i'] && r[j] == t[j'] && i' < j';
      assert t[i'] in multiset(rest) && t[j'] in multiset(rest);
      IndexOfCons(x, rest, r[i]);
      IndexOfCons(x, rest, r[j]);
    }
  }

  /** Elements with equal keys keep their input order (for a duplicate-free
      input, where "input order" is well defined). */
  lemma {:induction false} SortIsStable<T>(s: seq<T>, key: T -> int)
    requires NoDups(s)
    ensures StableWrt(Sort(s, key), s, key)
    decreases |s|
  {
    if |s| != 0 {
      var x, rest := s[0], s[1..];
      assert s == [x] + rest;
      SortIsStable(rest, key);
      SortSortsPermutation(rest, key);
      var r := Sort(s, key);
      forall i, j | 0 <= i < j < |r| && key(r[i]) == key(r[j]) && r[i] != r[j]
        ensures IndexOf(s, r[i]) < IndexOf(s, r[j])
      {
        StablePair(x, rest, key, i, j);
      }
    }
  }

  /** A duplicate-free input gives a duplicate-free result. */
  lemma {:induction false} SortKeepsNoDups<T>(s: seq<T>, key: T -> int)
    requires NoDups(s)
    ensures NoDups(Sort(s, key))
    decreases |s|
  {
    if |s| != 0 {
      var x, rest := s[0], s[1..];
      var t := Sort(rest, key);
      SortKeepsNoDups(rest, key);
      SortSortsPermutation(rest, key);
      InsertShape(x, t, key);
      var p := InsertPos(x, t, key);
      var r := Sort(s, key);
      assert x !in multiset(t);
      forall i, j | 0 <= i < j < |r|
        ensures r[i] != r[j]
      {
        if i != p && j != p {
          var i' := if i < p then i else i - 1;
          var j' := if j < p then j else j - 1;
          assert r[i] == t[i'] && r[j] == t[j'] && i' < j';
        } else if i == p {
          assert r[j] == t[j - 1] && t[j - 1] in multiset(t);
        } else {
          assert r[i] == t[i] && t[i] in multiset(t);
        }
      }
    }
  }

  /** Everything the sort promises about a duplicate-free input: the result
      is a duplicate-free permutation of it, sorted by descending key, in which
      equal keys keep their input order. */
  lemma SortCorrect<T>(s: seq<T>, key: T -> int)
    requires NoDups(s)
    ensures multiset(Sort(s, key)) == multiset(s)
    ensures SortedDesc(Sort(s, key), key)
    ensures StableWrt(Sort(s, key), s, key)
    ensures NoDups(Sort(s, key))
  {
    SortSortsPermutation(s, key);
    SortIsStable(s, key);
    SortKeepsNoDups(s, key);
  }

  /** The sort keeps every element and adds none. */
  lemma SortMembers<T>(s: seq<T>, key: T -> int)
    ensures |Sort(s, key)| == |s|
    ensures forall x :: x in Sort(s, key) <==> x in s
  {
    var r := Sort(s, key);
    SortSortsPermutation(s, key);
    assert |r| == |multiset(r)| == |multiset(s)| == |s|;
    forall x
      ensures x in r <==> x in s
    {
      assert x in r <==> x in multiset(r);
      assert x in s <==> x in multiset(s);
    }
  }

  /** Sorting a sequence that is already in order leaves it unchanged. */
  lemma {:induction false} SortSorted<T>(s: seq<T>, key: T -> int)
    requires SortedDesc(s, key)
    ensures Sort(s, key) == s
    decreases |s|
  {
    if |s| != 0 {
      SortSorted(s[1..], key);
      assert InsertPos(s[0], s[1..], key) == 0;
      assert s == [s[0]] + s[1..];
    }
  }

  /** The sort key of `(a, b) => a - b` (smallest number first). */
  function Ascending(x: int): int {
    -x
  }

  /** Every number is at most every later one. */
  predicate NonDecreasing(xs: seq<int>) {
    forall i, j :: 0 <= i < j < |xs| ==> xs[i] <= xs[j]
  }

  /** `xs.sort((a, b) => a - b)`: the same numbers, smallest first. */
  function SortNumbers(xs: seq<int>): (r: seq<int>)
    ensures multiset(r) == multiset(xs)
    ensures NonDecreasing(r)
  {
    SortSortsPermutation(xs, Ascending);
    Sort(xs, Ascending)
  }

  /** Two sequences of numbers in ascending order that hold the same
      numbers, counted with multiplicity, are equal: sorting numbers has only
      one possible result. */
  lemma {:induction false} SortedPermutationUnique(a: seq<int>, b: seq<int>)
    requires NonDecreasing(a) && NonDecreasing(b)
    requires multiset(a) == multiset(b)
    ensures a == b
    decreases |a|
  {
    assert |a| == |b| by {
      assert |a| == |multiset(a)| == |multiset(b)| == |b|;
    }
    if |a| != 0 {
      SmallestFirst(a, b);
      var a', b' := a[1..], b[1..];
      assert multiset(a) == multiset{a[0]} + multiset(a') by {
        assert a == [a[0]] + a';
      }
      assert multiset(b) == multiset{b[0]} + multiset(b') by {
        assert b == [b[0]] + b';
      }
      assert multiset(a') == multiset(b') by {
        assert multiset(a') == multiset(a) - multiset{a[0]};
        assert multiset(b') == multiset(b) - multiset{b[0]};
      }
      TailNonDecreasing(a);
      TailNonDecreasing(b);
      SortedPermutationUnique(a', b');
      assert a == [a[0]] + a' && b == [b[0]] + b';
    }
  }

  /** Two ascending arrangements of the same numbers start with the same
      (smallest) number. */
  lemma SmallestFirst(a: seq<int>, b: seq<int>)
    requires NonDecreasing(a) && NonDecreasing(b)
    requires multiset(a) == multiset(b)
    requires |a| > 0 && |b| > 0
    ensures a[0] == b[0]
  {
    assert a[0] in multiset(b) && b[0] in multiset(a);
    var i :| 0 <= i < |b| && b[i] == a[0];
    var j :| 0 <= j < |a| && a[j] == b[0];
    assert b[0] <= b[i] && a[0] <= a[j];
  }

  /** Dropping the first number keeps a sequence ascending. */
  lemma TailNonDecreasing(a: seq<int>)
    requires NonDecreasing(a) && |a| > 0
    ensures NonDecreasing(a[1..])
  {
    forall i, j | 0 <= i < j < |a| - 1
      ensures a[1..][i] <= a[1..][j]
    {
      assert a[1..][i] == a[i + 1] && a[1..][j] == a[j + 1];
    }
  }

  /** The sorted numbers are the one ascending arrangement of `xs`. */
  lemma SortNumbersUnique(xs: seq<int>, ys: seq<int>)
    requires NonDecreasing(ys) && multiset(ys) == multiset(xs)
    ensures SortNumbers(xs) == ys
  {
    SortedPermutationUnique(SortNumbers(xs), ys);
  }

  /** Sorting distinct numbers puts them in strictly ascending order. */
  lemma SortNumbersStrict(xs: seq<int>)
    requires NoDups(xs)
    ensures NoDups(SortNumbers(xs))
    ensures forall i, j :: 0 <= i < j < |SortNumbers(xs)| ==> SortNumbers(xs)[i] < SortNumbers(xs)[j]
  {
    SortKeepsNoDups(xs, Ascending);
  }
}
