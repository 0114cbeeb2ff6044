/** Sequence helpers shared by the rank-chart model: duplicate-freedom, the
    JavaScript `indexOf` search, and the first-appearance de-duplication that
    `Array.from(new Set(xs))` performs. */
module Seqs {

  /** `s.map(f)`: `f` applied to every element, in order. */
  function Map<A, B>(s: seq<A>, f: A -> B): (r: seq<B>)
    ensures |r| == |s|
    ensures forall i :: 0 <= i < |s| ==> r[i] == f(s[i])
  {
    seq(|s|, i requires 0 <= i < |s| => f(s[i]))
  }

  /** No element occurs twice. */
  predicate NoDups<T(==)>(s: seq<T>) {
    forall i, j :: 0 <= i < j < |s| ==> s[i] != s[j]
  }

  /** `s.indexOf(x)`: the first position holding `x`, or -1 when there is none. */
  function IndexOf<T(==)>(s: seq<T>, x: T): (r: int)
    ensures -1 <= r < |s|
    ensures r == -1 <==> x !in s
    ensures 0 <= r ==> s[r] == x
  {
    if |s| == 0 then -1
    else if s[0] == x then 0
    else
      var k := IndexOf(s[1..], x);
      if k == -1 then -1 else k + 1
  }

  /** No position before the one `indexOf` finds holds `x`. */
  lemma {:induction false} IndexOfFirst<T>(s: seq<T>, x: T, k: int)
    requires 0 <= k < IndexOf(s, x)
    ensures s[k] != x
  {
    if k != 0 {
      IndexOfFirst(s[1..], x, k - 1);
    }
  }

  /** Searching `s + [y]`: positions in `s` come first. */
  lemma {:induction false} IndexOfSnoc<T>(s: seq<T>, y: T, x: T)
    ensures IndexOf(s + [y], x) == if x in s then IndexOf(s, x) else if x == y then |s| else -1
  {
    if |s| != 0 {
      assert (s + [y])[0] == s[0];
      assert (s + [y])[1..] == s[1..] + [y];
      if s[0] != x {
        IndexOfSnoc(s[1..], y, x);
      }
    }
  }

  /** In a duplicate-free sequence the element at position `i` is found at `i`. */
  lemma IndexOfNoDups<T>(s: seq<T>, i: int)
    requires NoDups(s)
    requires 0 <= i < |s|
    ensures IndexOf(s, s[i]) == i
  {
  }

  /** The order in which a JavaScript `Set` that already holds `seen` (in that
      order) lists its elements after `xs` has been added one by one: every
      element of `xs` not yet present is appended. */
  function AddNew<T(==)>(seen: seq<T>, xs: seq<T>): seq<T>
    decreases |xs|
  {
    if |xs| == 0 then seen
    else if xs[0] in seen then AddNew(seen, xs[1..])
    else AddNew(seen + [xs[0]], xs[1..])
  }

  /** Adding keeps what was there, in place, and holds exactly the old
      elements and the added ones. */
  lemma {:induction false} AddNewMembers<T>(seen: seq<T>, xs: seq<T>)
    ensures seen <= AddNew(seen, xs)
    ensures forall x :: x in AddNew(seen, xs) <==> x in seen || x in xs
    decreases |xs|
  {
    if |xs| != 0 {
      var first := if xs[0] in seen then seen else seen + [xs[0]];
      AddNewMembers(first, xs[1..]);
      assert xs == [xs[0]] + xs[1..];
    }
  }

  /** Adding `xs` is adding its first element `x`, then the rest `tail`. */
  lemma AddNewStep<T>(seen: seq<T>, xs: seq<T>, x: T, tail: seq<T>, first: seq<T>, rest: seq<T>)
    requires |xs| > 0 && x == xs[0] && tail == xs[1..]
    requires first == if x in seen then seen else seen + [x]
    requires rest == AddNew(first, tail)
    ensures AddNew(seen, xs) == rest
  {
  }

  /** A set never lists an element twice. */
  lemma {:induction false} AddNewNoDups<T>(seen: seq<T>, xs: seq<T>)
    requires NoDups(seen)
    ensures NoDups(AddNew(seen, xs))
    decreases |xs|
  {
    if |xs| != 0 {
      if xs[0] in seen {
        AddNewNoDups(seen, xs[1..]);
      } else {
        AddNewNoDups(seen + [xs[0]], xs[1..]);
      }
    }
  }

  /** `Array.from(new Set(xs))`. */
  function Distinct<T(==,!new)>(xs: seq<T>): (r: seq<T>)
    ensures NoDups(r)
    ensures forall x :: x in r <==> x in xs
  {
    AddNewNoDups([], xs);
    AddNewMembers([], xs);
    AddNew([], xs)
  }

  /** Adding elements that are all new, each once, appends them. */
  lemma {:induction false} AddNewFresh<T>(seen: seq<T>, xs: seq<T>)
    requires NoDups(seen + xs)
    ensures AddNew(seen, xs) == seen + xs
    decreases |xs|
  {
    if |xs| != 0 {
      forall k | 0 <= k < |seen|
        ensures seen[k] != xs[0]
      {
        assert (seen + xs)[k] == seen[k] && (seen + xs)[|seen|] == xs[0];
      }
      assert seen + xs == (seen + [xs[0]]) + xs[1..];
      AddNewFresh(seen + [xs[0]], xs[1..]);
    }
  }

  /** Adding `xs + ys` is adding `xs`, then `ys`. */
  lemma {:induction false} AddNewAppend<T>(seen: seq<T>, xs: seq<T>, ys: seq<T>)
    ensures AddNew(seen, xs + ys) == AddNew(AddNew(seen, xs), ys)
    decreases |xs|
  {
    if |xs| == 0 {
      assert xs + ys == ys;
    } else {
      assert (xs + ys)[0] == xs[0];
      assert (xs + ys)[1..] == xs[1..] + ys;
      if xs[0] in seen {
        AddNewAppend(seen, xs[1..], ys);
      } else {
        AddNewAppend(seen + [xs[0]], xs[1..], ys);
      }
    }
  }

  /** Adding only elements that are already present changes nothing. */
  lemma {:induction false} AddNewKnown<T>(seen: seq<T>, xs: seq<T>)
    requires forall i :: 0 <= i < |xs| ==> xs[i] in seen
    ensures AddNew(seen, xs) == seen
    decreases |xs|
  {
    if |xs| != 0 {
      assert xs[0] in seen;
      AddNewKnown(seen, xs[1..]);
    }
  }

  /** The elements of `r` occur in `xs`, in the order of their first
      appearance there. */
  predicate FirstAppearanceOrder<T(==)>(r: seq<T>, xs: seq<T>) {
    && (forall i :: 0 <= i < |r| ==> 0 <= IndexOf(xs, r[i]))
    && (forall i, j :: 0 <= i < j < |r| ==> IndexOf(xs, r[i]) < IndexOf(xs, r[j]))
  }

  /** The elements that `AddNew` appends come in the order of their first
      appearance in `xs`: stated for one pair of positions. */
  lemma {:induction false} AddNewFirstAppearance<T>(seen: seq<T>, xs: seq<T>, i: int, j: int)
    requires NoDups(seen)
    requires |seen| <= i < j < |AddNew(seen, xs)|
    ensures 0 <= IndexOf(xs, AddNew(seen, xs)[i]) < IndexOf(xs, AddNew(seen, xs)[j])
    decreases |xs|
  {
    var r := AddNew(seen, xs);
    if xs[0] in seen {
      assert r == AddNew(seen, xs[1..]);
      AddNewFirstAppearance(seen, xs[1..], i, j);
      NotSeenIn(seen, xs[1..], i);
      NotSeenIn(seen, xs[1..], j);
      IndexOfTail(xs, r[i]);
      IndexOfTail(xs, r[j]);
    } else {
      var seen' := seen + [xs[0]];
      assert NoDups(seen');
      assert r == AddNew(seen', xs[1..]);
      AddNewMembers(seen', xs[1..]);
      assert r[|seen|] == seen'[|seen|];
      NotSeenIn(seen', xs[1..], j);
      IndexOfTail(xs, r[j]);
      if i > |seen| {
        AddNewFirstAppearance(seen', xs[1..], i, j);
        NotSeenIn(seen', xs[1..], i);
        IndexOfTail(xs, r[i]);
      }
    }
  }

  /** Past a different first element, `indexOf` searches the rest. */
  lemma IndexOfTail<T>(xs: seq<T>, y: T)
    requires |xs| > 0 && y != xs[0] && y in xs[1..]
    ensures IndexOf(xs, y) == IndexOf(xs[1..], y) + 1
  {
  }

  /** A position past `seen` in `AddNew(seen, xs)` holds an element of `xs`
      that is not in `seen`. */
  lemma {:induction false} NotSeenIn<T>(seen: seq<T>, xs: seq<T>, i: int)
    requires |seen| <= i < |AddNew(seen, xs)|
    ensures AddNew(seen, xs)[i] !in seen
    ensures AddNew(seen, xs)[i] in xs
    decreases |xs|
  {
    var r := AddNew(seen, xs);
    if xs[0] in seen {
      NotSeenIn(seen, xs[1..], i);
    } else {
      var seen' := seen + [xs[0]];
      AddNewMembers(seen', xs[1..]);
      if i == |seen| {
        assert r[i] == seen'[i];
      } else {
        NotSeenIn(seen', xs[1..], i);
      }
    }
  }

  /** `Array.from(new Set(xs))` lists the elements of `xs` in the order of
      their first appearance. */
  lemma DistinctFirstAppearance<T(!new)>(xs: seq<T>)
    ensures FirstAppearanceOrder(Distinct(xs), xs)
  {
    AddNewInOrder(xs, Distinct(xs));
  }

  /** `AddNewFirstAppearance` for every pair, starting from an empty set. */
  lemma AddNewInOrder<T>(xs: seq<T>, r: seq<T>)
    requires r == AddNew([], xs)
    ensures FirstAppearanceOrder(r, xs)
  {
    forall i, j | 0 <= i < j < |r|
      ensures 0 <= IndexOf(xs, r[i]) < IndexOf(xs, r[j])
    {
      AddNewFirstAppearance([], xs, i, j);
    }
    forall i | 0 <= i < |r|
      ensures 0 <= IndexOf(xs, r[i])
    {
      NotSeenIn([], xs, i);
    }
  }

  /** Concatenation is associative. */
  lemma AppendAssoc<T>(a: seq<T>, b: seq<T>, c: seq<T>)
    ensures (a + b) + c == a + (b + c)
  {
  }

  /** Taking one more element appends it. */
  lemma TakeSnoc<T>(s: seq<T>, i: int)
    requires 0 <= i < |s|
    ensures s[..i + 1] == s[..i] + [s[i]]
  {
  }

  /** A non-empty sequence is its front followed by its last element. */
  lemma FrontSnoc<T>(s: seq<T>)
    requires |s| > 0
    ensures s[..|s| - 1] + [s[|s| - 1]] == s
  {
  }

  /** `n * k` by repeated addition: where the `n`-th block of `k` elements
      starts. Block offsets are written with it so that the proofs about
      them need only linear arithmetic. */
  function Times(n: nat, k: nat): nat {
    if n == 0 then 0 else Times(n - 1, k) + k
  }

  /** `Times` is multiplication. */
  lemma {:induction false} TimesIsProduct(n: nat, k: nat)
    ensures Times(n, k) == n * k
  {
    if n != 0 {
      TimesIsProduct(n - 1, k);
    }
  }

  /** More blocks reach further. */
  lemma {:induction false} TimesLe(a: nat, b: nat, k: nat)
    requires a <= b
    ensures Times(a, k) <= Times(b, k)
    decreases b - a
  {
    if a < b {
      TimesLe(a, b - 1, k);
    }
  }

  /** `f(0) + f(1) + ... + f(n - 1)`: the blocks `f` yields, one after the
      other. */
  function Blocks<T>(n: nat, f: nat -> seq<T>): seq<T> {
    if n == 0 then [] else Blocks(n - 1, f) + f(n - 1)
  }

  /** Each of the first `n` blocks has `k` elements. */
  predicate SameLength<T>(n: nat, f: nat -> seq<T>, k: nat) {
    forall j: nat :: j < n ==> |f(j)| == k
  }

  /** `n` blocks of `k` elements make `Times(n, k)` elements. */
  lemma {:induction false} BlocksLength<T>(n: nat, f: nat -> seq<T>, k: nat)
    requires SameLength(n, f, k)
    ensures |Blocks(n, f)| == Times(n, k)
  {
    if n != 0 {
      BlocksLength(n - 1, f, k);
    }
  }

  /** With blocks of `k` elements, the `i`-th block starts at `Times(i, k)`,
      however many blocks follow it. */
  lemma {:induction false} BlocksAt<T>(n: nat, f: nat -> seq<T>, k: nat, i: nat)
    requires SameLength(n, f, k)
    requires i < n
    ensures Times(i, k) + k <= |Blocks(n, f)|
    ensures Blocks(n, f)[Times(i, k) .. Times(i, k) + k] == f(i)
  {
    var front := Blocks(n - 1, f);
    BlocksLength(n - 1, f, k);
    if i == n - 1 {
      assert Blocks(n, f)[|front| .. |front| + k] == f(i);
    } else {
      BlocksAt(n - 1, f, k, i);
      TimesLe(i + 1, n - 1, k);
      assert Blocks(n, f)[Times(i, k) .. Times(i, k) + k] == front[Times(i, k) .. Times(i, k) + k];
    }
  }

  /** `Math.min(a, b)`. */
  function Min(a: int, b: int): int {
    if a <= b then a else b
  }

  /** `Math.max(...xs)` for a non-empty `xs`: an element that no element
      exceeds. */
  function Max(xs: seq<int>): (m: int)
    requires |xs| > 0
    ensures forall i :: 0 <= i < |xs| ==> xs[i] <= m
    ensures exists i :: 0 <= i < |xs| && xs[i] == m
  {
    var last := xs[|xs| - 1];
    if |xs| == 1 then last
    else
      var m := Max(xs[..|xs| - 1]);
      assert forall i :: 0 <= i < |xs| - 1 ==> xs[i] == xs[..|xs| - 1][i];
      if last <= m then m else last
  }

  /** In a duplicate-free sequence every element occurs once. */
  lemma {:induction false} NoDupsCount<T>(s: seq<T>, x: T)
    requires NoDups(s)
    ensures multiset(s)[x] == if x in s then 1 else 0
    decreases |s|
  {
    if |s| != 0 {
      var rest := s[1..];
      assert s == [s[0]] + rest;
      assert NoDups(rest) by {
        forall i, j | 0 <= i < j < |rest|
          ensures rest[i] != rest[j]
        {
          assert rest[i] == s[i + 1] && rest[j] == s[j + 1];
        }
      }
      assert s[0] !in rest by {
        forall k | 0 <= k < |rest|
          ensures rest[k] != s[0]
        {
          assert rest[k] == s[k + 1];
        }
      }
      NoDupsCount(rest, x);
    }
  }

  /** Two duplicate-free sequences holding the same elements are equally
      long. */
  lemma SameMembersSameLength<T>(a: seq<T>, b: seq<T>)
    requires NoDups(a) && NoDups(b)
    requires forall x :: x in a <==> x in b
    ensures |a| == |b|
  {
    forall x
      ensures multiset(a)[x] == multiset(b)[x]
    {
      NoDupsCount(a, x);
      NoDupsCount(b, x);
    }
    assert multiset(a) == multiset(b);
  }
}
