/** The running totals of the charts: a JavaScript `Map<string, number>`,
    modelled as its keys in insertion order together with the value stored
    under each key. Setting an existing key keeps its position; setting a
    new key appends it. */
module Totals {
  import opened Seqs
  import opened Rounds

  /** One `[name, total]` entry of the map. */
  datatype Pair = Pair(name: string, total: int)

  /** `keys`: `Array.from(m.keys())`; `vals`: what `m.get` returns for a
      present key. */
  datatype Totals = Totals(keys: seq<string>, vals: map<string, int>)

  /** `new Map()`. */
  const Empty: Totals := Totals([], map[])

  /** A map never lists a key twice. */
  predicate DistinctKeys(t: Totals) {
    NoDups(t.keys)
  }

  /** The key order and the stored values describe the same keys. */
  ghost predicate Valid(t: Totals) {
    && DistinctKeys(t)
    && forall n :: n in t.vals <==> n in t.keys
  }

  /** The sort key of the Map-based charts, `entry[1]`. */
  function TotalOf(p: Pair): int {
    p.total
  }

  /** `m.get(n) || 0`: the total stored under `n`, or 0 for an unknown name. */
  function Get(t: Totals, n: string): int {
    if n in t.vals then t.vals[n] else 0
  }

  /** `m.set(n, v)`: an existing key keeps its position and takes the new
      value; a new key goes to the end of the key order. */
  function Put(t: Totals, n: string, v: int): Totals {
    Totals(if n in t.keys then t.keys else t.keys + [n], t.vals[n := v])
  }

  /** `Array.from(m.entries())`: one pair per key, in key order. */
  function Entries(t: Totals): (es: seq<Pair>)
    ensures |es| == |t.keys|
    ensures forall i :: 0 <= i < |es| ==> es[i] == Pair(t.keys[i], Get(t, t.keys[i]))
  {
    seq(|t.keys|, i requires 0 <= i < |t.keys| => Pair(t.keys[i], Get(t, t.keys[i])))
  }

  /** The empty map is well formed, and setting a key keeps a map well
      formed. */
  lemma EmptyValid()
    ensures Valid(Empty) && Empty.keys == [] && forall n :: Get(Empty, n) == 0
  {
  }

  /** Setting a key appends it only when it is new, stores `v` under it and
      leaves every other key's total alone; a well-formed map stays well
      formed. */
  lemma PutSpec(t: Totals, n: string, v: int)
    ensures Put(t, n, v).keys == AddNew(t.keys, [n])
    ensures Get(Put(t, n, v), n) == v
    ensures forall m :: m != n ==> Get(Put(t, n, v), m) == Get(t, m)
    ensures Valid(t) ==> Valid(Put(t, n, v))
  {
    assert AddNew(t.keys, [n]) == AddNew(if n in t.keys then t.keys else t.keys + [n], []);
    if Valid(t) && n !in t.keys {
      AddNewNoDups(t.keys, [n]);
    }
  }

  /** `players.forEach(p => m.set(p.name, (m.get(p.name) || 0) + p.wurstliga_pts))`. */
  function AddPoints(t: Totals, ps: seq<Entry>): Totals
    decreases |ps|
  {
    if |ps| == 0 then t else AddPoints(Credit(t, ps[0]), ps[1..])
  }

  /** One player's entry: `m.set(p.name, (m.get(p.name) || 0) + p.wurstliga_pts)`. */
  function Credit(t: Totals, e: Entry): Totals {
    Put(t, e.name, Get(t, e.name) + e.pts)
  }

  /** After a round every name holds its old total plus the points the round
      awards it. */
  lemma {:induction false} AddPointsGet(t: Totals, ps: seq<Entry>, n: string)
    ensures Get(AddPoints(t, ps), n) == Get(t, n) + PointsOf(ps, n)
    decreases |ps|
  {
    if |ps| != 0 {
      var e := ps[0];
      AddPointsGet(Credit(t, e), ps[1..], n);
    }
  }

  /** `AddPoints` sets the first entry's name, then adds the rest. */
  lemma AddPointsStep(t: Totals, ps: seq<Entry>)
    requires |ps| > 0
    ensures AddPoints(t, ps) == AddPoints(Credit(t, ps[0]), ps[1..])
  {
  }

  /** Names new to the map are appended in order of first appearance. */
  lemma {:induction false} AddPointsKeys(t: Totals, ps: seq<Entry>)
    ensures AddPoints(t, ps).keys == AddNew(t.keys, EntryNames(ps))
    decreases |ps|
  {
    if |ps| != 0 {
      var e := ps[0];
      var t' := Credit(t, e);
      AddPointsStep(t, ps);
      AddPointsKeys(t', ps[1..]);
      EntryNamesTail(ps);
      AddNewStep(t.keys, EntryNames(ps), e.name, EntryNames(ps[1..]), t'.keys, AddPoints(t', ps[1..]).keys);
    }
  }

  /** A round keeps a well-formed map well formed. */
  lemma {:induction false} AddPointsValid(t: Totals, ps: seq<Entry>)
    requires Valid(t)
    ensures Valid(AddPoints(t, ps))
    decreases |ps|
  {
    if |ps| != 0 {
      var e := ps[0];
      var t' := Credit(t, e);
      AddPointsStep(t, ps);
      PutSpec(t, e.name, Get(t, e.name) + e.pts);
      AddPointsValid(t', ps[1..]);
    }
  }

  /** A round whose players all hold keys already leaves the key order as
      it was. */
  lemma AddPointsKnownKeys(t: Totals, ps: seq<Entry>)
    requires forall e :: 0 <= e < |ps| ==> ps[e].name in t.keys
    ensures AddPoints(t, ps).keys == t.keys
  {
    forall e | 0 <= e < |ps|
      ensures EntryNames(ps)[e] in t.keys
    {
      assert EntryNames(ps)[e] == ps[e].name;
    }
    AddNewKnown(t.keys, EntryNames(ps));
    AddPointsKeys(t, ps);
  }

  /** Under distinct keys, an entry is found where its key is. */
  lemma IndexOfEntry(t: Totals, k: int)
    requires DistinctKeys(t)
    requires 0 <= k < |t.keys|
    ensures IndexOf(Entries(t), Entries(t)[k]) == k
    ensures IndexOf(t.keys, t.keys[k]) == k
  {
    IndexOfNoDups(t.keys, k);
    EntriesNoDups(t);
    IndexOfNoDups(Entries(t), k);
  }

  /** Distinct keys make the entries distinct. */
  lemma EntriesNoDups(t: Totals)
    requires DistinctKeys(t)
    ensures NoDups(Entries(t))
  {
    var es := Entries(t);
    forall i, j | 0 <= i < j < |es| ensures es[i] != es[j] {
      assert es[i].name == t.keys[i] && es[j].name == t.keys[j];
    }
  }
}
