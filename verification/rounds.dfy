/** The round ("Spieltag") documents the rank charts read, and the reference
    definitions the rank-series theorems are stated against: which documents
    count, the names they mention, and the points they award. */
module Rounds {
  import opened Seqs

  /** One element of a document's `players` array; only the two fields the
      charts read are modelled. */
  datatype Entry = Entry(name: string, pts: int)

  /** A parsed `spieltage/<NN>.json` document. */
  datatype Doc = Doc(status: string, spieltag: int, players: seq<Entry>)

  /** The outcome of fetching one round: a response that was not ok, or the
      parsed document. */
  datatype Response = NotOk | Ok(doc: Doc)

  /** A round id from the metadata, with the outcome of fetching it. */
  datatype Round = Round(id: nat, response: Response)

  /** One emitted chart point: the player's rank and cumulative points at a
      round (`PlayerRank` in the Map-based charts, `Point` with `cumWurst`
      in the all-names chart). */
  datatype PlayerRank = PlayerRank(spieltag: int, name: string, rank: int, points: int)

  /** The status that marks a round as not yet played. */
  const NotStarted: string := "not_started"

  /** A round contributes only when its fetch succeeded and it has started. */
  predicate Counts(r: Response) {
    r.Ok? && r.doc.status != NotStarted
  }

  /** The documents of the rounds that count, in round order. */
  function KeptDocs(rounds: seq<Round>): (docs: seq<Doc>)
    ensures |docs| <= |rounds|
    ensures forall k :: 0 <= k < |docs| ==> docs[k].status != NotStarted
  {
    if |rounds| == 0 then [] else KeptDocs(rounds[..|rounds| - 1]) + KeptDoc(rounds[|rounds| - 1])
  }

  /** The document one round contributes: none unless the round counts. */
  function KeptDoc(r: Round): (docs: seq<Doc>)
    ensures |docs| <= 1
    ensures forall k :: 0 <= k < |docs| ==> docs[k].status != NotStarted
  {
    if Counts(r.response) then [r.response.doc] else []
  }

  /** The names of a `players` array, in order. */
  function EntryNames(ps: seq<Entry>): (ns: seq<string>)
    ensures |ns| == |ps|
    ensures forall k :: 0 <= k < |ps| ==> ns[k] == ps[k].name
  {
    Map(ps, (e: Entry) => e.name)
  }
  /** The names of a non-empty `players` array: the first entry's, then
      those of the rest. */
  lemma EntryNamesTail(ps: seq<Entry>)
    requires |ps| > 0
    ensures EntryNames(ps)[0] == ps[0].name
    ensures EntryNames(ps)[1..] == EntryNames(ps[1..])
  {
  }


  /** `docs.flatMap(d => d.players.map(p => p.name))`. */
  function DocNames(docs: seq<Doc>): seq<string> {
    if |docs| == 0 then []
    else DocNames(docs[..|docs| - 1]) + EntryNames(docs[|docs| - 1].players)
  }

  /** The points one `players` array awards to `n`; an entry that repeats a
      name counts every time. */
  function PointsOf(ps: seq<Entry>, n: string): int {
    if |ps| == 0 then 0
    else (if ps[0].name == n then ps[0].pts else 0) + PointsOf(ps[1..], n)
  }

  /** The points `n` collected over `docs`: the prefix sum the charts plot. */
  function DocPoints(docs: seq<Doc>, n: string): int {
    if |docs| == 0 then 0
    else DocPoints(docs[..|docs| - 1], n) + PointsOf(docs[|docs| - 1].players, n)
  }

  /** The players seen so far, in order of first appearance. */
  function SeenNames(rounds: seq<Round>): seq<string> {
    Distinct(DocNames(KeptDocs(rounds)))
  }

  /** Round ids strictly increase along the schedule. */
  predicate AscendingIds(rounds: seq<Round>) {
    forall i, j :: 0 <= i < j < |rounds| ==> rounds[i].id < rounds[j].id
  }

  /** Only rounds that count contribute documents, so appending rounds
      appends their documents. */
  lemma {:induction false} KeptDocsAppend(rounds: seq<Round>, more: seq<Round>)
    ensures KeptDocs(rounds + more) == KeptDocs(rounds) + KeptDocs(more)
    decreases |more|
  {
    if |more| == 0 {
      assert rounds + more == rounds;
    } else {
      var m := more[..|more| - 1];
      assert (rounds + more)[..|rounds + more| - 1] == rounds + m;
      assert (rounds + more)[|rounds + more| - 1] == more[|more| - 1];
      KeptDocsAppend(rounds, m);
    }
  }

  /** The names of `docs + more` are those of `docs`, then those of `more`. */
  lemma {:induction false} DocNamesAppend(docs: seq<Doc>, more: seq<Doc>)
    ensures DocNames(docs + more) == DocNames(docs) + DocNames(more)
    decreases |more|
  {
    if |more| == 0 {
      assert docs + more == docs;
    } else {
      var m, last := more[..|more| - 1], EntryNames(more[|more| - 1].players);
      assert DocNames(docs + more) == DocNames(docs + m) + last by {
        assert (docs + more)[..|docs + more| - 1] == docs + m;
        assert (docs + more)[|docs + more| - 1] == more[|more| - 1];
      }
      DocNamesAppend(docs, m);
      AppendAssoc(DocNames(docs), DocNames(m), last);
    }
  }

  /** A player who is not named in a round gets no points from it. */
  lemma {:induction false} PointsOfAbsent(ps: seq<Entry>, n: string)
    requires n !in EntryNames(ps)
    ensures PointsOf(ps, n) == 0
    decreases |ps|
  {
    if |ps| != 0 {
      assert EntryNames(ps[1..]) == EntryNames(ps)[1..];
      PointsOfAbsent(ps[1..], n);
    }
  }

  /** With no negative points in a round, nobody's total goes down. */
  lemma {:induction false} PointsOfNonNegative(ps: seq<Entry>, n: string)
    requires forall k :: 0 <= k < |ps| ==> ps[k].pts >= 0
    ensures PointsOf(ps, n) >= 0
    decreases |ps|
  {
    if |ps| != 0 {
      PointsOfNonNegative(ps[1..], n);
    }
  }
}
