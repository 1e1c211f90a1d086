/**
 * The two services the uploader talks to, as oracles whose answers are fixed functions of
 * the request: the sentence-embedding model and the vector index. Each keeps a log of the
 * requests it received, so that the order and the number of calls can be stated.
 */
module Collaborators {
  import opened Wrappers
  import opened Assembly

  /** The sentence-embedding model: `model.encode(texts).tolist()`. */
  class Embedder {
    /** The embeddings returned for a list of texts; `None` when `encode` raises. */
    const encode: seq<string> -> Option<seq<Vector>>
    /** The lists of texts `encode` was called with, in order. */
    ghost var calls: seq<seq<string>>

    constructor (encode: seq<string> -> Option<seq<Vector>>)
      ensures this.encode == encode && calls == []
    {
      this.encode := encode;
      calls := [];
    }

    method Encode(texts: seq<string>) returns (r: Option<seq<Vector>>)
      modifies this
      ensures r == encode(texts)
      ensures calls == old(calls) + [texts]
    {
      calls := calls + [texts];
      r := encode(texts);
    }
  }

  /** What the index stores for one id. */
  datatype Entry = Entry(values: Vector, metadata: Metadata)

  function EntryOf(t: Triple): Entry {
    Entry(t.values, t.metadata)
  }

  /** The index contents after upserting `ts` in order: each triple sets the entry of its id. */
  function Upserted(entries: map<string, Entry>, ts: seq<Triple>): (r: map<string, Entry>)
    ensures forall id :: id in r <==> id in entries || exists j :: 0 <= j < |ts| && ts[j].id == id
    decreases |ts|
  {
    if ts == [] then entries
    else
      var r := Upserted(entries[ts[0].id := EntryOf(ts[0])], ts[1..]);
      assert forall j :: 1 <= j < |ts| ==> ts[j] == ts[1..][j - 1];
      r
  }

  /**
   * Upsert is insert-or-overwrite: an id takes the entry of the last triple carrying it, and
   * an id no triple carries keeps its old entry.
   */
  lemma {:induction false} UpsertedLastWins(entries: map<string, Entry>, ts: seq<Triple>)
    ensures forall j :: 0 <= j < |ts| && (forall j' :: j < j' < |ts| ==> ts[j'].id != ts[j].id)
              ==> Upserted(entries, ts)[ts[j].id] == EntryOf(ts[j])
    ensures forall id :: id in entries && (forall j :: 0 <= j < |ts| ==> ts[j].id != id)
              ==> Upserted(entries, ts)[id] == entries[id]
    decreases |ts|
  {
    if ts != [] {
      var e := entries[ts[0].id := EntryOf(ts[0])];
      UpsertedLastWins(e, ts[1..]);
      assert forall j :: 1 <= j < |ts| ==> ts[j] == ts[1..][j - 1];
    }
  }

  /** Two upserts in a row store what one upsert of both lists would. */
  lemma {:induction false} UpsertedAppend(entries: map<string, Entry>, a: seq<Triple>, b: seq<Triple>)
    ensures Upserted(entries, a + b) == Upserted(Upserted(entries, a), b)
    decreases |a|
  {
    if a != [] {
      assert (a + b)[0] == a[0];
      assert (a + b)[1..] == a[1..] + b;
      UpsertedAppend(entries[a[0].id := EntryOf(a[0])], a[1..], b);
    } else {
      assert a + b == b;
    }
  }

  /** The vector index: `index.upsert(vectors=...)`. */
  class VectorIndex {
    var entries: map<string, Entry>
    /** Whether the service accepts an upsert request; `upsert` raises when it does not. */
    const accepts: seq<Triple> -> bool
    /** The upsert requests sent, in order, accepted or not. */
    ghost var requests: seq<seq<Triple>>

    constructor (accepts: seq<Triple> -> bool)
      ensures entries == map[] && requests == [] && this.accepts == accepts
    {
      entries := map[];
      this.accepts := accepts;
      requests := [];
    }

    /** A rejected request changes nothing in the index. */
    method Upsert(vectors: seq<Triple>) returns (ok: bool)
      modifies this
      ensures ok == accepts(vectors)
      ensures requests == old(requests) + [vectors]
      ensures entries == if ok then Upserted(old(entries), vectors) else old(entries)
    {
      requests := requests + [vectors];
      ok := accepts(vectors);
      if ok {
        entries := Upserted(entries, vectors);
      }
    }
  }
}
