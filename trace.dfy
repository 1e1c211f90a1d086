/**
 * What the batch loop of `upload_to_pinecone` does over a whole call: the batches are handled
 * in order, every one before the first exception is embedded, upserted and reported, the
 * batch that raises is the last one the services see, and the progress counts are the
 * running totals `min((k+1)*batch_size, len(data))`.
 */
module UploadTrace {
  import opened Seqs
  import opened Wrappers
  import opened KeySanitizer
  import opened Records
  import opened Batching
  import opened Assembly
  import opened Uploader

  /** A batch that went through without an exception was embedded and upserted. */
  predicate Coherent(h: BatchRun) {
    h.error.None? ==> h.texts.Some? && h.triples.Some?
  }

  /**
   * Batches `0..n-1` were handled without an exception: each one's texts went to the model,
   * its list went to the index, and the index accepted it.
   */
  ghost predicate Committed(bs: seq<seq<Record>>, handle: seq<Record> -> BatchRun, n: nat, r: Run) {
    && n <= |bs| && |r.committed| == n && |r.encoded| >= n && |r.upserted| >= n
    && forall j :: 0 <= j < n ==>
         && handle(bs[j]) == BatchRun(Some(r.encoded[j]), Some(r.committed[j]), None)
         && r.upserted[j] == r.committed[j]
  }

  lemma CommittedAt(bs: seq<seq<Record>>, handle: seq<Record> -> BatchRun, n: nat, r: Run, k: nat)
    requires Committed(bs, handle, n, r) && k < n
    ensures k < |bs| && k < |r.encoded| && handle(bs[k]) == BatchRun(Some(r.encoded[k]), Some(r.committed[k]), None)
  {
  }

  /** Report `j` is the number of records in batches `0..j`. */
  ghost predicate Reported<T>(bs: seq<seq<T>>, reports: seq<nat>) {
    && |reports| <= |bs|
    && forall j :: 0 <= j < |reports| ==> reports[j] == |Flatten(bs[..j + 1])|
  }

  /** Batches `0..k-1` went through, and the run made no call for any later batch. */
  ghost predicate Succeeded(bs: seq<seq<Record>>, handle: seq<Record> -> BatchRun, k: nat, r: Run) {
    && Committed(bs, handle, k, r)
    && |r.encoded| == k && |r.upserted| == k && |r.reports| == k
    && Reported(bs, r.reports)
  }

  /**
   * How the loop ended, `f` being the number of batches committed: batches `0..f-1` succeeded
   * and were reported; either all batches did and nothing failed, or batch `f` raised, its
   * exception ends the loop, and the services saw no call after the ones batch `f` made.
   */
  ghost predicate Ended(bs: seq<seq<Record>>, handle: seq<Record> -> BatchRun, r: Run) {
    var f := |r.committed|;
    && Committed(bs, handle, f, r)
    && |r.reports| == f
    && Reported(bs, r.reports)
    && (f == |bs| ==> r.failure.None? && |r.encoded| == f && |r.upserted| == f)
    && (f < |bs| ==>
         var h := handle(bs[f]);
         && h.error.Some?
         && r.failure == Some(BatchFailure(f, h.error.value))
         && r.encoded == r.encoded[..f] + ListOf(h.texts)
         && r.upserted == r.upserted[..f] + ListOf(h.triples))
  }

  lemma FlattenTake<T>(ss: seq<seq<T>>, k: nat)
    requires k < |ss|
    ensures Flatten(ss[..k + 1]) == Flatten(ss[..k]) + ss[k]
  {
    assert ss[..k + 1] == ss[..k] + [ss[k]];
    FlattenAppend(ss[..k], [ss[k]]);
    FlattenCons(ss[k], []);
  }

  /** A batch that succeeds extends the successful prefix by one. */
  lemma SucceededStep(bs: seq<seq<Record>>, handle: seq<Record> -> BatchRun, k: nat, done: nat, r: Run)
    requires Succeeded(bs, handle, k, r) && k < |bs| && done == |Flatten(bs[..k])|
    requires Coherent(handle(bs[k])) && handle(bs[k]).error.None?
    ensures Succeeded(bs, handle, k + 1, Step(r, handle(bs[k]), k, done, |bs[k]|))
    ensures Step(r, handle(bs[k]), k, done, |bs[k]|).failure.None?
    ensures done + |bs[k]| == |Flatten(bs[..k + 1])|
  {
    FlattenTake(bs, k);
  }

  /** A batch that raises ends the loop right after the calls it made. */
  lemma EndedAtFailure(bs: seq<seq<Record>>, handle: seq<Record> -> BatchRun, k: nat, done: nat, r: Run,
                       final: Run)
    requires Succeeded(bs, handle, k, r) && k < |bs| && handle(bs[k]).error.Some?
    requires final == Step(r, handle(bs[k]), k, done, |bs[k]|)
    ensures Ended(bs, handle, final)
  {
    assert final.encoded[..k] == r.encoded;
    assert final.upserted[..k] == r.upserted;
  }

  /** A loop that went through every batch ends as `Ended` says. */
  lemma SucceededEnded(bs: seq<seq<Record>>, handle: seq<Record> -> BatchRun, r: Run, final: Run)
    requires Succeeded(bs, handle, |bs|, r) && r.failure.None? && final == r
    ensures Ended(bs, handle, final)
  {
  }

  /** The loop ends at batch `k` when there is none left or batch `k` raises. */
  lemma EndedAt(bs: seq<seq<Record>>, handle: seq<Record> -> BatchRun, k: nat, done: nat, r: Run, final: Run)
    requires Succeeded(bs, handle, k, r) && r.failure.None?
    requires k <= |bs| && RunFrom(bs, k, done, r, handle) == final
    requires k < |bs| ==> handle(bs[k]).error.Some?
    ensures Ended(bs, handle, final)
  {
    if k < |bs| {
      var next := Step(r, handle(bs[k]), k, done, |bs[k]|);
      RunFromNext(bs, k, done, r, final, handle);
      RunFromDone(bs, k + 1, done + |bs[k]|, next, handle);
      EndedAtFailure(bs, handle, k, done, r, final);
    } else {
      RunFromDone(bs, k, done, r, handle);
      SucceededEnded(bs, handle, r, final);
    }
  }

  /** From a successful prefix, the rest of the loop, whose outcome is `final`, ends as `Ended` says. */
  lemma {:induction false} RunFromEnded(bs: seq<seq<Record>>, handle: seq<Record> -> BatchRun,
                                        k: nat, done: nat, r: Run, final: Run)
    requires Succeeded(bs, handle, k, r) && r.failure.None? && done == |Flatten(bs[..k])|
    requires forall j :: 0 <= j < |bs| ==> Coherent(handle(bs[j]))
    requires k <= |bs| && RunFrom(bs, k, done, r, handle) == final
    ensures Ended(bs, handle, final)
    decreases |bs| - k
  {
    if k < |bs| && handle(bs[k]).error.None? {
      SucceededStep(bs, handle, k, done, r);
      RunFromNext(bs, k, done, r, final, handle);
      RunFromEnded(bs, handle, k + 1, done + |bs[k]|, Step(r, handle(bs[k]), k, done, |bs[k]|), final);
    } else {
      EndedAt(bs, handle, k, done, r, final);
    }
  }

  /**
   * The loop over the batches of `data` stops at the first exception: with `f` batches
   * committed, batches `0..f-1` went through in order and were reported, and either every
   * batch did and the loop ended normally, or batch `f` raised, its exception is the one the
   * loop ends with, and neither service saw a call for any batch after it.
   */
  lemma RunStopsAtFirstFailure(data: seq<Record>, encode: seq<string> -> Option<seq<Vector>>,
                               accepts: seq<Triple> -> bool)
    ensures Ended(Batches(data, BatchSize), Handler(encode, accepts), RunBatches(data, encode, accepts))
  {
    var bs := Batches(data, BatchSize);
    assert Flatten(bs[..0]) == [];
    RunFromEnded(bs, Handler(encode, accepts), 0, 0, NoRun, RunBatches(data, encode, accepts));
  }

  /** The records in the first `k` batches: `min(k*batch_size, len(data))`. */
  lemma RecordsInBatches(data: seq<Record>, k: nat)
    requires k <= |Batches(data, BatchSize)|
    ensures |Flatten(Batches(data, BatchSize)[..k])| == Min(k * BatchSize, |data|)
  {
    BatchesPrefix(data, BatchSize, k);
  }

  lemma ReportedTotals(data: seq<Record>, reports: seq<nat>)
    requires Reported(Batches(data, BatchSize), reports)
    ensures forall j :: 0 <= j < |reports| ==> reports[j] == Min((j + 1) * BatchSize, |data|)
  {
    forall j | 0 <= j < |reports|
      ensures reports[j] == Min((j + 1) * BatchSize, |data|)
    {
      RecordsInBatches(data, j + 1);
    }
  }

  lemma EndedPrefix(data: seq<Record>, handle: seq<Record> -> BatchRun, run: Run)
    requires Ended(Batches(data, BatchSize), handle, run)
    ensures |run.committed| <= |Batches(data, BatchSize)|
    ensures Flatten(Batches(data, BatchSize)[..|run.committed|])
         == data[..Min(|run.committed| * BatchSize, |data|)]
  {
    BatchesPrefix(data, BatchSize, |run.committed|);
  }

  lemma EndedCompleted(data: seq<Record>, handle: seq<Record> -> BatchRun, run: Run)
    requires Ended(Batches(data, BatchSize), handle, run) && run.failure.None?
    ensures |run.committed| == BatchCount(|data|, BatchSize)
    ensures data != [] ==> |run.reports| > 0 && run.reports[|run.reports| - 1] == |data|
  {
    var bs := Batches(data, BatchSize);
    BatchesShape(data, BatchSize);
    BatchIndexInRange(data, BatchSize, |bs|);
    if data != [] {
      ReportedTotals(data, run.reports);
    }
  }

  /**
   * The progress counts are the running totals `min((k+1)*batch_size, len(data))`, and the
   * records handled, `f` batches having been committed, are the first `min(f*batch_size,
   * len(data))` records of the data.
   */
  lemma RunReportsProgress(data: seq<Record>, encode: seq<string> -> Option<seq<Vector>>,
                           accepts: seq<Triple> -> bool)
    ensures var run := RunBatches(data, encode, accepts);
      forall j :: 0 <= j < |run.reports| ==> run.reports[j] == Min((j + 1) * BatchSize, |data|)
    ensures var run := RunBatches(data, encode, accepts);
      |run.committed| <= |Batches(data, BatchSize)|
      && Flatten(Batches(data, BatchSize)[..|run.committed|])
         == data[..Min(|run.committed| * BatchSize, |data|)]
  {
    var run := RunBatches(data, encode, accepts);
    RunStopsAtFirstFailure(data, encode, accepts);
    ReportedTotals(data, run.reports);
    EndedPrefix(data, Handler(encode, accepts), run);
  }

  /**
   * A loop that raises nothing commits `ceil(len(data)/batch_size)` batches and reports
   * `len(data)` last; an empty list makes no call at all.
   */
  lemma RunCompletes(data: seq<Record>, encode: seq<string> -> Option<seq<Vector>>,
                     accepts: seq<Triple> -> bool)
    ensures var run := RunBatches(data, encode, accepts);
      run.failure.None? ==>
        && |run.committed| == BatchCount(|data|, BatchSize)
        && (data != [] ==> |run.reports| > 0 && run.reports[|run.reports| - 1] == |data|)
    ensures data == [] ==> RunBatches(data, encode, accepts) == NoRun
  {
    var run := RunBatches(data, encode, accepts);
    RunStopsAtFirstFailure(data, encode, accepts);
    if run.failure.None? {
      EndedCompleted(data, Handler(encode, accepts), run);
    }
    BatchesShape(data, BatchSize);
  }

  /**
   * A batch that went through was upserted as one triple per record, in order: each record
   * has an id, its normalised text is the text of the same position given to the model, and
   * its triple is `clean_key(str(id))`, the embedding of the same position and its metadata
   * map. This needs the model to return one vector per text, as a sentence-embedding model does.
   */
  lemma BatchTriples(batch: seq<Record>, encode: seq<string> -> Option<seq<Vector>>,
                     accepts: seq<Triple> -> bool, texts: seq<string>, triples: seq<Triple>)
    requires forall ts :: encode(ts).Some? ==> |encode(ts).value| == |ts|
    requires HandleBatch(batch, encode, accepts) == BatchRun(Some(texts), Some(triples), None)
    ensures |triples| == |texts| == |batch|
    ensures encode(texts).Some? && accepts(triples)
    ensures forall m :: 0 <= m < |batch| ==>
      && "id" in batch[m]
      && RecordText(batch[m]) == Some(texts[m])
      && triples[m] == Triple(CleanKey(ToStr(batch[m]["id"])), encode(texts).value[m], RecordMetadata(batch[m]))
  {
    PrepareBatchOutcome(batch);
    var p := PrepareBatch(batch).value;
    UpsertListShape(batch, encode(p.texts).value);
  }

  /**
   * How a record is sent to the index: it has an id, `text` is its normalised text, and `t` is
   * its triple, `clean_key(str(id))` with `vector` as its embedding and its metadata map.
   */
  predicate SentAs(item: Record, text: string, vector: Vector, t: Triple) {
    && "id" in item
    && RecordText(item) == Some(text)
    && t == Triple(CleanKey(ToStr(item["id"])), vector, RecordMetadata(item))
  }

  /** The triples of committed batch `k`, stated over the records of that batch. */
  lemma CommittedBatchTriples(bs: seq<seq<Record>>, encode: seq<string> -> Option<seq<Vector>>,
                              accepts: seq<Triple> -> bool, run: Run, k: nat)
    requires forall texts :: encode(texts).Some? ==> |encode(texts).value| == |texts|
    requires Committed(bs, Handler(encode, accepts), |run.committed|, run) && k < |run.committed|
    ensures k < |bs| && k < |run.encoded|
    ensures |run.committed[k]| == |run.encoded[k]| == |bs[k]|
    ensures encode(run.encoded[k]).Some? && |encode(run.encoded[k]).value| == |run.encoded[k]|
    ensures forall m :: 0 <= m < |bs[k]| ==>
      SentAs(bs[k][m], run.encoded[k][m], encode(run.encoded[k]).value[m], run.committed[k][m])
  {
    CommittedAt(bs, Handler(encode, accepts), |run.committed|, run, k);
    BatchTriples(bs[k], encode, accepts, run.encoded[k], run.committed[k]);
  }

  /**
   * Each committed batch holds one triple per record of the batch, in order: record `m` of
   * batch `k` has an id, its text went to the model as the `m`-th text, and its triple in the
   * accepted upsert list is `clean_key(str(id))` with the `m`-th embedding and its metadata map.
   * What the index then holds for that key is the last triple carrying it (`UpsertedLastWins`). (`BatchAt` says which
   * slice of the data batch `k` is.) This needs the model to return one vector per text, as a
   * sentence-embedding model does.
   */
  lemma CommittedRecords(data: seq<Record>, encode: seq<string> -> Option<seq<Vector>>,
                         accepts: seq<Triple> -> bool, k: nat)
    requires forall texts :: encode(texts).Some? ==> |encode(texts).value| == |texts|
    requires k < |RunBatches(data, encode, accepts).committed|
    ensures k < |Batches(data, BatchSize)|
    ensures var run := RunBatches(data, encode, accepts);
      var batch := Batches(data, BatchSize)[k];
      && k < |run.encoded|
      && |run.committed[k]| == |run.encoded[k]| == |batch|
      && encode(run.encoded[k]).Some?
      && forall m :: 0 <= m < |batch| ==>
           SentAs(batch[m], run.encoded[k][m], encode(run.encoded[k]).value[m], run.committed[k][m])
  {
    RunStopsAtFirstFailure(data, encode, accepts);
    CommittedBatchTriples(Batches(data, BatchSize), encode, accepts, RunBatches(data, encode, accepts), k);
  }
}
