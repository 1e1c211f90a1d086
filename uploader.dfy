/**
 * `upload_to_pinecone`: the configuration guard, then the batch loop that prepares each
 * slice of 100 records, embeds its texts and upserts the triples, reporting a running count.
 * An exception anywhere in the loop ends it; the batches before it stay upserted.
 */
module Uploader {
  import opened Seqs
  import opened Wrappers
  import opened Records
  import opened Batching
  import opened Assembly
  import opened Collaborators

  /** The three environment variables the uploader reads; `None` when a variable is unset. */
  datatype Env = Env(apiKey: Option<string>, cloud: Option<string>, region: Option<string>)

  /** The settings the client and the serverless index are created with. */
  datatype Settings = Settings(apiKey: string, cloud: string, region: string)

  const BatchSize: nat := 100

  /** `not value` for an environment variable: unset or empty. */
  predicate IsBlank(v: Option<string>) {
    v == None || v == Some("")
  }

  /**
   * The configuration guard: the settings, or `None` for the `ValueError` raised when the API
   * key or the region is unset or empty. The cloud falls back to `aws` only when unset.
   */
  function ResolveConfig(env: Env): (r: Option<Settings>)
    ensures r.None? <==> IsBlank(env.apiKey) || IsBlank(env.region)
    ensures r.Some? ==> r.value.apiKey != [] && r.value.region != []
    ensures r.Some? ==> Some(r.value.apiKey) == env.apiKey && Some(r.value.region) == env.region
    ensures r.Some? ==> r.value.cloud == if env.cloud == None then "aws" else env.cloud.value
  {
    if IsBlank(env.apiKey) || IsBlank(env.region) then None
    else Some(Settings(env.apiKey.value, if env.cloud == None then "aws" else env.cloud.value, env.region.value))
  }

  // ---------------------------------------------------------------------------
  // One batch

  /**
   * What handling one batch does: the texts given to the model (when the ids and texts could
   * be computed), the list given to the index (when the model embedded the texts), and the
   * exception raised, if any.
   */
  datatype BatchRun = BatchRun(texts: Option<seq<string>>, triples: Option<seq<Triple>>, error: Option<Error>)

  /**
   * Lines 66-77 for one batch: ids, then texts (either may raise), `encode` (may raise), the
   * metadata, then `upsert` of the zipped triples (may raise).
   */
  function HandleBatch(batch: seq<Record>, encode: seq<string> -> Option<seq<Vector>>,
                       accepts: seq<Triple> -> bool): (h: BatchRun)
    ensures h.error.None? ==> h.texts.Some? && h.triples.Some?
    ensures h.triples.Some? ==> h.texts.Some?
  {
    match PrepareBatch(batch)
    case Failure(e) => BatchRun(None, None, Some(e))
    case Success(p) =>
      match encode(p.texts)
      case None => BatchRun(Some(p.texts), None, Some(EmbeddingFailed))
      case Some(vectors) =>
        var triples := Zip3(p.ids, vectors, p.metadata);
        BatchRun(Some(p.texts), Some(triples), if accepts(triples) then None else Some(UpsertRejected))
  }

  /** `HandleBatch` with the services fixed: what the loop body does to any batch. */
  function Handler(encode: seq<string> -> Option<seq<Vector>>, accepts: seq<Triple> -> bool)
    : seq<Record> -> BatchRun
  {
    batch => HandleBatch(batch, encode, accepts)
  }

  /**
   * `handle` agrees with `HandleBatch` on every batch. Stated pointwise, so that a proof about
   * the loop can carry it without unfolding what one batch does.
   */
  ghost predicate Handles(handle: seq<Record> -> BatchRun, encode: seq<string> -> Option<seq<Vector>>,
                          accepts: seq<Triple> -> bool)
  {
    forall b {:trigger HandleBatch(b, encode, accepts)} :: handle(b) == HandleBatch(b, encode, accepts)
  }

  lemma HandlerHandles(encode: seq<string> -> Option<seq<Vector>>, accepts: seq<Triple> -> bool)
    ensures Handles(Handler(encode, accepts), encode, accepts)
  {
  }

  // ---------------------------------------------------------------------------
  // The loop

  /** The exception that ended the loop, and the index of the batch that raised it. */
  datatype BatchFailure = BatchFailure(batch: nat, error: Error)

  /** What the loop has done so far. */
  datatype Run = Run(
    encoded: seq<seq<string>>,     // the texts given to the model, call by call
    upserted: seq<seq<Triple>>,    // the lists given to the index, call by call
    committed: seq<seq<Triple>>,   // the lists the index accepted
    reports: seq<nat>,             // the progress counts printed
    failure: Option<BatchFailure>) // the exception that ended the loop, if one did

  const NoRun: Run := Run([], [], [], [], None)

  function ListOf<T>(o: Option<T>): seq<T> {
    if o.Some? then [o.value] else []
  }

  /**
   * The run after batch `k` has been handled with result `h`, `done` records having been
   * handled before it: the calls are logged, and either the batch is committed and
   * `done + size` reported, or its exception ends the loop.
   */
  function Step(r: Run, h: BatchRun, k: nat, done: nat, size: nat): Run {
    Run(r.encoded + ListOf(h.texts),
        r.upserted + ListOf(h.triples),
        if h.error.None? then r.committed + ListOf(h.triples) else r.committed,
        if h.error.None? then r.reports + [done + size] else r.reports,
        if h.error.Some? then Some(BatchFailure(k, h.error.value)) else None)
  }

  /** The iterations from batch `k` on, stopping at the first failure. */
  function RunFrom(bs: seq<seq<Record>>, k: nat, done: nat, r: Run, handle: seq<Record> -> BatchRun): Run
    requires k <= |bs|
    decreases |bs| - k
  {
    if k == |bs| || r.failure.Some? then r
    else RunFrom(bs, k + 1, done + |bs[k]|, Step(r, handle(bs[k]), k, done, |bs[k]|), handle)
  }

  lemma RunFromDone(bs: seq<seq<Record>>, k: nat, done: nat, r: Run, handle: seq<Record> -> BatchRun)
    requires k <= |bs| && (k == |bs| || r.failure.Some?)
    ensures RunFrom(bs, k, done, r, handle) == r
  {
  }

  lemma {:induction false} RunFromUnfold(bs: seq<seq<Record>>, k: nat, done: nat, r: Run, handle: seq<Record> -> BatchRun)
    requires k < |bs| && r.failure.None?
    ensures RunFrom(bs, k, done, r, handle)
         == RunFrom(bs, k + 1, done + |bs[k]|, Step(r, handle(bs[k]), k, done, |bs[k]|), handle)
  {
  }

  /** Running on from batch `k` is running on from batch `k + 1` after one more step. */
  lemma {:induction false} RunFromNext(bs: seq<seq<Record>>, k: nat, done: nat, r: Run, final: Run,
                                       handle: seq<Record> -> BatchRun)
    requires k < |bs| && r.failure.None?
    requires RunFrom(bs, k, done, r, handle) == final
    ensures RunFrom(bs, k + 1, done + |bs[k]|, Step(r, handle(bs[k]), k, done, |bs[k]|), handle) == final
  {
    RunFromUnfold(bs, k, done, r, handle);
  }

  /** The whole loop over the batches of `data`. */
  function RunBatches(data: seq<Record>, encode: seq<string> -> Option<seq<Vector>>,
                      accepts: seq<Triple> -> bool): Run
  {
    RunFrom(Batches(data, BatchSize), 0, 0, NoRun, Handler(encode, accepts))
  }

  /**
   * The services' state matches the run: the model has seen the run's texts and the index the
   * run's upsert lists, after what they had seen before, and the index holds what it held before
   * with the committed lists upserted over it.
   */
  ghost predicate Tracks(r: Run, calls0: seq<seq<string>>, requests0: seq<seq<Triple>>,
                         entries0: map<string, Entry>, embedder: Embedder, index: VectorIndex)
    reads embedder, index
  {
    && embedder.calls == calls0 + r.encoded
    && index.requests == requests0 + r.upserted
    && index.entries == Upserted(entries0, Flatten(r.committed))
  }

  /**
   * One iteration of the loop body: ids, texts, `encode`, metadata, `upsert`, progress report.
   * It does to the services what `HandleBatch` says, and reports `done + len(batch)` when the
   * batch is committed.
   */
  method UploadBatch(batch: seq<Record>, k: nat, done: nat, reports: seq<nat>,
                     embedder: Embedder, index: VectorIndex, ghost run: Run,
                     ghost handle: seq<Record> -> BatchRun,
                     ghost calls0: seq<seq<string>>, ghost requests0: seq<seq<Triple>>,
                     ghost entries0: map<string, Entry>)
    returns (failure: Option<BatchFailure>, reports': seq<nat>)
    requires run.failure.None? && reports == run.reports
    requires Handles(handle, embedder.encode, index.accepts)
    requires Tracks(run, calls0, requests0, entries0, embedder, index)
    modifies embedder, index
    ensures var next := Step(run, handle(batch), k, done, |batch|);
      && failure == next.failure
      && reports' == next.reports
      && Tracks(next, calls0, requests0, entries0, embedder, index)
  {
    assert handle(batch) == HandleBatch(batch, embedder.encode, index.accepts);
    reports' := reports;
    var prepared := PrepareBatch(batch);
    if prepared.Failure? {
      failure := Some(BatchFailure(k, prepared.error));
      assert run.encoded + [] == run.encoded && run.upserted + [] == run.upserted;
      return;
    }
    var p := prepared.value;
    var vectors := embedder.Encode(p.texts);
    if vectors.None? {
      failure := Some(BatchFailure(k, EmbeddingFailed));
      assert run.upserted + [] == run.upserted;
      return;
    }
    var triples := Zip3(p.ids, vectors.value, p.metadata);
    var ok := index.Upsert(triples);
    if ok {
      failure := None;
      reports' := reports + [done + |batch|];
      CommitAppend(entries0, run.committed, triples);
    } else {
      failure := Some(BatchFailure(k, UpsertRejected));
    }
  }

  /** Committing one more list upserts it over what the earlier commits stored. */
  lemma CommitAppend(entries0: map<string, Entry>, committed: seq<seq<Triple>>, triples: seq<Triple>)
    ensures Upserted(entries0, Flatten(committed + [triples]))
         == Upserted(Upserted(entries0, Flatten(committed)), triples)
  {
    FlattenAppend(committed, [triples]);
    FlattenCons(triples, []);
    assert [triples] + [] == [triples];
    assert triples + Flatten<Triple>([]) == triples;
    UpsertedAppend(entries0, Flatten(committed), triples);
  }

  /**
   * The loop's bookkeeping at `i = k*batch_size` over the batches `bs` of the data: the slice
   * it takes is batch `k`, the progress count after it is `min(i + batch_size, len(data))`,
   * and the loop goes on exactly while a batch is left.
   */
  lemma LoopIndex(data: seq<Record>, bs: seq<seq<Record>>, k: nat, i: nat, batch: seq<Record>)
    requires bs == Batches(data, BatchSize) && i == k * BatchSize && i < |data|
    requires batch == data[i..Min(i + BatchSize, |data|)]
    ensures k < |bs| && bs[k] == batch
    ensures i + |batch| == Min(i + BatchSize, |data|)
    ensures (k + 1) * BatchSize == i + BatchSize
    ensures k + 1 < |bs| <==> i + BatchSize < |data|
  {
    BatchIndexInRange(data, BatchSize, k);
    BatchIndexInRange(data, BatchSize, k + 1);
    MulStep(k + 1, BatchSize);
    BatchAt(data, BatchSize, k);
  }

  /** Handling the same batch after the same number of records is the same step. */
  lemma StepSame(r: Run, handle: seq<Record> -> BatchRun, k: nat, b: seq<Record>, b': seq<Record>,
                 d: nat, d': nat)
    requires b == b' && d == d'
    ensures Step(r, handle(b), k, d, |b|) == Step(r, handle(b'), k, d', |b'|)
  {
  }

  /** Equal runs go on to equal ends. */
  lemma {:induction false} RunFromSame(bs: seq<seq<Record>>, k: nat, d: nat, d': nat, r: Run, r': Run, final: Run,
                                       handle: seq<Record> -> BatchRun)
    requires k <= |bs| && d == d' && r == r'
    requires RunFrom(bs, k, d, r, handle) == final
    ensures RunFrom(bs, k, d', r', handle) == final
  {
  }

  /**
   * Where the loop stands after `k` iterations over the batches `bs` of `n` records:
   * `i = k*batch_size`, a batch is left exactly while `i < n`, and running the remaining
   * batches from `run`, `min(i, n)` records having been handled, gives `final`.
   */
  ghost predicate LoopState(bs: seq<seq<Record>>, n: nat, k: nat, i: nat, run: Run, final: Run,
                            handle: seq<Record> -> BatchRun)
  {
    && k <= |bs| && i == k * BatchSize
    && (k < |bs| <==> i < n)
    && RunFrom(bs, k, Min(i, n), run, handle) == final
  }

  /**
   * The handler the loop is proved against: it does what `HandleBatch` does, and running it over
   * all the batches is `RunBatches`. Returned from a lemma so that the loop's proof sees only
   * these two facts and never unfolds a batch.
   */
  lemma LoopHandler(data: seq<Record>, encode: seq<string> -> Option<seq<Vector>>,
                    accepts: seq<Triple> -> bool)
    returns (handle: seq<Record> -> BatchRun)
    ensures Handles(handle, encode, accepts)
    ensures RunFrom(Batches(data, BatchSize), 0, 0, NoRun, handle) == RunBatches(data, encode, accepts)
  {
    handle := Handler(encode, accepts);
    HandlerHandles(encode, accepts);
  }

  lemma LoopStateInit(data: seq<Record>, final: Run, handle: seq<Record> -> BatchRun)
    requires RunFrom(Batches(data, BatchSize), 0, 0, NoRun, handle) == final
    ensures LoopState(Batches(data, BatchSize), |data|, 0, 0, NoRun, final, handle)
  {
    BatchIndexInRange(data, BatchSize, 0);
  }

  /** One iteration on batch `k`, taken at `i`, moves the loop on to batch `k + 1`. */
  lemma {:induction false} LoopStateStep(bs: seq<seq<Record>>, n: nat, k: nat, i: nat,
                                         batch: seq<Record>, run: Run, final: Run,
                                         handle: seq<Record> -> BatchRun)
    requires k < |bs| && bs[k] == batch && i + |batch| == Min(i + BatchSize, n)
    requires (k + 1) * BatchSize == i + BatchSize && (k + 1 < |bs| <==> i + BatchSize < n)
    requires LoopState(bs, n, k, i, run, final, handle) && run.failure.None?
    ensures LoopState(bs, n, k + 1, i + BatchSize, Step(run, handle(batch), k, i, |batch|), final, handle)
  {
    RunFromNextBatch(bs, k, Min(i, n), i, Min(i + BatchSize, n), run, final, handle, batch);
  }

  /**
   * Running from batch `k` (`batch`), `done` records in, is handling `batch` and then running
   * from batch `k + 1`, `done + len(batch)` records in.
   */
  lemma RunFromNextBatch(bs: seq<seq<Record>>, k: nat, d: nat, done: nat, done': nat, r: Run, final: Run,
                         handle: seq<Record> -> BatchRun, batch: seq<Record>)
    requires k < |bs| && bs[k] == batch && d == done && done' == done + |batch| && r.failure.None?
    requires RunFrom(bs, k, d, r, handle) == final
    ensures RunFrom(bs, k + 1, done', Step(r, handle(batch), k, done, |batch|), handle) == final
  {
    RunFromSame(bs, k, d, done, r, r, final, handle);
    RunFromNext(bs, k, done, r, final, handle);
    StepSame(r, handle, k, bs[k], batch, done, done);
    RunFromSame(bs, k + 1, done + |bs[k]|, done',
                Step(r, handle(bs[k]), k, done, |bs[k]|), Step(r, handle(batch), k, done, |batch|), final, handle);
  }

  lemma LoopStateExit(bs: seq<seq<Record>>, n: nat, k: nat, i: nat, run: Run, final: Run,
                      handle: seq<Record> -> BatchRun)
    requires LoopState(bs, n, k, i, run, final, handle) && (i >= n || run.failure.Some?)
    ensures run == final
  {
  }

  /**
   * The batch loop: `for i in range(0, len(data), batch_size)`, one `UploadBatch` per slice,
   * leaving the loop at the first exception.
   */
  method UploadBatches(data: seq<Record>, embedder: Embedder, index: VectorIndex)
    returns (failure: Option<BatchFailure>, reports: seq<nat>)
    modifies embedder, index
    ensures var run := RunBatches(data, embedder.encode, index.accepts);
      && Tracks(run, old(embedder.calls), old(index.requests), old(index.entries), embedder, index)
      && reports == run.reports
      && failure == run.failure
  {
    ghost var run := NoRun;
    ghost var final := RunBatches(data, embedder.encode, index.accepts);
    ghost var handle := LoopHandler(data, embedder.encode, index.accepts);
    ghost var bs := Batches(data, BatchSize);
    var i, k := 0, 0;
    failure := None;
    reports := [];
    LoopStateInit(data, final, handle);
    while i < |data| && failure.None?
      invariant LoopState(bs, |data|, k, i, run, final, handle)
      invariant failure == run.failure && reports == run.reports
      invariant Tracks(run, old(embedder.calls), old(index.requests), old(index.entries), embedder, index)
      decreases |data| - i
    {
      var batch := data[i..Min(i + BatchSize, |data|)];
      LoopIndex(data, bs, k, i, batch);
      LoopStateStep(bs, |data|, k, i, batch, run, final, handle);
      failure, reports := UploadBatch(batch, k, i, reports, embedder, index, run, handle,
                                      old(embedder.calls), old(index.requests), old(index.entries));
      run := Step(run, handle(batch), k, i, |batch|);
      i, k := i + BatchSize, k + 1;
    }
    LoopStateExit(bs, |data|, k, i, run, final, handle);
  }

  /**
   * How a call of `upload_to_pinecone` ends: the `ValueError` of the configuration guard, an
   * exception caught while creating the client, the index or the model, an exception caught in
   * a batch, or the final `Total vectors uploaded` count.
   */
  datatype Outcome =
    | ConfigRejected
    | SetupFailed
    | BatchFailed(batch: nat, error: Error)
    | Completed(total: nat)

  /**
   * `upload_to_pinecone(data)`: the configuration guard raises before anything else is
   * touched; a failing setup step is caught and ends the call; otherwise the batch loop runs and
   * its first exception, if any, is how the call ends.
   */
  method UploadToPinecone(data: seq<Record>, env: Env, setupSucceeds: bool,
                          embedder: Embedder, index: VectorIndex)
    returns (outcome: Outcome, reports: seq<nat>)
    modifies embedder, index
    ensures ResolveConfig(env).None? ==>
      outcome == ConfigRejected && reports == [] && unchanged(embedder) && unchanged(index)
    ensures ResolveConfig(env).Some? && !setupSucceeds ==>
      outcome == SetupFailed && reports == [] && unchanged(embedder) && unchanged(index)
    ensures ResolveConfig(env).Some? && setupSucceeds ==>
      var run := RunBatches(data, embedder.encode, index.accepts);
      && Tracks(run, old(embedder.calls), old(index.requests), old(index.entries), embedder, index)
      && reports == run.reports
      && outcome == match run.failure
                    case Some(f) => BatchFailed(f.batch, f.error)
                    case None => Completed(|data|)
  {
    var settings := ResolveConfig(env);
    if settings.None? {
      return ConfigRejected, [];
    }
    if !setupSucceeds {
      return SetupFailed, [];
    }
    var failure;
    failure, reports := UploadBatches(data, embedder, index);
    outcome := match failure
               case Some(f) => BatchFailed(f.batch, f.error)
               case None => Completed(|data|);
  }
}
