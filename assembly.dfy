/**
 * What one batch of records becomes before it is sent to the index: a vector id, a
 * normalised text and a metadata map per record, zipped with the embeddings into upsert
 * triples.
 */
module Assembly {
  import opened Seqs
  import opened Wrappers
  import opened KeySanitizer
  import opened TextNormalizer
  import opened Records

  /** Why the handling of a batch stopped: the exception raised inside the loop. */
  datatype Error =
    | MissingId        // `item["id"]` raised `KeyError`
    | TextNotString    // `re.sub` was given an `all_text` that is not a string
    | EmbeddingFailed  // `model.encode` raised
    | UpsertRejected   // `index.upsert` raised

  datatype Result<T> = Success(value: T) | Failure(error: Error)

  /** An embedding, as the model returns it; the model does not look inside it. */
  type Vector = seq<real>

  type Metadata = map<string, Value>

  /** One element of the `vectors` list given to `upsert`: `(id, values, metadata)`. */
  datatype Triple = Triple(id: string, values: Vector, metadata: Metadata)

  /**
   * A list comprehension whose element expression may raise: every element is computed, in
   * order, and the first failure is the comprehension's failure.
   */
  function MapAll<T, U>(xs: seq<T>, f: T -> Option<U>): (r: Option<seq<U>>)
    ensures r.Some? <==> forall j :: 0 <= j < |xs| ==> f(xs[j]).Some?
    ensures r.Some? ==> |r.value| == |xs| && forall j :: 0 <= j < |xs| ==> r.value[j] == f(xs[j]).value
  {
    if xs == [] then Some([])
    else
      match f(xs[0])
      case None => None
      case Some(y) =>
        match MapAll(xs[1..], f)
        case None => None
        case Some(ys) => Some([y] + ys)
  }

  /** `clean_key(str(item["id"]))`; `None` stands for the `KeyError` of a record without id. */
  function RecordId(item: Record): Option<string> {
    if "id" in item then Some(CleanKey(ToStr(item["id"]))) else None
  }

  /** A record whose `all_text` can be normalised: absent (read as `''`) or a string. */
  predicate HasTextField(item: Record) {
    "all_text" !in item || item["all_text"].Str?
  }

  /**
   * `preprocess_text(item.get('all_text', ''))`; `None` stands for the `TypeError` `re.sub`
   * raises when the field holds a number, a boolean, `null`, a list or an object.
   */
  function RecordText(item: Record): Option<string> {
    match Get(item, "all_text", Str(""))
    case Str(t) => Some(PreprocessText(t))
    case _ => None
  }

  /**
   * `{clean_key(k): v for k, v in {f: item.get(f, '') for f in fields}.items() if v}`: the
   * truthy fields, under their names passed through `clean_key`, a later field winning when two
   * names clean to the same key.
   */
  function FieldsMetadata(item: Record, fields: seq<string>): Metadata {
    if fields == [] then map[]
    else
      var v := Get(item, fields[0], Str(""));
      (if Truthy(v) then map[CleanKey(fields[0]) := v] else map[]) + FieldsMetadata(item, fields[1..])
  }

  /** The metadata map of a record: its `category` and `url` fields. */
  function RecordMetadata(item: Record): Metadata {
    FieldsMetadata(item, ["category", "url"])
  }

  predicate IsKey(s: string) {
    forall i :: 0 <= i < |s| ==> IsKeyChar(s[i])
  }

  /**
   * When the field names are keys already, the map holds exactly the fields the record has
   * with a truthy value, each with its value unchanged.
   */
  lemma {:induction false} FieldsMetadataOfKeys(item: Record, fields: seq<string>)
    requires forall j :: 0 <= j < |fields| ==> IsKey(fields[j])
    ensures forall k :: k in FieldsMetadata(item, fields) <==> k in fields && k in item && Truthy(item[k])
    ensures forall k :: k in FieldsMetadata(item, fields) ==> FieldsMetadata(item, fields)[k] == item[k]
  {
    if fields != [] {
      FieldsMetadataOfKeys(item, fields[1..]);
      CleanKeyFixpoints(fields[0]);
      assert forall k :: k in fields <==> k == fields[0] || k in fields[1..];
    }
  }

  /**
   * The metadata keys are among `category` and `url`; a field is present exactly when the
   * record has it with a truthy value, and then holds that value unchanged.
   */
  lemma RecordMetadataFields(item: Record)
    ensures RecordMetadata(item).Keys <= {"category", "url"}
    ensures "category" in RecordMetadata(item) <==> "category" in item && Truthy(item["category"])
    ensures "category" in RecordMetadata(item) ==> RecordMetadata(item)["category"] == item["category"]
    ensures "url" in RecordMetadata(item) <==> "url" in item && Truthy(item["url"])
    ensures "url" in RecordMetadata(item) ==> RecordMetadata(item)["url"] == item["url"]
  {
    var fields := ["category", "url"];
    assert IsKey(fields[0]) && IsKey(fields[1]);
    FieldsMetadataOfKeys(item, fields);
  }

  /** The three lists the loop builds for a batch before embedding it. */
  datatype Prepared = Prepared(ids: seq<string>, texts: seq<string>, metadata: seq<Metadata>)

  /**
   * The `ids` comprehension, then the `texts` comprehension, then the `metadata` one (which
   * cannot raise). A record without id fails the batch before any text is looked at.
   */
  function PrepareBatch(batch: seq<Record>): Result<Prepared> {
    match MapAll(batch, RecordId)
    case None => Failure(MissingId)
    case Some(ids) =>
      match MapAll(batch, RecordText)
      case None => Failure(TextNotString)
      case Some(texts) => Success(Prepared(ids, texts, BatchMetadata(batch)))
  }

  /** The `metadata` comprehension: one map per record, in order. */
  function BatchMetadata(batch: seq<Record>): seq<Metadata> {
    seq(|batch|, j requires 0 <= j < |batch| => RecordMetadata(batch[j]))
  }

  /** `list(zip(ids, vectors, metadata))`: stops at the end of the shortest list. */
  function Zip3(ids: seq<string>, vectors: seq<Vector>, metadata: seq<Metadata>): (ts: seq<Triple>)
    ensures |ts| == Min(|ids|, Min(|vectors|, |metadata|))
    ensures forall j :: 0 <= j < |ts| ==> ts[j] == Triple(ids[j], vectors[j], metadata[j])
  {
    if ids == [] || vectors == [] || metadata == [] then []
    else [Triple(ids[0], vectors[0], metadata[0])] + Zip3(ids[1..], vectors[1..], metadata[1..])
  }

  // ---------------------------------------------------------------------------
  // Properties of one batch

  /**
   * A batch fails with `MissingId` exactly when one of its records has no id, with
   * `TextNotString` exactly when every record has an id and one has a text field that is not a
   * string, and is ready otherwise, with one id, text and metadata map per record.
   */
  lemma PrepareBatchOutcome(batch: seq<Record>)
    ensures PrepareBatch(batch) == Failure(MissingId)
        <==> exists j :: 0 <= j < |batch| && "id" !in batch[j]
    ensures PrepareBatch(batch) == Failure(TextNotString)
        <==> (forall j :: 0 <= j < |batch| ==> "id" in batch[j])
             && exists j :: 0 <= j < |batch| && !HasTextField(batch[j])
    ensures PrepareBatch(batch).Success?
        <==> forall j :: 0 <= j < |batch| ==> "id" in batch[j] && HasTextField(batch[j])
    ensures PrepareBatch(batch).Success? ==>
        var p := PrepareBatch(batch).value;
        |p.ids| == |p.texts| == |p.metadata| == |batch|
  {
    assert forall j :: 0 <= j < |batch| ==> (RecordId(batch[j]).Some? <==> "id" in batch[j]);
    assert forall j :: 0 <= j < |batch| ==> (RecordText(batch[j]).Some? <==> HasTextField(batch[j]));
  }

  /**
   * When the model returns one vector per text, the upsert list holds one triple per record,
   * in the batch's order: the id is `clean_key(str(record["id"]))`, the values are the
   * record's embedding and the metadata is the record's metadata map.
   */
  lemma UpsertListShape(batch: seq<Record>, vectors: seq<Vector>)
    requires PrepareBatch(batch).Success?
    requires |vectors| == |batch|
    ensures var p := PrepareBatch(batch).value;
      var ts := Zip3(p.ids, vectors, p.metadata);
      |ts| == |batch|
      && forall j :: 0 <= j < |batch| ==>
        ts[j] == Triple(CleanKey(ToStr(batch[j]["id"])), vectors[j], RecordMetadata(batch[j]))
  {
    PrepareBatchOutcome(batch);
  }
}
