# Pinecone product uploader — verified model

This project models the deterministic core of `db_pinecone_uploader.py`, a script that loads
crawled Kurly product records, embeds their text with a sentence-embedding model and upserts
them into a Pinecone vector index:

- `clean_key` (key sanitising: lower-case, spaces to hyphens, keep `[a-z0-9-]`), in
  `key_sanitizer.dfy`;
- `preprocess_text` (drop everything but word and whitespace characters, collapse whitespace
  runs to one space, strip), in `text_normalizer.dfy`, proved equal to the reference
  `' '.join(t.split())` and shown to be idempotent, to produce normalised text, and to keep
  exactly the word characters of its input;
- the JSON records the loop reads (`records.dfy`): `item["id"]`, `item.get(...)`, truthiness
  and `str()` of integers;
- the partition `for i in range(0, len(data), 100): data[i:i+100]` (`batching.dfy`);
- what one batch becomes (`assembly.dfy`): ids, texts and metadata maps built by
  comprehensions that may raise, zipped into upsert triples;
- the embedding model and the vector index as classes whose answers are fixed functions of
  the request, with ghost logs of every call (`collaborators.dfy`);
- `upload_to_pinecone` itself (`uploader.dfy`): the configuration guard, the batch loop as an
  imperative method proved against `RunBatches`, a functional account of the whole run, and
  the top-level call with its four ways to end;
- properties of the whole run (`trace.dfy`): the loop stops at the first exception, the
  progress counts are running totals, the handled records are a prefix of the data, and every
  committed record is sent in the accepted upsert list as `(clean_key(str(id)), embedding,
  metadata)`. The index keeps the last triple for each id (`Collaborators.UpsertedLastWins`);
  nothing checks that ids are distinct, so a record whose key a later record repeats
  (the integer `1` and the string `"1"`, say) is overwritten.

`seqs.dfy`, `wrappers.dfy` and `char_classes.dfy` hold the sequence helpers, `Option`, and
the character classes `\w` and `\s`.

Three behaviours of the code that the model keeps as written:

- Metadata values are passed through unchanged (db_pinecone_uploader.py:70-75). Only the key
  names go through `clean_key`, so a category `"A"` stays `"A"`.
- An embedding failure is raised inside the `try` of line 41. It is caught like any other
  exception in the loop and ends the call (`BatchFailed(k, EmbeddingFailed)`).
- `preprocess_text` raises `TypeError` when `all_text` holds something other than a string.
  The model keeps that error path (`TextNotString`).

## Model

| member | source | states |
|---|---|---|
| CharClasses.SpaceIsNotWord | db_pinecone_uploader.py:18 | no character is both a whitespace and a word character |
| TextNormalizer.RemovePunctuation | db_pinecone_uploader.py:18 | every character left after removing `[^\w\s]` is a word or whitespace character |
| TextNormalizer.TrimStart | db_pinecone_uploader.py:19 | left half of `strip()`: the result is the suffix after an all-whitespace prefix and does not start with whitespace |
| TextNormalizer.TrimEnd | db_pinecone_uploader.py:19 | right half of `strip()`: the result is the prefix before an all-whitespace suffix and does not end with whitespace |
| TextNormalizer.Split | db_pinecone_uploader.py:19 | the reference `str.split()` yields only non-empty tokens without whitespace |
| TextNormalizer.StripCollapseIsJoinSplit | db_pinecone_uploader.py:19 | collapsing whitespace runs to one space and then stripping equals `' '.join(t.split())` for every text |
| TextNormalizer.PreprocessIsJoinOfWords | db_pinecone_uploader.py:17-20 | `preprocess_text(t)` is `' '.join(s.split())` of the text with punctuation removed |
| TextNormalizer.SplitJoin | db_pinecone_uploader.py:19 | splitting a space-joined list of tokens gives the tokens back |
| TextNormalizer.NormalizedJoinSplit | db_pinecone_uploader.py:19 | on normalised text, `' '.join(s.split())` is the identity |
| TextNormalizer.NonSpaceOfRemovePunctuation | db_pinecone_uploader.py:18 | the non-whitespace characters left by punctuation removal are the input's word characters, in order |
| TextNormalizer.PreprocessKeepsWordChars | db_pinecone_uploader.py:17-20 | the non-space characters of the output are exactly the input's word characters, in order |
| TextNormalizer.JoinIsNormalized | db_pinecone_uploader.py:19 | joining word tokens with single spaces gives normalised text |
| TextNormalizer.PreprocessTextIsNormalized | db_pinecone_uploader.py:17-20 | the output has only word characters and single spaces, and no space at either end |
| TextNormalizer.PreprocessTextIdempotent | db_pinecone_uploader.py:17-20 | normalising twice is normalising once |
| TextNormalizer.PreprocessFixpoints | db_pinecone_uploader.py:17-20 | a text is left unchanged exactly when it is already normalised |
| TextNormalizer.RemovePunctuationExample | db_pinecone_uploader.py:18 | `"Hello, World!   Price: $5.99"` loses its punctuation: `"Hello World   Price 599"` |
| TextNormalizer.CollapseExample | db_pinecone_uploader.py:19 | `"Hello World   Price 599"` collapses to `"Hello World Price 599"` |
| TextNormalizer.PreprocessExample | db_pinecone_uploader.py:17-20 | `preprocess_text("Hello, World!   Price: $5.99") == "Hello World Price 599"` |
| KeySanitizer.ReplaceSpaces | db_pinecone_uploader.py:23 | `replace(' ', '-')` keeps the length and turns exactly the spaces into hyphens |
| KeySanitizer.CleanKey | db_pinecone_uploader.py:22-23 | every character of a key is in `[a-z0-9-]` |
| KeySanitizer.KeyPartOfChar | db_pinecone_uploader.py:23 | lower-casing, replacing and filtering one character gives that character's part of the key |
| KeySanitizer.CleanKeyIsCharwise | db_pinecone_uploader.py:22-23 | `clean_key` equals the character-by-character reference |
| KeySanitizer.CleanKeyNoLonger | db_pinecone_uploader.py:22-23 | a key is never longer than its input |
| KeySanitizer.CleanKeyFixpoints | db_pinecone_uploader.py:22-23 | a string is unchanged exactly when it is made of `[a-z0-9-]` |
| KeySanitizer.CleanKeyIdempotent | db_pinecone_uploader.py:22-23 | cleaning a key twice is cleaning it once |
| KeySanitizer.CleanKeyOfPlainKey | db_pinecone_uploader.py:22-23 | on ASCII letters, digits, spaces and hyphens nothing is dropped: capitals are lower-cased and spaces become hyphens, in place |
| KeySanitizer.KeyNameIsKey | db_pinecone_uploader.py:71-74 | the metadata field names `category` and `url` are their own keys |
| KeySanitizer.CleanKeyExample | db_pinecone_uploader.py:22-23 | `clean_key("Kurly Product #1") == "kurly-product-1"` |
| Records.Decimal | db_pinecone_uploader.py:67 | `str()` of a natural number is a non-empty digit string without a leading zero |
| Records.DecimalValueOfDecimal | db_pinecone_uploader.py:67 | reading the numeral back gives the number |
| Records.IntStrInjective | db_pinecone_uploader.py:67 | different integers have different `str()` |
| Records.IntIdIsKey | db_pinecone_uploader.py:67 | an integer id is already a key, so different integer ids give different vector ids |
| Batching.BatchCountBound | db_pinecone_uploader.py:65 | `k*size` is a start of `range(0, n, size)` exactly when `k < ceil(n/size)` |
| Batching.BatchAt | db_pinecone_uploader.py:65-66 | batch `k` is `data[k*size : k*size+size]`, cut at the end of the data |
| Batching.BatchElement | db_pinecone_uploader.py:66 | element `m` of batch `k` is element `k*size+m` of the data |
| Batching.BatchesShape | db_pinecone_uploader.py:64-66 | there are `ceil(N/size)` batches of 1 to `size` records, all but the last full, and none when `N = 0` |
| Batching.BatchesPrefix | db_pinecone_uploader.py:64-66 | the first `k` batches concatenate to the first `min(k*size, N)` records |
| Batching.FlattenBatches | db_pinecone_uploader.py:64-66 | all batches concatenate to the data, in order |
| Batching.BatchIndexInRange | db_pinecone_uploader.py:65 | the loop's `i = k*size` is below `len(data)` exactly when batch `k` exists |
| Assembly.MapAll | db_pinecone_uploader.py:67-68 | a comprehension succeeds exactly when every element does, with one result per element, in order |
| Assembly.Zip3 | db_pinecone_uploader.py:76 | `zip` stops at the shortest list and pairs equal positions |
| Assembly.FieldsMetadataOfKeys | db_pinecone_uploader.py:70-75 | with key-shaped field names, the metadata holds exactly the truthy fields present, values unchanged |
| Assembly.RecordMetadataFields | db_pinecone_uploader.py:70-75 | metadata keys are among `category` and `url`; each is present exactly when the field is truthy, with its value unchanged |
| Assembly.PrepareBatchOutcome | db_pinecone_uploader.py:67-75 | a batch raises `KeyError` exactly when a record has no id, `TypeError` exactly when all have ids and a text is not a string, and otherwise yields one id, text and metadata map per record |
| Assembly.UpsertListShape | db_pinecone_uploader.py:67-76 | with one vector per text, the upsert list holds one triple per record, in order: `(clean_key(str(id)), vector, metadata)` |
| Collaborators.Embedder.Encode | db_pinecone_uploader.py:69 | `encode` answers the oracle's embeddings and logs the texts it was called with |
| Collaborators.Upserted | db_pinecone_uploader.py:77 | after an upsert the index holds the old ids plus every id in the list |
| Collaborators.UpsertedLastWins | db_pinecone_uploader.py:77 | an id takes the entry of the last triple carrying it; ids no triple carries keep their entries |
| Collaborators.UpsertedAppend | db_pinecone_uploader.py:77 | upserting two lists in turn is upserting their concatenation |
| Collaborators.VectorIndex.Upsert | db_pinecone_uploader.py:77 | an accepted request is upserted over the index; a rejected one only joins the request log |
| Uploader.ResolveConfig | db_pinecone_uploader.py:27-32 | `ValueError` exactly when the API key or the region is unset or empty; otherwise both are kept and the cloud defaults to `aws` only when unset |
| Uploader.HandleBatch | db_pinecone_uploader.py:66-77 | a batch that raises nothing was embedded and upserted |
| Uploader.UploadBatch | db_pinecone_uploader.py:66-78 | one iteration calls the services exactly as `HandleBatch` says, reports `i + len(batch)` when the batch is committed, and ends the loop with its exception otherwise |
| Uploader.CommitAppend | db_pinecone_uploader.py:77 | committing one more batch upserts its list over what earlier commits stored |
| Uploader.LoopIndex | db_pinecone_uploader.py:65-66 | at `i = k*100` the slice taken is batch `k`, the count after it is `min(i+100, N)`, and a batch is left exactly while `i+100 < N` |
| Uploader.LoopStateStep | db_pinecone_uploader.py:65-78 | one iteration on batch `k` keeps the loop invariant: running the rest from the new state still ends in the whole run |
| Uploader.UploadBatches | db_pinecone_uploader.py:64-80 | the loop leaves the services, reports and exception exactly as the run over all batches says |
| Uploader.UploadToPinecone | db_pinecone_uploader.py:25-86 | a bad configuration raises before any service call; a failing setup ends the call untouched; otherwise the loop's run decides the outcome and `len(data)` is reported on completion |
| UploadTrace.RunStopsAtFirstFailure | db_pinecone_uploader.py:65-83 | batches before the first exception were embedded, upserted and reported in order; the failing batch's exception ends the loop and no later batch reaches either service |
| UploadTrace.RecordsInBatches | db_pinecone_uploader.py:64-66 | the first `k` batches hold `min(k*100, N)` records |
| UploadTrace.RunReportsProgress | db_pinecone_uploader.py:78 | progress report `j` is `min((j+1)*100, N)`, and the committed batches are a prefix of the data |
| UploadTrace.RunCompletes | db_pinecone_uploader.py:64-80 | a run without exception commits `ceil(N/100)` batches and last reports `N`; an empty list makes no call |
| UploadTrace.BatchTriples | db_pinecone_uploader.py:67-77 | a committed batch's list has one triple per record, in order, from its id, normalised text, embedding and metadata |
| UploadTrace.CommittedRecords | db_pinecone_uploader.py:65-77 | record `m` of committed batch `k` is the `m`-th triple of the accepted upsert list: `(clean_key(str(id)), embedding m, metadata)`, its text being the `m`-th text sent to the model |

## Left out

- The Pinecone client and index setup (db_pinecone_uploader.py:35-56): they are remote calls behind an SDK. Creating the client at line 35 sits outside the `try` and is assumed not to raise. Lines 41-60 (list, create and connect the index, load the model) become the parameter `setupSucceeds` of `Uploader.UploadToPinecone`.
- The index name, its dimension 768 and its cosine metric (db_pinecone_uploader.py:42-50) are not modelled: the index is an oracle.
- `SentenceTransformer` loading and the floating-point vectors: an embedding is an opaque `seq<real>` returned by the `encode` oracle.
- `load_crawled_data`, `load_dotenv` and `os.getenv` (file and environment I/O): the records and the three environment variables are parameters.
- Every `print`, the `e.response` status and body reporting, and the `__main__` block: console output and SDK error introspection.
- CharClasses.IsWord: Python's Unicode `\w` is approximated by ASCII word characters, Latin-1 letters and numerals, Hangul and CJK ideographs. `\s` is modelled exactly. No proof depends on the approximation.
- KeySanitizer.LowerChar: `str.lower()` is exact for ASCII and for U+0130 and U+212A, which are the only characters whose lower case contains an ASCII letter. Every other character is kept as it is. That cannot change a key, because its true lower case is also dropped by the final filter.
- Floats, lists and nested objects are one kind of value, `Other`, carrying the text `str()` gives and their truthiness. Records that are not JSON objects are not modelled.
- Collaborators.VectorIndex.Upsert: a rejected upsert leaves the index unchanged (no partial write), and whether a request is accepted does not depend on what the index holds.
- UploadTrace.BatchTriples: one triple per record is stated only for models that return one vector per text. `zip` truncates otherwise, and the model's `Zip3` does so too.
- UploadTrace.CommittedRecords: stated per committed batch over that batch's records. `Batching.BatchAt` says which slice of the data each batch is.
- Assembly.PrepareBatch: the loop builds the metadata after calling `encode`, and the model builds it before. The metadata comprehension cannot raise and calls no service, so the calls, the exceptions and the results are the same in both orders.
