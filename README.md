# Chunk identity and query records of a PDF question-answering pipeline

This project models, in Dafny, the deterministic core of a retrieval-augmented
question-answering service. PDF pages are split into chunks, each chunk gets a
composite identifier, new chunks go into a Chroma vector store, and user
queries are kept as records in a DynamoDB table and mirrored by a generated
TypeScript client.

The model covers:

- **Chunk identifiers.** `add_id_metadata_to_chunks` walks the chunk list once
  and writes `metadata['id'] = key:index:hash` on every chunk in place.
  - The key is `source:page`.
  - The index counts the preceding run of chunks with the same key.
  - The hash part is the SHA-256 hex digest of the chunk text.

  The repository has two copies that differ:
  - `image/src/pdf_qa/chroma_handler.py` keys by the base name of the source
    (a missing source reads as `''`) and keeps the first 8 hex digits.
  - `chroma_handler.py` keys by the stored source as it is (a missing source or
    page renders as `None`) and keeps the full 64-digit digest.

  The shared loop is `ChunkIds.AssignIdsInPlace`. It is a method over a
  sequence of `Document` objects whose `metadata` field it updates. Its
  postcondition gives the new state as `Written`: the old views with the k-th
  write applied to every position that holds the same object. This is exact
  even when the list holds one object more than once.
- **Deduplicating insert.** `add_to_chroma` reads the store's id set, keeps in
  order the chunks whose id is new, and calls `add_documents` only when at
  least one chunk is kept. The image copy does nothing when it gets no
  database handle. The store is `ChromaCollection`: its id set and a log of
  the id lists passed to `add_documents`.
- **Query records** (`image/src/query_model.py`):
  - the pydantic defaults and the six-month TTL;
  - `as_ddb_item`, which drops `None` fields;
  - `cls(**item)`: defaults for missing keys, a validation error for a value
    of the wrong type;
  - the way `get_item` / `list_items` / `put_item` map a service answer to a
    result.
- **The generated client mapping**
  (`rag-frontend/src/api-client/models/QueryModel.ts`):
  - `QueryModelFromJSON` / `QueryModelToJSON` over a datatype of JavaScript
    values;
  - `instanceOfQueryModel`;
  - the round trips between the wire object and the client object.

  `QueryModelFromJSON` and `QueryModelToJSON` are defined as the typed
  converters called with `ignoreDiscriminator = false`, which neither
  converter reads.

Files:

| file | module | contents |
|---|---|---|
| `py_text.dfy` | `PyText` | `str(int)`, `os.path.basename`, `s[:n]`, split at the last `:`, the shape of a hex digest |
| `chunk_ids.dfy` | `ChunkIds` | documents, the running index, the id format, the in-place id loop, the filter, the store |
| `image_chroma_handler.dfy` | `ImageChromaHandler` | the image copy's key, hash part, `add_id_metadata_to_chunks`, `add_to_chroma` |
| `root_chroma_handler.dfy` | `RootChromaHandler` | the top-level copy's key, hash, `add_id_metadata_to_chunks`, `add_to_chroma` |
| `query_records.dfy` | `QueryRecords` | the query record, its item form, the table calls |
| `query_model_json.dfy` | `QueryModelJson` | the TypeScript converters |

Where the description of the system and the code disagree, the model follows
the code:

- The image copy puts the base name of the source in the identifier, not the
  source path.
- Identifiers are unique within a batch only inside one run of equal keys.
  `ChunkIds.AssignedIdsRepeatOnlyAcrossRuns` states when they can repeat.

## Model

| member | source | states |
|---|---|---|
| PyText.ParseNatToString | chroma_handler.py:79 | the decimal rendering of a chunk index reads back as that index |
| PyText.NatToStringInjective | chroma_handler.py:79 | different indexes render differently |
| PyText.BasenameIsLastSegment | image/src/pdf_qa/chroma_handler.py:152 | the base name is the suffix of the path after its last '/', holds no '/', and is preceded by '/' unless it is the whole path |
| PyText.BasenameOfName | image/src/pdf_qa/chroma_handler.py:152 | a name without '/' is its own base name |
| PyText.BasenameAfterSlash | image/src/pdf_qa/chroma_handler.py:152 | `dir/name` has base name `name` |
| PyText.SplitAtLastColonOf | chroma_handler.py:79 | splitting `before:after` at the last ':' gives back both parts when `after` holds no ':' |
| ChunkIds.RunIndexIsPrecedingRun | image/src/pdf_qa/chroma_handler.py:146-158 | the loop's index at position i is n exactly when the n chunks right before i have i's key and the chunk before them does not |
| ChunkIds.RunIndex | image/src/pdf_qa/chroma_handler.py:154-158 | the index at a position never exceeds the position: a run cannot reach further back than the list |
| ChunkIds.RunIndexWithinRun | chroma_handler.py:63-75 | inside a run of equal keys the index grows by one per chunk |
| ChunkIds.ParseFormatId | chroma_handler.py:79 | `key:index:hash` reads back as (key, index, hash) whenever the hash holds no ':' |
| ChunkIds.FormatIdShape | image/src/pdf_qa/chroma_handler.py:162 | an identifier starts with its key and a ':', ends with a ':' and its hash part, and holds only decimal digits in between |
| ChunkIds.FormatIdInjective | image/src/pdf_qa/chroma_handler.py:162 | identifiers built from different (key, index, hash) differ, so chunks at the same key and index whose hash parts differ get different ids |
| ChunkIds.SetId | image/src/pdf_qa/chroma_handler.py:163 | the write on one chunk object changes exactly the views of the positions holding that object, which take the new id |
| ChunkIds.AssignIdsInPlace | image/src/pdf_qa/chroma_handler.py:146-165 | after the pass the list shows every write, in order, of the identifiers built from each chunk's key, running index and hash part |
| ChunkIds.ParseIdsBy | chroma_handler.py:63-82 | the identifier of position k reads back as that chunk's key, its running index and its hash part |
| ChunkIds.IdsBySameKeysAndTexts | image/src/pdf_qa/chroma_handler.py:149-163 | identifiers depend only on the ordered keys and texts of the chunks |
| ChunkIds.IdsByAfterWrite | image/src/pdf_qa/chroma_handler.py:149-163 | running the pass again on its own output gives the same identifiers |
| ChunkIds.WrittenKeepsAllButId | image/src/pdf_qa/chroma_handler.py:163 | the pass changes nothing of a chunk but its "id" entry |
| ChunkIds.WrittenKeepsKey | image/src/pdf_qa/chroma_handler.py:149-163 | the pass keeps each chunk's text and key |
| ChunkIds.WrittenLast | image/src/pdf_qa/chroma_handler.py:163 | a position whose object appears nowhere later carries its own identifier, with the rest of its metadata as before |
| ChunkIds.WrittenHasIds | image/src/pdf_qa/chroma_handler.py:163 | every chunk the pass reached carries a string id |
| ChunkIds.WrittenDistinct | chroma_handler.py:66-80 | when the list holds each object once, every chunk gets exactly its own identifier |
| ChunkIds.AssignedIdsRepeatOnlyAcrossRuns | image/src/pdf_qa/chroma_handler.py:154-162 | two ids of one batch are equal only if their hash parts are equal and a different key lies between them |
| ChunkIds.FilterNewAppend | image/src/pdf_qa/chroma_handler.py:110-112 | the filter keeps order: filtering a concatenation concatenates the filtered parts |
| ChunkIds.FilterNew | image/src/pdf_qa/chroma_handler.py:110-112 | the kept chunks are never more than the chunks given |
| ChunkIds.FilterNewCounts | chroma_handler.py:30-32 | a new id keeps every occurrence (no dedup inside the batch) and an existing id keeps none |
| ChunkIds.FilterNewEmpty | image/src/pdf_qa/chroma_handler.py:114-115 | nothing is kept exactly when every id already exists |
| ChunkIds.ReingestKeepsNothing | image/src/pdf_qa/chroma_handler.py:108-123 | once a batch's new ids are stored, the same batch keeps nothing |
| ChunkIds.FilterNewMembers | chroma_handler.py:30-32 | the filter only keeps chunks of the input |
| ChunkIds.ViewsFilterNew | chroma_handler.py:30-32 | filtering the chunk objects and filtering their views agree |
| ChunkIds.IdsOfFilterNew | image/src/pdf_qa/chroma_handler.py:117 | the ids passed to the insert are the kept chunks' ids, position by position |
| ChunkIds.SelectNewChunks | image/src/pdf_qa/chroma_handler.py:106-112 | the append loop returns exactly the chunks whose id is not in the store, in order |
| ChunkIds.ChromaCollection.constructor | chroma_handler.py:20-24 | a collection starts from the ids it holds, with no insert made |
| ChunkIds.ChromaCollection.ExistingIds | image/src/pdf_qa/chroma_handler.py:108-109 | `db.get` reports the stored id set |
| ChunkIds.ChromaCollection.AddDocuments | image/src/pdf_qa/chroma_handler.py:119 | the store gains exactly the given ids and logs the call |
| ChunkIds.AddNewChunks | image/src/pdf_qa/chroma_handler.py:106-123 | the chunks are left as they are; the store gains exactly the new ids, with one insert of them in order when there is at least one and none otherwise |
| ImageChromaHandler.SourcePageKeyIgnoresId | image/src/pdf_qa/chroma_handler.py:150-152 | the key reads no "id" entry, so writing ids leaves keys unchanged |
| ImageChromaHandler.SourcePageKeyShape | image/src/pdf_qa/chroma_handler.py:150-152 | the key ends in ':' and the rendered page, and what precedes it is a file name holding no '/' |
| ImageChromaHandler.HashPartIsPrefix | image/src/pdf_qa/chroma_handler.py:160 | the hash part is the digest's first 8 characters, or the whole digest when it is shorter |
| ImageChromaHandler.SourcePageKeyIgnoresDirectory | image/src/pdf_qa/chroma_handler.py:152 | the same file name under two directories gives the same key |
| ImageChromaHandler.MissingSourceIsEmpty | image/src/pdf_qa/chroma_handler.py:150-152 | a chunk without a source has an empty file name in its key |
| ImageChromaHandler.ParseChunkId | image/src/pdf_qa/chroma_handler.py:160-162 | each id reads back as `basename:page`, the running index, and the first 8 digest digits, so the hash part has length 8 |
| ImageChromaHandler.AddIdMetadataToChunks | image/src/pdf_qa/chroma_handler.py:126-165 | returns the same list, with texts unchanged, every chunk carrying an id, and every chunk not repeated later holding its old metadata plus its own id |
| ImageChromaHandler.AddToChroma | image/src/pdf_qa/chroma_handler.py:92-123 | with no database nothing changes; otherwise the chunks get their ids and the store gains exactly the new ones, in one insert only if there are any |
| RootChromaHandler.MissingSourceRendersNone | chroma_handler.py:67-69 | a chunk without a source gets the text `None` as its key's source part |
| RootChromaHandler.SourcePageKeyKeepsPath | chroma_handler.py:67-69 | two different source paths on the same page give different keys |
| RootChromaHandler.SourcePageKeyShape | chroma_handler.py:67-69 | the key is the whole rendered source, a ':', then the rendered page |
| RootChromaHandler.SourcePageKeyIgnoresId | chroma_handler.py:67-69 | the key reads no "id" entry |
| RootChromaHandler.ParseChunkId | chroma_handler.py:77-79 | each id reads back as `source:page`, the running index, and the full 64-digit digest |
| RootChromaHandler.AddIdMetadataToChunks | chroma_handler.py:43-82 | returns the same list, with texts unchanged, every chunk carrying an id, and every chunk not repeated later holding its old metadata plus its own id |
| RootChromaHandler.AddToChroma | chroma_handler.py:9-40 | the chunks get their ids and the collection gains exactly the new ones, in one insert only if there are any |
| QueryRecords.TtlIsSixMonthsOfSeconds | image/src/query_model.py:13-14 | the TTL is 15,552,000 seconds |
| QueryRecords.NewQueryIsPending | image/src/query_model.py:18-27 | a new query is pending (no answer, no sources, not complete), belongs to "nobody", and expires six months after its clock reading |
| QueryRecords.NewQuery | image/src/query_model.py:18-27 | a record built from its text alone is pending and keeps that text |
| QueryRecords.NewQueryFromItem | image/src/query_model.py:18-27 | building a record from its text alone fills in every default |
| QueryRecords.DropNone | image/src/query_model.py:52 | the item keeps exactly the non-None entries, with their values |
| QueryRecords.ModelDumpFields | image/src/query_model.py:52 | `model_dump()` holds every field under its own name with the model's value, and a missing answer as None |
| QueryRecords.AsDdbItemFields | image/src/query_model.py:51-53 | the item holds no None; `answer_text` is present exactly when there is an answer; every other field is present with the model's value |
| QueryRecords.AsDdbItem | image/src/query_model.py:51-53 | the item holds no None, and `answer_text` is left out exactly when there is no answer |
| QueryRecords.FromItem | image/src/query_model.py:18-27 | building a record fails, with a validation error, exactly when some field has a value of the wrong type or `query_text` is missing |
| QueryRecords.FromItemNeedsQueryText | image/src/query_model.py:24 | an item without `query_text` is refused |
| QueryRecords.FromAsDdbItem | image/src/query_model.py:51-53 | the stored item rebuilds the record it came from, whatever the defaults would draw |
| QueryRecords.GetItemResult | image/src/query_model.py:57-70 | None on a client error or a missing item; otherwise the record built from the item, whose validation error propagates |
| QueryRecords.RecordsFrom | image/src/query_model.py:89 | one record per item in order, or a validation error exactly when some item is invalid |
| QueryRecords.ListItemsResult | image/src/query_model.py:82-89 | an empty list on a client error or without `Items`; otherwise the records of the items |
| QueryRecords.ListStoredRecords | image/src/query_model.py:88-89 | stored items list back as the records they were made from, in order |
| QueryRecords.QueryTable.constructor | image/src/query_model.py:31-35 | the table is opened under its name holding whatever items it already has, valid records or not |
| QueryRecords.QueryTable.PutItem | image/src/query_model.py:38-48 | the item is stored under the query id; an unset table name or a client error raises and leaves the table unchanged |
| QueryRecords.QueryTable.GetItem | image/src/query_model.py:57-70 | an unset table name raises; a client error gives None; otherwise the stored item, if any, goes through `GetItemResult` |
| QueryRecords.QueryTable.ListItems | image/src/query_model.py:73-89 | an unset table name raises; otherwise the answer goes through `ListItemsResult` |
| QueryRecords.PutThenGet | image/src/query_model.py:38-70 | a record stored by `put_item` is fetched back unchanged by `get_item` |
| QueryModelJson.NullishToUndefined | rag-frontend/src/api-client/models/QueryModel.ts:98 | the result is never null; it is undefined exactly for a nullish input and the input otherwise |
| QueryModelJson.MapJs | rag-frontend/src/api-client/models/QueryModel.ts:104 | mapping keeps length and order |
| QueryModelJson.MapJsInverse | rag-frontend/src/api-client/models/QueryModel.ts:104-126 | mapping with a converter and its inverse gives the array back |
| QueryModelJson.MapSources | rag-frontend/src/api-client/models/QueryModel.ts:104 | nullish sources become undefined, an array is mapped element-wise, anything else throws |
| QueryModelJson.QueryModelFromJSONTyped | rag-frontend/src/api-client/models/QueryModel.ts:92-107 | a nullish input is returned unchanged; the conversion throws exactly when `sources` is neither nullish nor an array |
| QueryModelJson.QueryModelFromJSON | rag-frontend/src/api-client/models/QueryModel.ts:88-90 | the result does not depend on `ignoreDiscriminator`, and a nullish input is returned unchanged |
| QueryModelJson.QueryModelToJSONTyped | rag-frontend/src/api-client/models/QueryModel.ts:113-129 | a nullish input is returned unchanged; a model gives an object, or throws exactly when its `sources` is neither nullish nor an array |
| QueryModelJson.QueryModelToJSON | rag-frontend/src/api-client/models/QueryModel.ts:109-111 | the result does not depend on `ignoreDiscriminator`, and a nullish input is returned unchanged |
| QueryModelJson.WireObjectFields | rag-frontend/src/api-client/models/QueryModel.ts:118-128 | the wire object has exactly the eight snake_case keys, each with the client value as it is |
| QueryModelJson.FromJSONNormalisesNulls | rag-frontend/src/api-client/models/QueryModel.ts:98-105 | a null or undefined optional field becomes undefined and any other value is copied; `queryText` is copied as it is |
| QueryModelJson.FromJSONHasNoNulls | rag-frontend/src/api-client/models/QueryModel.ts:98-105 | after conversion only `queryText` can be null |
| QueryModelJson.InstanceAfterFromJSON | rag-frontend/src/api-client/models/QueryModel.ts:83-86 | a converted object passes `instanceOfQueryModel` exactly when the wire `query_text` is not undefined |
| QueryModelJson.InstanceOfQueryModel | rag-frontend/src/api-client/models/QueryModel.ts:83-86 | an object is a `QueryModel` exactly when its `queryText` is not undefined; a null one passes |
| QueryModelJson.WireRoundTrip | rag-frontend/src/api-client/models/QueryModel.ts:96-127 | a wire object with all eight fields set survives `ToJSON(FromJSON(j))`, given `Source` converters that undo each other |
| QueryModelJson.ModelRoundTrip | rag-frontend/src/api-client/models/QueryModel.ts:98-127 | a client object with no null optional field survives `FromJSON(ToJSON(m))`, given `Source` converters that undo each other |
| QueryModelJson.NullAnswerComesBackUndefined | rag-frontend/src/api-client/models/QueryModel.ts:103-125 | a null `answerText` comes back undefined |
| QueryModelJson.NullishRoundTrip | rag-frontend/src/api-client/models/QueryModel.ts:93-116 | null and undefined pass through both converters unchanged |

## Left out

- SHA-256 itself (`hashlib.sha256(...).hexdigest()`) is a function parameter `sha`. The lemmas that read ids back assume only that it always returns 64 lower-case hex digits (`IsSha256Like`). Collision resistance is not modelled, so "different texts give different ids" holds only as far as the hash parts differ.
- Opening the store is not modelled: `get_chroma_db`, `Chroma(...)`, `generate_embedding`, the API key and the network. The database is an object passed in. In the image copy it is nullable, standing for `get_chroma_db` returning None.
- `add_documents` is reduced to the ids it stores and a log of its calls. Embeddings and the stored texts are not modelled.
- `clear_database`, the S3 sync, the `/tmp` copy and the permission helpers of the image copy are file-system and cloud I/O.
- `print` calls are not modelled.
- Each `Document` owns its metadata map. Two distinct `Document` objects sharing one metadata dict are not modelled. The same `Document` object appearing twice in the list is modelled.
- ImageChromaHandler.AddIdMetadataToChunks: requires every chunk's `source` to be a string. `os.path.basename` raises `TypeError` on other values, and that exception is not represented.
- ImageChromaHandler.AddToChroma: requires string sources only when a database is given, for the same reason. When it gets None it returns before reading any source.
- Metadata values are strings, integers or None. Pages of other Python types (floats, bools) are not modelled.
- The read-then-write race between concurrent `add_to_chroma` calls is not modelled; the model is sequential.
- The default factories are not modelled as random or timed. `uuid.uuid4().hex` and the two `int(time.time())` readings are parameters (`Draws`). `int(time.time() + TTL)` is taken as the truncated clock reading plus the TTL, ignoring floating-point rounding.
- Pydantic's lax coercions (numeric strings to int, and the like) are not modelled. A field is accepted only in its own type, with DynamoDB's integral `Decimal`s read as integers.
- The DynamoDB service semantics of `list_items` (the index, `Limit`, descending order, paging) are not modelled. The service's answer is a parameter. A client error is likewise a parameter of each call.
- `list_documents` is an empty stub and is not modelled.
- JavaScript numbers are modelled as integers. `JSON.stringify` dropping undefined keys happens outside these converters and is not modelled.
- `generate_content_hash` encodes the chunk text with `.encode('utf-8')`, which raises `UnicodeEncodeError` on a lone surrogate, after earlier chunks in the list already have their ids. Dafny's `char` cannot hold a lone surrogate, so this error path is not modelled.
- The `Source` converters (`Source.ts`) are not part of this model; they are parameters.
- QueryModelJson.InstanceOfQueryModel: it works on the client record, where an absent `queryText` and an undefined one are the same value. The source answers false for both, so nothing is lost.
