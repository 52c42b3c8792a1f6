/** What both copies of the chunk handler share: the chunk objects and their
    metadata, the running index that counts the preceding run of equal
    `source:page` keys, the `key:index:hash` identifier format, the
    deduplicating filter, and the vector store as seen by the ingest step
    (an id set and an insert). */
module ChunkIds {
  import opened PyText

  /** A metadata value as the loaders produce it: a string, an int, or None. */
  datatype Value = Str(s: string) | Int(n: int) | Null

  /** `f'{v}'`: how an f-string renders a metadata value. */
  function Render(v: Value): string
  {
    match v
    case Str(s) => s
    case Int(n) => IntToString(n)
    case Null => "None"
  }

  /** `metadata.get(key, default)`. */
  function GetOr(m: map<string, Value>, key: string, default: Value): (v: Value)
    ensures key in m ==> v == m[key]
    ensures key !in m ==> v == default
  {
    if key in m then m[key] else default
  }

  /** A LangChain `Document`: its text and its mutable metadata dict. */
  class Document {
    var pageContent: string
    var metadata: map<string, Value>

    constructor (pageContent: string, metadata: map<string, Value>)
      ensures this.pageContent == pageContent && this.metadata == metadata
    {
      this.pageContent := pageContent;
      this.metadata := metadata;
    }
  }

  /** A document's state at one moment, as a value. */
  datatype DocView = DocView(content: string, metadata: map<string, Value>)

  function Views(chunks: seq<Document>): (vs: seq<DocView>)
    reads chunks
    ensures |vs| == |chunks|
    ensures forall k :: 0 <= k < |chunks| ==>
      vs[k] == DocView(chunks[k].pageContent, chunks[k].metadata)
  {
    seq(|chunks|, k requires 0 <= k < |chunks| reads chunks =>
      DocView(chunks[k].pageContent, chunks[k].metadata))
  }

  /** The hash function handed to the model in place of SHA-256: whatever
      text it is given, it answers with a 64-digit lower-case hex digest. */
  ghost predicate IsSha256Like(sha: string -> string)
  {
    forall t :: IsSha256HexDigest(sha(t))
  }

  /** No later position of the list holds the object at position k, up to
      position `bound`: the write made at k is the last one up to there. */
  predicate LastBefore(chunks: seq<Document>, k: nat, bound: nat)
    requires k < |chunks| && bound <= |chunks|
  {
    forall j :: k < j < bound ==> chunks[j] != chunks[k]
  }

  /** The list holds each document object at most once. */
  predicate Distinct(chunks: seq<Document>)
  {
    forall i, j :: 0 <= i < j < |chunks| ==> chunks[i] != chunks[j]
  }

  // ---------------------------------------------------------------------
  // The running index

  /** The chunk index as the loop computes it: 0 for the first chunk, the
      previous index + 1 when the key repeats the previous chunk's key, and
      0 when it differs. */
  function RunIndex(keys: seq<string>, i: nat): (n: nat)
    requires i < |keys|
    ensures n <= i
  {
    if i == 0 then 0
    else if keys[i] == keys[i - 1] then RunIndex(keys, i - 1) + 1
    else 0
  }

  /** Reference definition: the n chunks right before position i carry
      position i's key, and the chunk before them (if any) does not. */
  ghost predicate PrecedingRun(keys: seq<string>, i: nat, n: nat)
    requires i < |keys|
  {
    && n <= i
    && (forall j :: i - n <= j < i ==> keys[j] == keys[i])
    && (n < i ==> keys[i - n - 1] != keys[i])
  }

  /** The index always equals the length of the preceding run of equal keys,
      and nothing else does. */
  lemma {:induction false} RunIndexIsPrecedingRun(keys: seq<string>, i: nat, n: nat)
    requires i < |keys|
    ensures RunIndex(keys, i) == n <==> PrecedingRun(keys, i, n)
    decreases i
  {
    RunIndexPrecedingRun(keys, i);
  }

  lemma {:induction false} RunIndexPrecedingRun(keys: seq<string>, i: nat)
    requires i < |keys|
    ensures PrecedingRun(keys, i, RunIndex(keys, i))
    decreases i
  {
    if i > 0 && keys[i] == keys[i - 1] {
      RunIndexPrecedingRun(keys, i - 1);
    }
  }

  /** Inside one run of equal keys the index grows by one per chunk. */
  lemma {:induction false} RunIndexWithinRun(keys: seq<string>, i: nat, j: nat)
    requires i <= j < |keys|
    requires forall k :: i < k <= j ==> keys[k] == keys[i]
    ensures RunIndex(keys, j) == RunIndex(keys, i) + (j - i)
    decreases j - i
  {
    if i < j {
      RunIndexWithinRun(keys, i, j - 1);
    }
  }

  // ---------------------------------------------------------------------
  // The identifier format

  datatype IdParts = IdParts(key: string, index: nat, hash: string)

  /** `f'{key}:{index}:{hash}'`. */
  function FormatId(p: IdParts): string
  {
    p.key + ":" + NatToString(p.index) + ":" + p.hash
  }

  /** An identifier starts with its key and a ':', ends with a ':' and its
      hash, and holds a non-empty decimal index in between. */
  lemma FormatIdShape(p: IdParts)
    ensures var id := FormatId(p);
      && |id| > |p.key| + |p.hash| + 2
      && id[..|p.key|] == p.key && id[|p.key|] == ':'
      && id[|id| - |p.hash|..] == p.hash && id[|id| - |p.hash| - 1] == ':'
      && AllDigits(id[|p.key| + 1..|id| - |p.hash| - 1])
  {
    var digits := NatToString(p.index);
    assert FormatId(p)[|p.key| + 1..|FormatId(p)| - |p.hash| - 1] == digits;
  }

  /** Reads an identifier back from the right: the hash after the last ':',
      the index before it; the key (which may itself hold ':') is the rest. */
  function ParseId(id: string): (r: Option<IdParts>)
    ensures r.Some? ==> ':' !in r.value.hash
  {
    match SplitAtLastColon(id)
    case None => None
    case Some((rest, hash)) =>
      match SplitAtLastColon(rest)
      case None => None
      case Some((key, digits)) =>
        match ParseNat(digits)
        case None => None
        case Some(index) => Some(IdParts(key, index, hash))
  }

  lemma ColonIsNotDigit(s: string)
    requires AllDigits(s)
    ensures ':' !in s
  {
    forall k | 0 <= k < |s| ensures s[k] != ':' {
      assert IsDigit(s[k]);
    }
  }

  /** Every identifier whose hash part holds no ':' can be read back. */
  lemma ParseFormatId(p: IdParts)
    requires ':' !in p.hash
    ensures ParseId(FormatId(p)) == Some(p)
  {
    var digits := NatToString(p.index);
    ColonIsNotDigit(digits);
    assert FormatId(p) == (p.key + ":" + digits) + ":" + p.hash;
    SplitAtLastColonOf(p.key + ":" + digits, p.hash);
    SplitAtLastColonOf(p.key, digits);
    ParseNatToString(p.index);
  }

  /** Distinct parts give distinct identifiers. */
  lemma FormatIdInjective(p: IdParts, q: IdParts)
    requires ':' !in p.hash && ':' !in q.hash
    requires FormatId(p) == FormatId(q)
    ensures p == q
  {
    ParseFormatId(p);
    ParseFormatId(q);
  }

  lemma HexDigestHasNoColon(h: string)
    requires forall k :: 0 <= k < |h| ==> IsLowerHexDigit(h[k])
    ensures ':' !in h
  {
    forall k | 0 <= k < |h| ensures h[k] != ':' {
      assert IsLowerHexDigit(h[k]);
    }
  }

  /** The identifier of position i of a batch, given each chunk's key and
      hash part. */
  function IdAt(keys: seq<string>, hashes: seq<string>, i: nat): string
    requires |keys| == |hashes| && i < |keys|
  {
    FormatId(IdParts(keys[i], RunIndex(keys, i), hashes[i]))
  }

  /** The identifiers of the first n positions of a batch. */
  function IdsUpTo(keys: seq<string>, hashes: seq<string>, n: nat): (ids: seq<string>)
    requires |keys| == |hashes| && n <= |keys|
    ensures |ids| == n
  {
    if n == 0 then [] else IdsUpTo(keys, hashes, n - 1) + [IdAt(keys, hashes, n - 1)]
  }

  lemma {:induction false} IdsUpToAt(keys: seq<string>, hashes: seq<string>, n: nat, i: nat)
    requires |keys| == |hashes| && i < n <= |keys|
    ensures IdsUpTo(keys, hashes, n)[i] == IdAt(keys, hashes, i)
    decreases n
  {
    if i < n - 1 {
      IdsUpToAt(keys, hashes, n - 1, i);
    }
  }

  /** The identifiers of an ordered batch. */
  function AssignedIds(keys: seq<string>, hashes: seq<string>): (ids: seq<string>)
    requires |keys| == |hashes|
    ensures |ids| == |keys|
  {
    IdsUpTo(keys, hashes, |keys|)
  }

  /** The key function of one copy of the handler reads no "id" entry, so
      writing the identifiers does not change the keys. */
  ghost predicate IgnoresId(keyOf: map<string, Value> --> string)
  {
    forall m: map<string, Value>, v: Value {:trigger keyOf.requires(m["id" := v])} :: keyOf.requires(m) ==>
      keyOf.requires(m["id" := v]) && keyOf(m["id" := v]) == keyOf(m)
  }

  function KeysBy(views: seq<DocView>, keyOf: map<string, Value> --> string): (keys: seq<string>)
    requires forall k :: 0 <= k < |views| ==> keyOf.requires(views[k].metadata)
    ensures |keys| == |views|
    ensures forall k :: 0 <= k < |views| ==> keys[k] == keyOf(views[k].metadata)
  {
    seq(|views|, k requires 0 <= k < |views| => keyOf(views[k].metadata))
  }

  function HashesBy(views: seq<DocView>, hashOf: string -> string): (hashes: seq<string>)
    ensures |hashes| == |views|
    ensures forall k :: 0 <= k < |views| ==> hashes[k] == hashOf(views[k].content)
  {
    seq(|views|, k requires 0 <= k < |views| => hashOf(views[k].content))
  }

  /** The identifiers one pass gives a batch, for a copy's key function and
      hash part. */
  function IdsBy(views: seq<DocView>, keyOf: map<string, Value> --> string, hashOf: string -> string): (ids: seq<string>)
    requires forall k :: 0 <= k < |views| ==> keyOf.requires(views[k].metadata)
    ensures |ids| == |views|
  {
    AssignedIds(KeysBy(views, keyOf), HashesBy(views, hashOf))
  }

  lemma RunIndexStep(keys: seq<string>, i: nat, prev: Option<string>, prevIdx: nat)
    requires i < |keys|
    requires i == 0 ==> prev == None
    requires 0 < i ==> prev == Some(keys[i - 1]) && prevIdx == RunIndex(keys, i - 1)
    ensures RunIndex(keys, i) == if prev == Some(keys[i]) then prevIdx + 1 else 0
  {
  }

  /** A view with its "id" entry set to an identifier. */
  function WithId(v: DocView, id: string): (w: DocView)
    ensures w.content == v.content && w.metadata - {"id"} == v.metadata - {"id"}
    ensures "id" in w.metadata && w.metadata["id"] == Str(id)
  {
    DocView(v.content, v.metadata["id" := Str(id)])
  }

  /** `chunk.metadata['id'] = id` on the object at position i, seen from
      the whole list: every position holding that object sees the write. */
  function SetIdWhere(vs: seq<DocView>, chunks: seq<Document>, i: nat, id: string): (r: seq<DocView>)
    requires |vs| == |chunks| && i < |chunks|
    ensures |r| == |vs|
    ensures forall k :: 0 <= k < |vs| ==> r[k] == if chunks[k] == chunks[i] then WithId(vs[k], id) else vs[k]
  {
    seq(|vs|, k requires 0 <= k < |vs| => if chunks[k] == chunks[i] then WithId(vs[k], id) else vs[k])
  }

  /** The list as seen after the loop's first |ids| writes, the write at
      position j setting identifier ids[j]. */
  function Written(views: seq<DocView>, chunks: seq<Document>, ids: seq<string>): (r: seq<DocView>)
    requires |views| == |chunks| && |ids| <= |chunks|
    ensures |r| == |views|
  {
    if ids == [] then views
    else SetIdWhere(Written(views, chunks, ids[..|ids| - 1]), chunks, |ids| - 1, ids[|ids| - 1])
  }

  /** `chunk.metadata['id'] = chunk_id` for the chunk at position i, as the
      loop's write number i: before it the list shows the writes made so
      far, after it those and this one. */
  method SetId(chunks: seq<Document>, i: nat, id: string, ghost views: seq<DocView>, ghost ids: seq<string>)
    requires |views| == |chunks| && i == |ids| && i < |chunks|
    requires Views(chunks) == Written(views, chunks, ids)
    modifies chunks[i]
    ensures Views(chunks) == Written(views, chunks, ids + [id])
  {
    chunks[i].metadata := chunks[i].metadata["id" := Str(id)];
    assert (ids + [id])[..i] == ids;
  }

  /** The loop of `add_id_metadata_to_chunks`, shared by both copies, which
      differ only in the key they build and in how much of the digest they
      keep: one pass over the list, keeping the previous key and the running
      index, writing `metadata['id']` of each chunk in place. */
  method AssignIdsInPlace(chunks: seq<Document>, keyOf: map<string, Value> --> string, hashOf: string -> string)
    requires IgnoresId(keyOf)
    requires forall k :: 0 <= k < |chunks| ==> keyOf.requires(chunks[k].metadata)
    modifies chunks
    ensures Views(chunks) == Written(old(Views(chunks)), chunks, IdsBy(old(Views(chunks)), keyOf, hashOf))
  {
    ghost var views := Views(chunks);
    ghost var keys := KeysBy(views, keyOf);
    ghost var hashes := HashesBy(views, hashOf);
    ghost var ids: seq<string> := [];
    var prevSourcePage: Option<string> := None;
    var currentChunkIdx: nat := 0;
    var i := 0;
    while i < |chunks|
      invariant 0 <= i <= |chunks|
      invariant ids == IdsUpTo(keys, hashes, i)
      invariant Views(chunks) == Written(views, chunks, ids)
      invariant i == 0 ==> prevSourcePage == None
      invariant 0 < i ==> prevSourcePage == Some(keys[i - 1]) && currentChunkIdx == RunIndex(keys, i - 1)
    {
      var chunk := chunks[i];
      WrittenKeepsKey(views, chunks, ids, i, keyOf);
      var currentSourcePage := keyOf(chunk.metadata);
      RunIndexStep(keys, i, prevSourcePage, currentChunkIdx);
      if prevSourcePage == Some(currentSourcePage) {
        currentChunkIdx := currentChunkIdx + 1;
      } else {
        currentChunkIdx := 0;
      }
      prevSourcePage := Some(currentSourcePage);
      var contentHash := hashOf(chunk.pageContent);
      var chunkId := FormatId(IdParts(currentSourcePage, currentChunkIdx, contentHash));
      SetId(chunks, i, chunkId, views, ids);
      ids := ids + [chunkId];
      i := i + 1;
    }
  }

  /** Reading back the identifier of position k gives that chunk's key,
      the running index of its key, and its hash part. */
  lemma ParseIdsBy(views: seq<DocView>, keyOf: map<string, Value> --> string, hashOf: string -> string, k: nat)
    requires forall j :: 0 <= j < |views| ==> keyOf.requires(views[j].metadata)
    requires k < |views| && ':' !in hashOf(views[k].content)
    ensures ParseId(IdsBy(views, keyOf, hashOf)[k])
      == Some(IdParts(keyOf(views[k].metadata), RunIndex(KeysBy(views, keyOf), k), hashOf(views[k].content)))
  {
    IdsUpToAt(KeysBy(views, keyOf), HashesBy(views, hashOf), |views|, k);
    ParseFormatId(IdParts(keyOf(views[k].metadata), RunIndex(KeysBy(views, keyOf), k), hashOf(views[k].content)));
  }

  /** The identifiers depend only on the ordered keys and texts of the
      chunks: two batches that agree on those get the same identifiers. */
  lemma IdsBySameKeysAndTexts(views: seq<DocView>, others: seq<DocView>,
                              keyOf: map<string, Value> --> string, hashOf: string -> string)
    requires |views| == |others|
    requires forall k :: 0 <= k < |views| ==> keyOf.requires(views[k].metadata) && keyOf.requires(others[k].metadata)
    requires forall k :: 0 <= k < |views| ==>
      keyOf(others[k].metadata) == keyOf(views[k].metadata) && others[k].content == views[k].content
    ensures IdsBy(others, keyOf, hashOf) == IdsBy(views, keyOf, hashOf)
  {
    assert KeysBy(others, keyOf) == KeysBy(views, keyOf);
    assert HashesBy(others, hashOf) == HashesBy(views, hashOf);
  }

  /** Running the loop again over its own output gives the same
      identifiers: the keys read no "id" entry and the text is unchanged. */
  lemma IdsByAfterWrite(views: seq<DocView>, chunks: seq<Document>, ids: seq<string>,
                        keyOf: map<string, Value> --> string, hashOf: string -> string)
    requires |views| == |chunks| && |ids| <= |chunks|
    requires IgnoresId(keyOf) && forall k :: 0 <= k < |views| ==> keyOf.requires(views[k].metadata)
    ensures forall k :: 0 <= k < |views| ==> keyOf.requires(Written(views, chunks, ids)[k].metadata)
    ensures IdsBy(Written(views, chunks, ids), keyOf, hashOf) == IdsBy(views, keyOf, hashOf)
  {
    var after := Written(views, chunks, ids);
    forall k | 0 <= k < |views|
      ensures keyOf.requires(after[k].metadata) && keyOf(after[k].metadata) == keyOf(views[k].metadata)
      ensures after[k].content == views[k].content
    {
      WrittenKeepsKey(views, chunks, ids, k, keyOf);
    }
    IdsBySameKeysAndTexts(views, after, keyOf, hashOf);
  }

  /** Writing identifiers changes nothing but the "id" entries: each view
      is as it was, or as it was with some identifier set. */
  lemma {:induction false} WrittenKeepsAllButId(views: seq<DocView>, chunks: seq<Document>, ids: seq<string>, k: nat)
    requires |views| == |chunks| && |ids| <= |chunks| && k < |chunks|
    ensures var w := Written(views, chunks, ids)[k];
      w == views[k] || ("id" in w.metadata && w.metadata["id"].Str? && w == WithId(views[k], w.metadata["id"].s))
    decreases |ids|
  {
    if ids != [] {
      WrittenKeepsAllButId(views, chunks, ids[..|ids| - 1], k);
    }
  }

  /** Nor does it change the text, or the key of a key function that reads
      no "id" entry. */
  lemma WrittenKeepsKey(views: seq<DocView>, chunks: seq<Document>, ids: seq<string>, k: nat,
                        keyOf: map<string, Value> --> string)
    requires |views| == |chunks| && |ids| <= |chunks| && k < |chunks|
    requires IgnoresId(keyOf) && keyOf.requires(views[k].metadata)
    ensures var w := Written(views, chunks, ids)[k];
      w.content == views[k].content && keyOf.requires(w.metadata) && keyOf(w.metadata) == keyOf(views[k].metadata)
  {
    WrittenKeepsAllButId(views, chunks, ids, k);
  }

  /** Each position of the list ends up with the identifier of the last
      position holding the same object: in particular a position whose
      object appears nowhere later carries its own identifier. */
  lemma {:induction false} WrittenLast(views: seq<DocView>, chunks: seq<Document>, ids: seq<string>, k: nat)
    requires |views| == |chunks| && |ids| <= |chunks| && k < |ids|
    requires LastBefore(chunks, k, |ids|)
    ensures Written(views, chunks, ids)[k] == WithId(views[k], ids[k])
    decreases |ids|
  {
    var init := ids[..|ids| - 1];
    if k < |ids| - 1 {
      WrittenLast(views, chunks, init, k);
    } else {
      WrittenKeepsAllButId(views, chunks, init, k);
    }
  }

  /** After the writes, every position the loop passed holds an identifier. */
  lemma {:induction false} WrittenHasIds(views: seq<DocView>, chunks: seq<Document>, ids: seq<string>, k: nat)
    requires |views| == |chunks| && |ids| <= |chunks| && k < |ids|
    ensures var w := Written(views, chunks, ids)[k]; "id" in w.metadata && w.metadata["id"].Str?
    decreases |ids|
  {
    if k < |ids| - 1 {
      WrittenHasIds(views, chunks, ids[..|ids| - 1], k);
    }
  }

  /** When the list holds each object once, every chunk gets its own
      identifier and nothing else of it changes. */
  lemma WrittenDistinct(views: seq<DocView>, chunks: seq<Document>, ids: seq<string>)
    requires |views| == |chunks| == |ids| && Distinct(chunks)
    ensures forall k :: 0 <= k < |chunks| ==> Written(views, chunks, ids)[k] == WithId(views[k], ids[k])
  {
    forall k | 0 <= k < |chunks| ensures Written(views, chunks, ids)[k] == WithId(views[k], ids[k]) {
      WrittenLast(views, chunks, ids, k);
    }
  }

  /** Two chunks of one batch get the same identifier only if their hash
      parts agree and a different key comes between them (so the index
      was reset); within one run of equal keys identifiers never repeat. */
  lemma AssignedIdsRepeatOnlyAcrossRuns(keys: seq<string>, hashes: seq<string>, i: nat, j: nat)
    requires |keys| == |hashes| && i < j < |keys|
    requires forall k :: 0 <= k < |hashes| ==> ':' !in hashes[k]
    requires AssignedIds(keys, hashes)[i] == AssignedIds(keys, hashes)[j]
    ensures hashes[i] == hashes[j]
    ensures exists k :: i < k <= j && keys[k] != keys[i]
  {
    IdsUpToAt(keys, hashes, |keys|, i);
    IdsUpToAt(keys, hashes, |keys|, j);
    FormatIdInjective(IdParts(keys[i], RunIndex(keys, i), hashes[i]), IdParts(keys[j], RunIndex(keys, j), hashes[j]));
    if forall k :: i < k <= j ==> keys[k] == keys[i] {
      RunIndexWithinRun(keys, i, j);
      assert false;
    }
  }

  // ---------------------------------------------------------------------
  // The deduplicating filter

  /** The set of a list's elements (`set(xs)`). */
  function Elements(xs: seq<string>): (r: set<string>)
    ensures forall x :: x in r <==> x in xs
  {
    set x | x in xs
  }

  /** Keeps, in order, the elements of xs whose identifier (ids, position by
      position) is not among the existing ones. */
  function FilterNew<T>(xs: seq<T>, ids: seq<string>, existing: set<string>): (r: seq<T>)
    requires |xs| == |ids|
    ensures |r| <= |xs|
  {
    if xs == [] then []
    else
      FilterNew(xs[..|xs| - 1], ids[..|ids| - 1], existing)
        + (if ids[|ids| - 1] in existing then [] else [xs[|xs| - 1]])
  }

  /** Order is preserved: filtering a concatenation concatenates the
      filtered parts. */
  lemma {:induction false} FilterNewAppend<T>(xs: seq<T>, ys: seq<T>, a: seq<string>, b: seq<string>, existing: set<string>)
    requires |xs| == |a| && |ys| == |b|
    ensures FilterNew(xs + ys, a + b, existing) == FilterNew(xs, a, existing) + FilterNew(ys, b, existing)
    decreases |ys|
  {
    if ys != [] {
      var ys', b' := ys[..|ys| - 1], b[..|b| - 1];
      var last := if b[|b| - 1] in existing then [] else [ys[|ys| - 1]];
      assert (xs + ys)[..|xs + ys| - 1] == xs + ys';
      assert (a + b)[..|a + b| - 1] == a + b';
      calc {
        FilterNew(xs + ys, a + b, existing);
        FilterNew(xs + ys', a + b', existing) + last;
        { FilterNewAppend(xs, ys', a, b', existing); }
        FilterNew(xs, a, existing) + FilterNew(ys', b', existing) + last;
        FilterNew(xs, a, existing) + FilterNew(ys, b, existing);
      }
    } else {
      assert xs + ys == xs && a + b == a;
    }
  }

  /** An element is kept exactly when its identifier is new: each new
      identifier keeps all its occurrences (duplicates inside one batch are
      not filtered against each other) and each existing one keeps none. */
  lemma {:induction false} FilterNewCounts(ids: seq<string>, existing: set<string>, x: string)
    ensures multiset(FilterNew(ids, ids, existing))[x] == if x in existing then 0 else multiset(ids)[x]
    decreases |ids|
  {
    if ids != [] {
      var init, last := ids[..|ids| - 1], ids[|ids| - 1];
      FilterNewCounts(init, existing, x);
      FilterNewLastCount(ids, existing);
      MultisetOfInitAndLast(ids);
      var step := if last == x then 1 else 0;
      assert multiset(ids)[x] == multiset(init)[x] + step;
      assert multiset(FilterNew(ids, ids, existing))[x]
        == multiset(FilterNew(init, init, existing))[x] + (if last in existing then 0 else step);
    }
  }

  lemma MultisetOfInitAndLast(ids: seq<string>)
    requires ids != []
    ensures multiset(ids) == multiset(ids[..|ids| - 1]) + multiset{ids[|ids| - 1]}
  {
    assert ids == ids[..|ids| - 1] + [ids[|ids| - 1]];
  }

  /** One more identifier adds itself to the kept ones when it is new. */
  lemma FilterNewLastCount(ids: seq<string>, existing: set<string>)
    requires ids != []
    ensures var init, last := ids[..|ids| - 1], ids[|ids| - 1];
      multiset(FilterNew(ids, ids, existing))
        == multiset(FilterNew(init, init, existing)) + (if last in existing then multiset{} else multiset{last})
  {
  }

  /** Nothing is kept exactly when every identifier already exists. */
  lemma {:induction false} FilterNewEmpty<T>(xs: seq<T>, ids: seq<string>, existing: set<string>)
    requires |xs| == |ids|
    ensures FilterNew(xs, ids, existing) == [] <==> forall k :: 0 <= k < |ids| ==> ids[k] in existing
    decreases |xs|
  {
    if xs != [] {
      var n := |xs| - 1;
      FilterNewEmpty(xs[..n], ids[..n], existing);
      assert FilterNew(xs, ids, existing)
        == FilterNew(xs[..n], ids[..n], existing) + (if ids[n] in existing then [] else [xs[n]]);
      assert forall k :: 0 <= k < n ==> ids[..n][k] == ids[k];
    }
  }

  /** Re-ingesting a batch after its new identifiers were stored keeps
      nothing: the store then holds every identifier of the batch. */
  lemma ReingestKeepsNothing<T>(xs: seq<T>, ids: seq<string>, existing: set<string>)
    requires |xs| == |ids|
    ensures FilterNew(xs, ids, existing + Elements(FilterNew(ids, ids, existing))) == []
  {
    var stored := existing + Elements(FilterNew(ids, ids, existing));
    forall k | 0 <= k < |ids| ensures ids[k] in stored {
      if ids[k] !in existing {
        FilterNewCounts(ids, existing, ids[k]);
        assert ids[k] in multiset(ids);
      }
    }
    FilterNewEmpty(xs, ids, stored);
  }

  /** The identifier written on a chunk. */
  predicate HasTextId(v: DocView)
  {
    "id" in v.metadata && v.metadata["id"].Str?
  }

  predicate AllHaveTextIds(views: seq<DocView>)
  {
    forall k :: 0 <= k < |views| ==> HasTextId(views[k])
  }

  /** `[chunk.metadata['id'] for chunk in chunks]`. */
  function IdsOf(views: seq<DocView>): (ids: seq<string>)
    requires AllHaveTextIds(views)
    ensures |ids| == |views|
    ensures forall k :: 0 <= k < |views| ==> ids[k] == views[k].metadata["id"].s
  {
    seq(|views|, k requires 0 <= k < |views| && HasTextId(views[k]) => views[k].metadata["id"].s)
  }

  /** Filtering the chunks and then looking at them is looking at them and
      then filtering. */
  lemma {:induction false} ViewsFilterNew(chunks: seq<Document>, ids: seq<string>, existing: set<string>)
    requires |chunks| == |ids|
    ensures Views(FilterNew(chunks, ids, existing)) == FilterNew(Views(chunks), ids, existing)
    decreases |chunks|
  {
    if chunks != [] {
      var init := chunks[..|chunks| - 1];
      ViewsFilterNew(init, ids[..|ids| - 1], existing);
      assert Views(chunks)[..|chunks| - 1] == Views(init);
    }
  }

  /** Reading the identifiers of the kept chunks gives the kept identifiers. */
  lemma {:induction false} IdsOfFilterNew(views: seq<DocView>, existing: set<string>)
    requires AllHaveTextIds(views)
    ensures AllHaveTextIds(FilterNew(views, IdsOf(views), existing))
    ensures IdsOf(FilterNew(views, IdsOf(views), existing)) == FilterNew(IdsOf(views), IdsOf(views), existing)
    decreases |views|
  {
    if views != [] {
      var init := views[..|views| - 1];
      assert IdsOf(views)[..|views| - 1] == IdsOf(init);
      IdsOfFilterNew(init, existing);
      FilterNewMembers(views, IdsOf(views), existing);
    }
  }

  lemma {:induction false} FilterNewMembers<T>(xs: seq<T>, ids: seq<string>, existing: set<string>)
    requires |xs| == |ids|
    ensures forall x :: x in FilterNew(xs, ids, existing) ==> x in xs
    decreases |xs|
  {
    if xs != [] {
      FilterNewMembers(xs[..|xs| - 1], ids[..|ids| - 1], existing);
    }
  }

  /** The append loop of `add_to_chroma`: walks the chunks once and keeps
      those whose identifier is not in the store's id set. */
  method SelectNewChunks(chunks: seq<Document>, existingIds: set<string>) returns (newChunks: seq<Document>)
    requires AllHaveTextIds(Views(chunks))
    ensures newChunks == FilterNew(chunks, IdsOf(Views(chunks)), existingIds)
  {
    ghost var ids := IdsOf(Views(chunks));
    newChunks := [];
    var i := 0;
    while i < |chunks|
      invariant 0 <= i <= |chunks|
      invariant newChunks == FilterNew(chunks[..i], ids[..i], existingIds)
    {
      var chunk := chunks[i];
      if chunk.metadata["id"].s !in existingIds {
        newChunks := newChunks + [chunk];
      }
      assert chunks[..i + 1][..i] == chunks[..i];
      assert ids[..i + 1][..i] == ids[..i];
      i := i + 1;
    }
    assert chunks[..i] == chunks && ids[..i] == ids;
  }

  // ---------------------------------------------------------------------
  // The vector store, as the ingest step sees it

  /** A Chroma collection reduced to what ingestion uses: the ids it holds
      (`db.get(include=[])`) and the `add_documents` calls made on it, each
      recorded by the ids it passed. */
  class ChromaCollection {
    var ids: set<string>
    var batches: seq<seq<string>>

    constructor (ids: set<string>)
      ensures this.ids == ids && batches == []
    {
      this.ids := ids;
      batches := [];
    }

    /** `set(db.get(include=[])['ids'])`. */
    method ExistingIds() returns (r: set<string>)
      ensures r == ids
    {
      r := ids;
    }

    /** `db.add_documents(docs, ids=docIds)`: stores each document under its
        identifier. */
    method AddDocuments(docs: seq<Document>, docIds: seq<string>)
      requires |docs| == |docIds|
      modifies this
      ensures ids == old(ids) + Elements(docIds)
      ensures batches == old(batches) + [docIds]
    {
      ids := ids + Elements(docIds);
      batches := batches + [docIds];
    }
  }

  /** The part of `add_to_chroma` both copies share once the chunks carry
      their ids: read the store's ids, keep the chunks whose id it lacks,
      in order, and add them under their ids only when there is at least
      one. The chunks themselves are not changed. */
  method AddNewChunks(chunks: seq<Document>, db: ChromaCollection)
    requires AllHaveTextIds(Views(chunks))
    modifies db
    ensures Views(chunks) == old(Views(chunks))
    ensures var newIds := FilterNew(IdsOf(old(Views(chunks))), IdsOf(old(Views(chunks))), old(db.ids));
      && db.ids == old(db.ids) + Elements(newIds)
      && db.batches == old(db.batches) + (if newIds == [] then [] else [newIds])
  {
    ghost var views := Views(chunks);
    ghost var ids := IdsOf(views);
    var existingIds := db.ExistingIds();
    var newChunks := SelectNewChunks(chunks, existingIds);
    ghost var newIds := FilterNew(ids, ids, existingIds);
    ViewsFilterNew(chunks, ids, existingIds);
    IdsOfFilterNew(views, existingIds);
    if |newChunks| > 0 {
      var newChunkIds := IdsOf(Views(newChunks));
      db.AddDocuments(newChunks, newChunkIds);
    }
    assert Views(chunks) == views;
  }
}
