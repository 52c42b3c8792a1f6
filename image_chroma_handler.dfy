/** The deployed copy of the chunk handler (`image/src/pdf_qa`): the key is
    the BASENAME of the source with the page, the hash part is the first 8
    hex digits of the content digest, and ingestion is skipped when no
    database handle is available. */
module ImageChromaHandler {
  import opened PyText
  import opened ChunkIds

  /** `[:8]`: how much of the digest this copy keeps. */
  const HashPrefixLength: nat := 8

  /** `metadata.get('source', '')` has to be a string: `os.path.basename`
      raises a TypeError on anything else. */
  predicate SourceIsText(m: map<string, Value>)
  {
    GetOr(m, "source", Str("")).Str?
  }

  predicate SourcesAreText(chunks: seq<Document>)
    reads chunks
  {
    forall k :: 0 <= k < |chunks| ==> SourceIsText(chunks[k].metadata)
  }

  /** `f'{os.path.basename(source)}:{page}'`, with a missing source read
      as '' and a missing page as None. */
  function SourcePageKey(m: map<string, Value>): string
    requires SourceIsText(m)
  {
    Basename(GetOr(m, "source", Str("")).s) + ":" + Render(GetOr(m, "page", Null))
  }

  /** The key ends in ':' and the rendered page, and what comes before is a
      file name holding no '/'. */
  lemma SourcePageKeyShape(m: map<string, Value>)
    requires SourceIsText(m)
    ensures var key, page := SourcePageKey(m), Render(GetOr(m, "page", Null));
      && |key| > |page|
      && key[|key| - |page| - 1..] == ":" + page
      && '/' !in key[..|key| - |page| - 1]
  {
    var source := GetOr(m, "source", Str("")).s;
    BasenameIsLastSegment(source);
    JoinedAtColon(Basename(source), Render(GetOr(m, "page", Null)));
  }

  /** `name + ":" + page` splits back into its two sides. */
  lemma JoinedAtColon(name: string, page: string)
    requires '/' !in name
    ensures var key := name + ":" + page;
      && |key| - |page| - 1 == |name|
      && key[|key| - |page| - 1..] == ":" + page
      && '/' !in key[..|key| - |page| - 1]
  {
    var key := name + ":" + page;
    assert key[..|name|] == name;
    assert key[|name|..] == ":" + page;
  }

  /** A chunk with no source gets an empty file name in its key. */
  lemma MissingSourceIsEmpty(m: map<string, Value>)
    requires "source" !in m
    ensures SourcePageKey(m) == ":" + Render(GetOr(m, "page", Null))
  {
  }

  /** Setting "id" leaves the key as it was. */
  lemma SourcePageKeyAfterSetId(m: map<string, Value>, v: Value)
    requires SourceIsText(m)
    ensures SourceIsText(m["id" := v]) && SourcePageKey(m["id" := v]) == SourcePageKey(m)
  {
    assert GetOr(m["id" := v], "source", Str("")) == GetOr(m, "source", Str(""));
    assert GetOr(m["id" := v], "page", Null) == GetOr(m, "page", Null);
  }

  lemma SourcePageKeyIgnoresId()
    ensures IgnoresId(SourcePageKey)
  {
    forall m: map<string, Value>, v: Value {:trigger SourcePageKey.requires(m["id" := v])}
      ensures SourcePageKey.requires(m) ==>
        SourcePageKey.requires(m["id" := v]) && SourcePageKey(m["id" := v]) == SourcePageKey(m)
    {
      if SourceIsText(m) {
        SourcePageKeyAfterSetId(m, v);
      }
    }
  }

  /** Only the file name of the source enters the key: the same file under
      two directories gives the same key. */
  lemma SourcePageKeyIgnoresDirectory(m: map<string, Value>, dir: string, name: string)
    requires '/' !in name
    ensures SourcePageKey(m["source" := Str(dir + "/" + name)]) == SourcePageKey(m["source" := Str(name)])
  {
    BasenameAfterSlash(dir, name);
    BasenameOfName(name);
  }

  /** `generate_content_hash(chunk)[:8]`, given the digest function. */
  function HashPart(sha: string -> string): string -> string
  {
    t => Take(sha(t), HashPrefixLength)
  }

  /** The hash part of an identifier is the digest's first eight characters,
      or the whole digest when it is shorter. */
  lemma HashPartIsPrefix(sha: string -> string, text: string)
    ensures var part := HashPart(sha)(text);
      && |part| == (if |sha(text)| < HashPrefixLength then |sha(text)| else HashPrefixLength)
      && part == sha(text)[..|part|]
  {
  }

  /** The identifiers `add_id_metadata_to_chunks` gives a batch. */
  function ChunkIdsFor(views: seq<DocView>, sha: string -> string): (ids: seq<string>)
    requires forall k :: 0 <= k < |views| ==> SourceIsText(views[k].metadata)
    ensures |ids| == |views|
  {
    IdsBy(views, SourcePageKey, HashPart(sha))
  }

  /** Each identifier reads back as the chunk's `basename:page` key, its
      index in the run of equal keys, and the first 8 hex digits of the
      digest of its text. */
  lemma ParseChunkId(views: seq<DocView>, sha: string -> string, k: nat)
    requires IsSha256Like(sha)
    requires forall j :: 0 <= j < |views| ==> SourceIsText(views[j].metadata)
    requires k < |views|
    ensures ParseId(ChunkIdsFor(views, sha)[k])
      == Some(IdParts(SourcePageKey(views[k].metadata), RunIndex(KeysBy(views, SourcePageKey), k),
                      sha(views[k].content)[..HashPrefixLength]))
    ensures |ParseId(ChunkIdsFor(views, sha)[k]).value.hash| == 8
  {
    var digest := sha(views[k].content);
    assert IsSha256HexDigest(digest);
    HexDigestHasNoColon(digest);
    assert HashPart(sha)(views[k].content) == digest[..HashPrefixLength];
    assert ':' !in digest[..HashPrefixLength];
    ParseIdsBy(views, SourcePageKey, HashPart(sha), k);
  }

  /** `add_id_metadata_to_chunks`: one pass over the list, writing
      `metadata['id']` of each chunk in place and returning the same list.
      A chunk keeps its text and every other metadata entry, and ends up
      with the identifier of its position (of its last position, when the
      list holds the object more than once). */
  method AddIdMetadataToChunks(chunks: seq<Document>, sha: string -> string) returns (result: seq<Document>)
    requires SourcesAreText(chunks)
    modifies chunks
    ensures result == chunks
    ensures Views(chunks) == Written(old(Views(chunks)), chunks, ChunkIdsFor(old(Views(chunks)), sha))
    ensures AllHaveTextIds(Views(chunks))
    ensures forall k :: 0 <= k < |chunks| ==> chunks[k].pageContent == old(chunks[k].pageContent)
    ensures forall k :: 0 <= k < |chunks| && LastBefore(chunks, k, |chunks|) ==>
      chunks[k].metadata == old(chunks[k].metadata)["id" := Str(ChunkIdsFor(old(Views(chunks)), sha)[k])]
  {
    ghost var views := Views(chunks);
    SourcePageKeyIgnoresId();
    AssignIdsInPlace(chunks, SourcePageKey, HashPart(sha));
    ghost var ids := ChunkIdsFor(views, sha);
    forall k | 0 <= k < |chunks|
      ensures HasTextId(Views(chunks)[k]) && chunks[k].pageContent == views[k].content
      ensures LastBefore(chunks, k, |chunks|) ==> chunks[k].metadata == views[k].metadata["id" := Str(ids[k])]
    {
      WrittenHasIds(views, chunks, ids, k);
      WrittenKeepsAllButId(views, chunks, ids, k);
      if LastBefore(chunks, k, |chunks|) {
        WrittenLast(views, chunks, ids, k);
      }
    }
    result := chunks;
  }

  /** `add_to_chroma`: with no database handle nothing happens; otherwise
      the chunks get their ids, those whose id the store lacks are kept in
      order, and they are added under their ids only when there is at
      least one. */
  method AddToChroma(chunks: seq<Document>, db: ChromaCollection?, sha: string -> string)
    requires db != null ==> SourcesAreText(chunks)
    modifies chunks, db
    ensures db == null ==> Views(chunks) == old(Views(chunks))
    ensures db != null ==>
      Views(chunks) == Written(old(Views(chunks)), chunks, ChunkIdsFor(old(Views(chunks)), sha))
    ensures db != null ==> AllHaveTextIds(Views(chunks))
    ensures db != null ==>
      var newIds := FilterNew(IdsOf(Views(chunks)), IdsOf(Views(chunks)), old(db.ids));
      && db.ids == old(db.ids) + Elements(newIds)
      && db.batches == old(db.batches) + (if newIds == [] then [] else [newIds])
  {
    if db == null {
      return;
    }
    var chunksWithIds := AddIdMetadataToChunks(chunks, sha);
    AddNewChunks(chunksWithIds, db);
  }
}
