/** The top-level copy of the chunk handler: the key is the source exactly as
    stored, with a missing source or page rendered as `None`; the hash part
    is the whole content digest; and the collection is always opened. */
module RootChromaHandler {
  import opened PyText
  import opened ChunkIds

  /** `f'{source}:{page}'` with `source = metadata.get('source')` and
      `page = metadata.get('page')`: whatever is stored, rendered as text. */
  function SourcePageKey(m: map<string, Value>): string
  {
    Render(GetOr(m, "source", Null)) + ":" + Render(GetOr(m, "page", Null))
  }

  /** The key is the whole rendered source, a ':', then the rendered page. */
  lemma SourcePageKeyShape(m: map<string, Value>)
    ensures var key, source, page := SourcePageKey(m), Render(GetOr(m, "source", Null)), Render(GetOr(m, "page", Null));
      && |key| == |source| + 1 + |page|
      && key[..|source|] == source && key[|source|] == ':' && key[|source| + 1..] == page
  {
  }

  /** A chunk whose metadata has no source gets the literal key part "None". */
  lemma MissingSourceRendersNone(m: map<string, Value>)
    requires "source" !in m
    ensures SourcePageKey(m) == "None:" + Render(GetOr(m, "page", Null))
  {
  }

  /** The whole stored path enters the key: two different paths on the same
      page give different keys, even when their file names agree. */
  lemma SourcePageKeyKeepsPath(m: map<string, Value>, a: string, b: string)
    requires a != b
    ensures SourcePageKey(m["source" := Str(a)]) != SourcePageKey(m["source" := Str(b)])
  {
    var tail := ":" + Render(GetOr(m, "page", Null));
    assert SourcePageKey(m["source" := Str(a)]) == a + tail;
    assert SourcePageKey(m["source" := Str(b)]) == b + tail;
    DifferentHeadsSameTail(a, b, tail);
  }

  /** Appending the same text to two different strings keeps them different. */
  lemma DifferentHeadsSameTail(a: string, b: string, tail: string)
    requires a != b
    ensures a + tail != b + tail
  {
    if |a| == |b| {
      var k :| 0 <= k < |a| && a[k] != b[k];
      assert (a + tail)[k] == a[k] && (b + tail)[k] == b[k];
    } else {
      assert |a + tail| != |b + tail|;
    }
  }

  /** Setting "id" leaves the key as it was. */
  lemma SourcePageKeyIgnoresId()
    ensures IgnoresId(SourcePageKey)
  {
    forall m: map<string, Value>, v: Value {:trigger SourcePageKey.requires(m["id" := v])}
      ensures SourcePageKey.requires(m) ==>
        SourcePageKey.requires(m["id" := v]) && SourcePageKey(m["id" := v]) == SourcePageKey(m)
    {
      assert GetOr(m["id" := v], "source", Null) == GetOr(m, "source", Null);
      assert GetOr(m["id" := v], "page", Null) == GetOr(m, "page", Null);
    }
  }

  /** The identifiers `add_id_metadata_to_chunks` gives a batch. */
  function ChunkIdsFor(views: seq<DocView>, sha: string -> string): (ids: seq<string>)
    ensures |ids| == |views|
  {
    IdsBy(views, SourcePageKey, sha)
  }

  /** Each identifier reads back as the chunk's `source:page` key, its index
      in the run of equal keys, and the full 64-digit digest of its text. */
  lemma ParseChunkId(views: seq<DocView>, sha: string -> string, k: nat)
    requires IsSha256Like(sha)
    requires k < |views|
    ensures ParseId(ChunkIdsFor(views, sha)[k])
      == Some(IdParts(SourcePageKey(views[k].metadata), RunIndex(KeysBy(views, SourcePageKey), k),
                      sha(views[k].content)))
    ensures |ParseId(ChunkIdsFor(views, sha)[k]).value.hash| == 64
  {
    var digest := sha(views[k].content);
    assert IsSha256HexDigest(digest);
    HexDigestHasNoColon(digest);
    ParseIdsBy(views, SourcePageKey, sha, k);
  }

  /** `add_id_metadata_to_chunks`: one pass over the list, writing
      `metadata['id']` of each chunk in place and returning the same list.
      A chunk keeps its text and every other metadata entry, and ends up
      with the identifier of its position (of its last position, when the
      list holds the object more than once). */
  method AddIdMetadataToChunks(chunks: seq<Document>, sha: string -> string) returns (result: seq<Document>)
    modifies chunks
    ensures result == chunks
    ensures Views(chunks) == Written(old(Views(chunks)), chunks, ChunkIdsFor(old(Views(chunks)), sha))
    ensures AllHaveTextIds(Views(chunks))
    ensures forall k :: 0 <= k < |chunks| ==> chunks[k].pageContent == old(chunks[k].pageContent)
    ensures forall k :: 0 <= k < |chunks| && LastBefore(chunks, k, |chunks|) ==>
      chunks[k].metadata == old(chunks[k].metadata)["id" := Str(ChunkIdsFor(old(Views(chunks)), sha)[k])]
  {
    ghost var views := Views(chunks);
    SourcePageKeyIgnoresId();
    AssignIdsInPlace(chunks, SourcePageKey, sha);
    ghost var ids := ChunkIdsFor(views, sha);
    forall k | 0 <= k < |chunks|
      ensures HasTextId(Views(chunks)[k]) && chunks[k].pageContent == views[k].content
      ensures LastBefore(chunks, k, |chunks|) ==> chunks[k].metadata == views[k].metadata["id" := Str(ids[k])]
    {
      WrittenHasIds(views, chunks, ids, k);
      WrittenKeepsAllButId(views, chunks, ids, k);
      if LastBefore(chunks, k, |chunks|) {
        WrittenLast(views, chunks, ids, k);
      }
    }
    result := chunks;
  }

  /** `add_to_chroma`: the chunks get their ids, those whose id the
      collection lacks are kept in order, and they are added under their
      ids only when there is at least one. */
  method AddToChroma(chunks: seq<Document>, db: ChromaCollection, sha: string -> string)
    modifies chunks, db
    ensures Views(chunks) == Written(old(Views(chunks)), chunks, ChunkIdsFor(old(Views(chunks)), sha))
    ensures AllHaveTextIds(Views(chunks))
    ensures var newIds := FilterNew(IdsOf(Views(chunks)), IdsOf(Views(chunks)), old(db.ids));
      && db.ids == old(db.ids) + Elements(newIds)
      && db.batches == old(db.batches) + (if newIds == [] then [] else [newIds])
  {
    var chunksWithIds := AddIdMetadataToChunks(chunks, sha);
    AddNewChunks(chunksWithIds, db);
  }
}
