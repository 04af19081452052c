/** Replacing a document's points in the vector index (app/services/indexing.py,
    app/services/vector_store.py), and search over whatever that index replies
    (app/services/retrieval.py). */
module Retrieval {
  import opened Wrappers
  import opened Identifiers
  import opened Sorting
  import Relations

  type Vector = seq<real>

  datatype Embedding = Embedding(provider: string, model: string, version: string, dimensions: nat)

  /** What a document records of the provider of its vectors. */
  datatype Recorded = Recorded(provider: string, model: string, version: string, dimensions: Option<nat>)

  datatype Document = Document(tenant: TenantId, deleted: bool, recorded: Option<Recorded>)
  datatype Chunk = Chunk(id: ChunkId, tenant: TenantId, document: DocumentId, text: string, sourceId: string)

  /** `is_current_embedding`: documents indexed before dimensions were recorded still count. */
  predicate IsCurrent(d: Document, e: Embedding) {
    && d.recorded.Some?
    && d.recorded.value.provider == e.provider && d.recorded.value.model == e.model
    && d.recorded.value.version == e.version
    && (d.recorded.value.dimensions.Some? ==> d.recorded.value.dimensions.value == e.dimensions)
  }

  // ---- the index -------------------------------------------------------------------

  datatype Point = Point(tenant: TenantId, document: DocumentId, vector: Vector, sourceId: string)

  predicate Of(p: Point, tenant: TenantId, d: DocumentId) {
    p.tenant == tenant && p.document == d
  }

  datatype Failure = DocumentGone | EmbeddingFailed | WrongVectorCount | MixedDimensions

  function Others(points: map<ChunkId, Point>, tenant: TenantId, d: DocumentId): map<ChunkId, Point> {
    map id | id in points && !Of(points[id], tenant, d) :: points[id]
  }

  function PointsFor(chunks: seq<Chunk>, vectors: seq<Vector>, tenant: TenantId, d: DocumentId): map<ChunkId, Point>
    requires |vectors| == |chunks|
  {
    if chunks == [] then map[]
    else
      var n := |chunks| - 1;
      PointsFor(chunks[..n], vectors[..n], tenant, d)[chunks[n].id := Point(tenant, d, vectors[n], chunks[n].sourceId)]
  }

  lemma OneMorePoint(
    kept: map<ChunkId, Point>, chunks: seq<Chunk>, vectors: seq<Vector>, tenant: TenantId, d: DocumentId, i: nat)
    requires |vectors| == |chunks| && i < |chunks|
    ensures kept + PointsFor(chunks[..i + 1], vectors[..i + 1], tenant, d)
            == (kept + PointsFor(chunks[..i], vectors[..i], tenant, d))
               [chunks[i].id := Point(tenant, d, vectors[i], chunks[i].sourceId)]
  {
    assert chunks[..i + 1][..i] == chunks[..i] && vectors[..i + 1][..i] == vectors[..i];
  }

  predicate SameDimensions(vectors: seq<Vector>) {
    forall i :: 0 <= i < |vectors| ==> |vectors[i]| == |vectors[0]|
  }

  class VectorIndex {
    var points: map<ChunkId, Point>

    constructor ()
      ensures points == map[]
    {
      points := map[];
    }

    method DeleteDocument(tenant: TenantId, d: DocumentId)
      modifies this
      ensures points == Others(old(points), tenant, d)
      ensures forall id :: KeptAsWas(old(points), points, tenant, d, id)
    {
      points := Others(points, tenant, d);
    }

    /** `upsert_chunks`: the document's points are removed first, so a refusal leaves it without any. */
    method UpsertChunks(tenant: TenantId, d: DocumentId, chunks: seq<Chunk>, vectors: seq<Vector>)
        returns (r: Result<nat, Failure>)
      requires |vectors| == |chunks|
      modifies this
      ensures r == if SameDimensions(vectors) then Ok(|chunks|) else Err(MixedDimensions)
      ensures points == if r.Ok? then Others(old(points), tenant, d) + PointsFor(chunks, vectors, tenant, d)
                        else Others(old(points), tenant, d)
      ensures r.Ok? ==> StoredAs(old(points), points, tenant, d, chunks, vectors)
      ensures r.Err? ==> forall id :: KeptAsWas(old(points), points, tenant, d, id)
    {
      ghost var before := points;
      DeleteDocument(tenant, d);
      if chunks == [] {
        PointsAreStored(before, chunks, vectors, tenant, d);
        return Ok(0);
      }
      if exists i :: 0 <= i < |vectors| && |vectors[i]| != |vectors[0]| {
        return Err(MixedDimensions);
      }
      ghost var kept := points;
      for i := 0 to |chunks|
        invariant points == kept + PointsFor(chunks[..i], vectors[..i], tenant, d)
      {
        OneMorePoint(kept, chunks, vectors, tenant, d, i);
        points := points[chunks[i].id := Point(tenant, d, vectors[i], chunks[i].sourceId)];
      }
      assert chunks[..|chunks|] == chunks && vectors[..|vectors|] == vectors;
      PointsAreStored(before, chunks, vectors, tenant, d);
      return Ok(|chunks|);
    }
  }

  /** The embedding is asked for the texts of the chunks, in order. */
  lemma TextsInOrder(chunks: seq<Chunk>)
    ensures |Texts(chunks)| == |chunks| && forall i :: 0 <= i < |chunks| ==> Texts(chunks)[i] == chunks[i].text
  {
  }

  /** Every chunk has a point with its own vector, the last of those with its id; the
      document has no others, and those of other documents are as before. */
  ghost predicate StoredAs(before: map<ChunkId, Point>, after: map<ChunkId, Point>, tenant: TenantId, d: DocumentId,
      chunks: seq<Chunk>, vectors: seq<Vector>)
  {
    && |vectors| == |chunks|
    && (forall i :: 0 <= i < |chunks| && (forall j :: i < j < |chunks| ==> chunks[j].id != chunks[i].id) ==>
          && chunks[i].id in after && after[chunks[i].id].vector == vectors[i]
          && after[chunks[i].id].sourceId == chunks[i].sourceId
          && after[chunks[i].id].tenant == tenant && after[chunks[i].id].document == d)
    && (forall id :: (forall i :: 0 <= i < |chunks| ==> chunks[i].id != id) ==> KeptAsWas(before, after, tenant, d, id))
  }

  /** Gone if it was the document's, and otherwise as before. */
  ghost predicate KeptAsWas(before: map<ChunkId, Point>, after: map<ChunkId, Point>, tenant: TenantId, d: DocumentId,
      id: ChunkId)
  {
    && (id in after <==> id in before && !(before[id].tenant == tenant && before[id].document == d))
    && (id in after ==> after[id] == before[id])
  }

  lemma {:induction false} LastPointIsStored(chunks: seq<Chunk>, vectors: seq<Vector>, tenant: TenantId,
      d: DocumentId, i: nat)
    requires |vectors| == |chunks| && i < |chunks| && forall j :: i < j < |chunks| ==> chunks[j].id != chunks[i].id
    ensures var points := PointsFor(chunks, vectors, tenant, d);
            chunks[i].id in points && points[chunks[i].id] == Point(tenant, d, vectors[i], chunks[i].sourceId)
  {
    var n := |chunks| - 1;
    if i < n { LastPointIsStored(chunks[..n], vectors[..n], tenant, d, i); }
  }

  lemma PointsAreStored(before: map<ChunkId, Point>, chunks: seq<Chunk>, vectors: seq<Vector>, tenant: TenantId,
      d: DocumentId)
    requires |vectors| == |chunks|
    ensures StoredAs(before, Others(before, tenant, d) + PointsFor(chunks, vectors, tenant, d), tenant, d, chunks,
            vectors)
  {
    PointsForChunks(chunks, vectors, tenant, d);
    forall i | 0 <= i < |chunks| && (forall j :: i < j < |chunks| ==> chunks[j].id != chunks[i].id)
      ensures chunks[i].id in PointsFor(chunks, vectors, tenant, d)
              && PointsFor(chunks, vectors, tenant, d)[chunks[i].id] == Point(tenant, d, vectors[i], chunks[i].sourceId)
    {
      LastPointIsStored(chunks, vectors, tenant, d, i);
    }
  }

  /** What indexing answers and leaves, by what the embedding answered for the texts. */
  ghost predicate Indexed(before: map<ChunkId, Point>, after: map<ChunkId, Point>, tenant: TenantId, d: DocumentId,
      chunks: seq<Chunk>, vectors: Option<seq<Vector>>, r: Result<Document, Failure>)
  {
    && (r == Err(EmbeddingFailed) <==> vectors.None?)
    && (r == Err(WrongVectorCount) <==> vectors.Some? && |vectors.value| != |chunks|)
    && (r == Err(MixedDimensions) <==>
        vectors.Some? && |vectors.value| == |chunks|
        && exists i :: 0 <= i < |chunks| && |vectors.value[i]| != |vectors.value[0]|)
    && (r == Err(EmbeddingFailed) || r == Err(WrongVectorCount) ==> after == before)
    && (r == Err(MixedDimensions) ==> forall id :: KeptAsWas(before, after, tenant, d, id))
    && (r.Ok? ==> vectors.Some? && StoredAs(before, after, tenant, d, chunks, vectors.value))
  }

  /** `index_document`: `embed` may fail or answer with the wrong number of vectors. */
  method IndexDocument(index: VectorIndex, document: Option<Document>, tenant: TenantId, d: DocumentId,
      chunks: seq<Chunk>, e: Embedding, embed: seq<string> -> Option<seq<Vector>>)
    returns (r: Result<Document, Failure>)
    modifies index
    ensures r.Ok? ==>
              && document.Some? && !document.value.deleted
              && r.value
                 == document.value.(recorded := Some(Recorded(e.provider, e.model, e.version, Some(e.dimensions))))
              && IsCurrent(r.value, e)
    ensures r == Err(DocumentGone) <==> document.None? || document.value.deleted
    ensures r == Err(DocumentGone) ==> index.points == old(index.points)
    ensures r != Err(DocumentGone) ==>
              Indexed(old(index.points), index.points, tenant, d, chunks,
                      if chunks == [] then Some([]) else embed(Texts(chunks)), r)
  {
    if document.None? || document.value.deleted {
      return Err(DocumentGone);
    }
    var recorded := document.value.(recorded := Some(Recorded(e.provider, e.model, e.version, Some(e.dimensions))));
    if chunks == [] {
      index.DeleteDocument(tenant, d);
      return Ok(recorded);
    }
    var vectors := embed(Texts(chunks));
    if vectors.None? {
      return Err(EmbeddingFailed);
    }
    if |vectors.value| != |chunks| {
      return Err(WrongVectorCount);
    }
    var indexed := index.UpsertChunks(tenant, d, chunks, vectors.value);
    if indexed.Err? {
      return Err(indexed.error);
    }
    return Ok(recorded);
  }

  function Texts(chunks: seq<Chunk>): seq<string> {
    seq(|chunks|, i requires 0 <= i < |chunks| => chunks[i].text)
  }

  lemma {:induction false} PointsForChunks(chunks: seq<Chunk>, vectors: seq<Vector>, tenant: TenantId, d: DocumentId)
    requires |vectors| == |chunks|
    ensures forall id :: id in PointsFor(chunks, vectors, tenant, d) <==>
            exists i :: 0 <= i < |chunks| && chunks[i].id == id
    ensures forall id :: id in PointsFor(chunks, vectors, tenant, d) ==>
            Of(PointsFor(chunks, vectors, tenant, d)[id], tenant, d)
  {
    if chunks != [] {
      var n := |chunks| - 1;
      PointsForChunks(chunks[..n], vectors[..n], tenant, d);
      assert forall i :: 0 <= i < n ==> chunks[..n][i] == chunks[i];
    }
  }

  /** After indexing, the document's point ids are exactly its chunk ids, and the points
      of every other document are as before: chunk ids are never shared. */
  lemma IndexedPointsAreTheChunks(before: map<ChunkId, Point>, chunks: seq<Chunk>, vectors: seq<Vector>,
      tenant: TenantId, d: DocumentId)
    requires |vectors| == |chunks|
    requires forall i :: 0 <= i < |chunks| && chunks[i].id in before ==> Of(before[chunks[i].id], tenant, d)
    ensures var after := Others(before, tenant, d) + PointsFor(chunks, vectors, tenant, d);
            && (forall id :: id in after && Of(after[id], tenant, d)
                 <==> exists i :: 0 <= i < |chunks| && chunks[i].id == id)
            && Others(after, tenant, d) == Others(before, tenant, d)
  {
    PointsForChunks(chunks, vectors, tenant, d);
  }

  // ---- search ------------------------------------------------------------------------

  datatype Hit = Hit(chunk: Chunk, score: real)

  datatype World = World(chunks: map<ChunkId, Chunk>, documents: map<DocumentId, Document>)

  /** `bounded_similarity`, for every point; of repeated chunks the last counts. */
  function Scores(reply: seq<(ChunkId, real)>): map<ChunkId, real> {
    Relations.AsMap(seq(|reply|, i requires 0 <= i < |reply| =>
        (reply[i].0, if reply[i].1 > 1.0 then 1.0 else reply[i].1)))
  }

  /** A chunk of the tenant, of a live document whose vectors are of this embedding. */
  predicate Answers(w: World, tenant: TenantId, e: Embedding, id: ChunkId) {
    && id in w.chunks && w.chunks[id].id == id && w.chunks[id].tenant == tenant
    && w.chunks[id].document in w.documents
    && !w.documents[w.chunks[id].document].deleted && IsCurrent(w.documents[w.chunks[id].document], e)
  }

  function Eligible(w: World, tenant: TenantId, e: Embedding, scores: map<ChunkId, real>): set<ChunkId> {
    set id | id in scores && Answers(w, tenant, e, id)
  }

  function ChunkOf(hit: Hit): ChunkId { hit.chunk.id }

  predicate HigherFirst(a: Hit, b: Hit) { a.score >= b.score }

  /** The hits for exactly these chunks, each once, with these scores. */
  ghost predicate HitsFor(hits: seq<Hit>, w: World, ids: set<ChunkId>, scores: map<ChunkId, real>) {
    && (forall i :: 0 <= i < |hits| ==>
          && hits[i].chunk.id in ids && hits[i].chunk.id in w.chunks && hits[i].chunk == w.chunks[hits[i].chunk.id]
          && hits[i].chunk.id in scores && hits[i].score == scores[hits[i].chunk.id])
    && (forall i, j :: 0 <= i < j < |hits| ==> hits[i].chunk.id != hits[j].chunk.id)
    && (forall id :: id in ids ==> exists i :: 0 <= i < |hits| && hits[i].chunk.id == id)
  }

  /** A reranker answers with scores for the texts, or fails. */
  type Reranker = (string, seq<string>) -> Option<seq<real>>

  function HitTexts(hits: seq<Hit>): seq<string> {
    seq(|hits|, i requires 0 <= i < |hits| => hits[i].chunk.text)
  }

  function Rescored(hits: seq<Hit>, scores: seq<real>): seq<Hit>
    requires |scores| == |hits|
  {
    seq(|hits|, i requires 0 <= i < |hits| => Hit(hits[i].chunk, scores[i]))
  }

  /** `_rerank`: a failing or mismatched reranker leaves the hits as they were. */
  function Rerank(reranker: Reranker, query: string, hits: seq<Hit>): seq<Hit> {
    var scores := reranker(query, HitTexts(hits));
    if scores.None? || |scores.value| != |hits| then hits else StableSort(Rescored(hits, scores.value), HigherFirst)
  }

  function Ranked(reranker: Option<Reranker>, query: string, hits: seq<Hit>): seq<Hit> {
    if reranker.Some? && hits != [] then Rerank(reranker.value, query, hits) else hits
  }

  function First(hits: seq<Hit>, limit: nat): seq<Hit> {
    if |hits| > limit then hits[..limit] else hits
  }

  /** `search`, over an arbitrary reply of the index; rows come in any order. */
  method Search(query: string, tenant: TenantId, w: World, e: Embedding, vectors: seq<Vector>,
      reply: seq<(ChunkId, real)>, limit: nat, reranker: Option<Reranker>)
    returns (result: seq<Hit>, ghost byVector: seq<Hit>)
    ensures query == "" || vectors == [] ==> result == []
    ensures query != "" && vectors != [] ==>
              && HitsFor(byVector, w, Eligible(w, tenant, e, Scores(reply)), Scores(reply))
              && Sorted(byVector, HigherFirst)
              && result == First(Ranked(reranker, query, byVector), limit)
  {
    byVector := [];
    if query == "" || vectors == [] {
      return [], [];
    }
    var scores := Scores(reply);
    var hits: seq<Hit> := [];
    ghost var done: set<ChunkId> := {};
    var todo := Eligible(w, tenant, e, scores);
    while todo != {}
      invariant done + todo == Eligible(w, tenant, e, scores) && done !! todo
      invariant HitsFor(hits, w, done, scores)
    {
      var id :| id in todo;
      OneMoreHit(hits, w, done, scores, id);
      hits := hits + [Hit(w.chunks[id], scores[id])];
      todo := todo - {id};
      done := done + {id};
    }
    var sorted := StableSort(hits, HigherFirst);
    SortedHits(hits, sorted, w, done, scores);
    byVector := sorted;
    if reranker.Some? && sorted != [] {
      var given := reranker.value(query, HitTexts(sorted));
      if given.Some? && |given.value| == |sorted| {
        sorted := StableSort(Rescored(sorted, given.value), HigherFirst);
      }
    }
    result := if |sorted| > limit then sorted[..limit] else sorted;
  }

  lemma OneMoreHit(hits: seq<Hit>, w: World, done: set<ChunkId>, scores: map<ChunkId, real>, id: ChunkId)
    requires HitsFor(hits, w, done, scores) && id !in done && id in scores && id in w.chunks && w.chunks[id].id == id
    ensures HitsFor(hits + [Hit(w.chunks[id], scores[id])], w, done + {id}, scores)
  {
    var more := hits + [Hit(w.chunks[id], scores[id])];
    assert more[|hits|].chunk.id == id;
    forall x | x in done ensures exists i :: 0 <= i < |more| && more[i].chunk.id == x {
      var i :| 0 <= i < |hits| && hits[i].chunk.id == x;
      assert more[i] == hits[i];
    }
  }

  lemma HigherFirstIsPreorder()
    ensures Preorder(HigherFirst)
  {
  }

  lemma SortedHits(hits: seq<Hit>, sorted: seq<Hit>, w: World, ids: set<ChunkId>, scores: map<ChunkId, real>)
    requires HitsFor(hits, w, ids, scores) && sorted == StableSort(hits, HigherFirst)
    ensures HitsFor(sorted, w, ids, scores) && Sorted(sorted, HigherFirst)
  {
    HigherFirstIsPreorder();
    SortIsStable(hits, HigherFirst);
    assert DistinctBy(hits, ChunkOf);
    Rearranged(hits, sorted, ChunkOf);
    assert forall i, j :: 0 <= i < j < |sorted| ==> ChunkOf(sorted[i]) != ChunkOf(sorted[j]);
    forall i | 0 <= i < |sorted| ensures sorted[i] in hits {}
    forall id | id in ids ensures exists i :: 0 <= i < |sorted| && sorted[i].chunk.id == id {
      var i :| 0 <= i < |hits| && hits[i].chunk.id == id;
      assert hits[i] in sorted;
    }
  }

  /** A chunk that may be disclosed, with its durable text. */
  predicate Discloses(hit: Hit, w: World, tenant: TenantId, e: Embedding) {
    Answers(w, tenant, e, hit.chunk.id) && w.chunks[hit.chunk.id] == hit.chunk
  }

  /** Whatever the index replies and however the reranker behaves: at most `limit` hits,
      each a different live chunk of the tenant in the current embedding space, in
      descending score. */
  lemma SearchIsSafe(
    byVector: seq<Hit>, query: string, tenant: TenantId, w: World, e: Embedding, scores: map<ChunkId, real>,
    limit: nat, reranker: Option<Reranker>)
    requires HitsFor(byVector, w, Eligible(w, tenant, e, scores), scores) && Sorted(byVector, HigherFirst)
    ensures var result := First(Ranked(reranker, query, byVector), limit);
            && |result| <= limit && Sorted(result, HigherFirst) && DistinctBy(result, ChunkOf)
            && (forall i, j :: 0 <= i < j < |result| ==>
                  result[i].score >= result[j].score && result[i].chunk.id != result[j].chunk.id)
            && (forall hit :: hit in result ==> Discloses(hit, w, tenant, e))
  {
    var ranked := Ranked(reranker, query, byVector);
    RankedHits(reranker, query, byVector);
    forall h | h in byVector ensures Discloses(h, w, tenant, e) {}
    assert DistinctBy(byVector, ChunkOf);
    FirstHits(ranked, limit);
    forall i, j | 0 <= i < j < |First(ranked, limit)|
      ensures First(ranked, limit)[i].chunk.id != First(ranked, limit)[j].chunk.id
    {
      assert ChunkOf(First(ranked, limit)[i]) != ChunkOf(First(ranked, limit)[j]);
    }
    forall hit | hit in ranked ensures Discloses(hit, w, tenant, e) {
      assert hit.chunk in Chunks(ranked);
      var h :| h in byVector && h.chunk == hit.chunk;
    }
  }

  lemma FirstHits(ranked: seq<Hit>, limit: nat)
    ensures var result := First(ranked, limit);
            && |result| <= limit && (forall hit :: hit in result ==> hit in ranked)
            && (Sorted(ranked, HigherFirst) ==> Sorted(result, HigherFirst))
            && (DistinctBy(ranked, ChunkOf) ==> DistinctBy(result, ChunkOf))
            && (|ranked| <= limit ==> result == ranked)
  {
  }

  /** When there is room, every eligible chunk of the reply is among the hits. */
  lemma SearchIsComplete(
    byVector: seq<Hit>, query: string, tenant: TenantId, w: World, e: Embedding, scores: map<ChunkId, real>,
    limit: nat, reranker: Option<Reranker>, id: ChunkId)
    requires HitsFor(byVector, w, Eligible(w, tenant, e, scores), scores) && Sorted(byVector, HigherFirst)
    requires id in Eligible(w, tenant, e, scores) && |byVector| <= limit
    ensures exists hit :: hit in First(Ranked(reranker, query, byVector), limit) && hit.chunk.id == id
  {
    RankedHits(reranker, query, byVector);
    FirstHits(Ranked(reranker, query, byVector), limit);
    var k :| 0 <= k < |byVector| && byVector[k].chunk.id == id;
    assert byVector[k] in byVector && byVector[k].chunk in Chunks(byVector);
  }

  function Chunks(hits: seq<Hit>): set<Chunk> {
    set hit | hit in hits :: hit.chunk
  }

  /** The same chunks, each once, in another order. */
  ghost predicate SameChunks(hits: seq<Hit>, ranked: seq<Hit>) {
    && |ranked| == |hits|
    && Chunks(ranked) == Chunks(hits)
    && (DistinctBy(hits, ChunkOf) ==> DistinctBy(ranked, ChunkOf))
  }

  lemma RescoredHits(hits: seq<Hit>, scores: seq<real>)
    requires |scores| == |hits|
    ensures SameChunks(hits, Rescored(hits, scores))
  {
    var rescored := Rescored(hits, scores);
    forall r | r in rescored ensures r.chunk in Chunks(hits) {
      var i :| 0 <= i < |rescored| && rescored[i] == r;
      assert hits[i] in hits;
    }
    forall h | h in hits ensures h.chunk in Chunks(rescored) {
      var i :| 0 <= i < |hits| && hits[i] == h;
      assert rescored[i] in rescored;
    }
  }

  lemma RankedHits(reranker: Option<Reranker>, query: string, hits: seq<Hit>)
    requires Sorted(hits, HigherFirst)
    ensures Sorted(Ranked(reranker, query, hits), HigherFirst) && SameChunks(hits, Ranked(reranker, query, hits))
  {
    if reranker.Some? && hits != [] {
      var given := reranker.value(query, HitTexts(hits));
      if given.Some? && |given.value| == |hits| {
        var rescored := Rescored(hits, given.value);
        RescoredHits(hits, given.value);
        HigherFirstIsPreorder();
        SortIsStable(rescored, HigherFirst);
        SameChunksInOrder(hits, rescored, StableSort(rescored, HigherFirst));
      }
    }
  }

  lemma SameChunksInOrder(hits: seq<Hit>, rescored: seq<Hit>, ranked: seq<Hit>)
    requires SameChunks(hits, rescored) && multiset(ranked) == multiset(rescored)
    ensures SameChunks(hits, ranked)
  {
    Rearranged(rescored, ranked, ChunkOf);
    assert Chunks(ranked) == Chunks(rescored);
  }

  /** Without a reranker, or with one that fails or answers for another number of
      texts, the order and the scores are those of the index. */
  lemma FailedRerankKeepsVectorOrder(reranker: Option<Reranker>, query: string, byVector: seq<Hit>, limit: nat)
    requires reranker.Some? ==>
               var given := reranker.value(query, HitTexts(byVector)); given.None? || |given.value| != |byVector|
    ensures First(Ranked(reranker, query, byVector), limit) == First(byVector, limit)
  {
  }

  // ---- what a search answers, point by point ---------------------------------------------

  /** The score of a chunk is the last one that the index replied for it, or one if that is
      more; chunks the index does not mention have none. */
  lemma ScoresOutcome(reply: seq<(ChunkId, real)>, id: ChunkId)
    ensures id in Scores(reply) <==> exists i :: 0 <= i < |reply| && reply[i].0 == id
    ensures id in Scores(reply) ==>
              exists i :: 0 <= i < |reply| && reply[i].0 == id && (forall j :: i < j < |reply| ==> reply[j].0 != id)
                          && (reply[i].1 <= 1.0 ==> Scores(reply)[id] == reply[i].1)
                          && (reply[i].1 > 1.0 ==> Scores(reply)[id] == 1.0)
  {
    var points := seq(|reply|, i requires 0 <= i < |reply| =>
      (reply[i].0, if reply[i].1 > 1.0 then 1.0 else reply[i].1));
    assert Scores(reply) == Relations.AsMap(points);
    if i :| 0 <= i < |reply| && reply[i].0 == id {
      assert points[i].0 == id;
      Relations.SomePointCounts(points, i);
    }
    if id in Relations.AsMap(points) {
      var p := Relations.PointOf(points, id);
      Relations.LastPointCounts(points, p);
      assert reply[p].0 == id && forall j :: p < j < |reply| ==> points[j].0 == reply[j].0;
    }
  }

  /** Eligible are the chunks that have a score, belong to the tenant and to a document that
      is live and whose vectors came from this provider, model and version, and from as many
      dimensions if that was recorded. */
  lemma EligibleMeans(w: World, tenant: TenantId, e: Embedding, scores: map<ChunkId, real>, id: ChunkId)
    ensures id in Eligible(w, tenant, e, scores) <==>
            && id in scores && id in w.chunks && w.chunks[id].id == id && w.chunks[id].tenant == tenant
            && w.chunks[id].document in w.documents
            && var d := w.documents[w.chunks[id].document];
               && !d.deleted && d.recorded.Some? && d.recorded.value.provider == e.provider
               && d.recorded.value.model == e.model && d.recorded.value.version == e.version
               && (d.recorded.value.dimensions == None || d.recorded.value.dimensions == Some(e.dimensions))
  {
  }

  /** A reranker is asked for the texts of the hits in order, and a hit of its result is one
      of these with the score it gave to that one's text. */
  lemma RerankOutcome(reranker: Reranker, query: string, hits: seq<Hit>, texts: seq<string>)
    requires hits != [] && |texts| == |hits| && forall i :: 0 <= i < |hits| ==> texts[i] == hits[i].chunk.text
    ensures var given, ranked := reranker(query, texts), Ranked(Some(reranker), query, hits);
            if given.None? || |given.value| != |hits| then ranked == hits
            else RescoredAs(hits, given.value, ranked) && Descending(ranked)
  {
    TheirTexts(hits, texts);
    var given := reranker(query, texts);
    if given.Some? && |given.value| == |hits| {
      SortedByScore(Rescored(hits, given.value));
      RescoredMeans(hits, given.value);
    }
  }

  lemma TheirTexts(hits: seq<Hit>, texts: seq<string>)
    requires |texts| == |hits| && forall i :: 0 <= i < |hits| ==> texts[i] == hits[i].chunk.text
    ensures texts == HitTexts(hits)
  {
  }

  lemma SortedByScore(hits: seq<Hit>)
    ensures var sorted := StableSort(hits, HigherFirst); Descending(sorted) && multiset(sorted) == multiset(hits)
  {
    HigherFirstIsPreorder();
    SortIsStable(hits, HigherFirst);
  }

  ghost predicate Descending(hits: seq<Hit>) {
    forall i, j :: 0 <= i < j < |hits| ==> hits[i].score >= hits[j].score
  }

  /** Each hit is there as often as before, with the score given to it, and nothing else is. */
  ghost predicate RescoredAs(hits: seq<Hit>, scores: seq<real>, ranked: seq<Hit>)
    requires |scores| == |hits|
  {
    multiset(ranked) == multiset(seq(|hits|, i requires 0 <= i < |hits| => Hit(hits[i].chunk, scores[i])))
  }

  lemma RescoredMeans(hits: seq<Hit>, scores: seq<real>)
    requires |scores| == |hits|
    ensures Rescored(hits, scores) == seq(|hits|, i requires 0 <= i < |hits| => Hit(hits[i].chunk, scores[i]))
  {
  }

  /** The result is cut to the limit from the front. */
  lemma FirstMeans(hits: seq<Hit>, limit: nat)
    ensures |First(hits, limit)| == if |hits| <= limit then |hits| else limit
    ensures forall i :: 0 <= i < |First(hits, limit)| ==> First(hits, limit)[i] == hits[i]
  {
  }
}
