/** Layer 1: answers to earlier queries kept as points of the Qdrant
    collection "semantic_cache"; a new query is answered by the stored query
    most similar to it, provided the similarity reaches the threshold. */
module SemanticLayer {
  import opened Common
  import opened VectorStore

  /** The payload of a cached point. */
  datatype CachedAnswer = CachedAnswer(query: string, response: string, timestamp: int)

  /** The point `set` writes: its vector is the embedding of the query. */
  function AnswerPoint(id: string, query: string, response: string, now: int): (p: Point<CachedAnswer>)
    ensures p.id == id && p.text == query
    ensures p.payload == CachedAnswer(query, response, now)
  {
    Point(id, query, CachedAnswer(query, response, now))
  }

  /** A query whose own embedding scores at least the threshold against
      itself is found again once its answer is stored, whatever else the
      collection holds. */
  lemma StoredIsFound(points: seq<Point<CachedAnswer>>, e: Embedder, threshold: int,
                      id: string, query: string, response: string, now: int)
    requires e.similarity(query, query) >= threshold
    ensures |Search(Upsert(points, [AnswerPoint(id, query, response, now)]), e, query, 1, threshold)| == 1
  {
    var stored := Upsert(points, [AnswerPoint(id, query, response, now)]);
    assert AnswerPoint(id, query, response, now) in stored;
  }

  class SemanticCache {
    const embedder: Embedder
    const threshold: int
    var online: bool
    var collection: Option<seq<Point<CachedAnswer>>>

    /** `SemanticCache()`: connects and creates the collection if absent. */
    constructor(embedder: Embedder, threshold: int, online: bool, collection: Option<seq<Point<CachedAnswer>>>)
      ensures this.embedder == embedder && this.threshold == threshold && this.online == online
      ensures this.collection == Initialized(online, collection)
    {
      this.embedder := embedder;
      this.threshold := threshold;
      this.online := online;
      this.collection := collection;
      new;
      InitializeCollection();
    }

    /** `_initialize_collection`. */
    method InitializeCollection()
      modifies this`collection
      ensures collection == Initialized(online, old(collection))
    {
      if online && collection.None? {
        collection := Some([]);
      }
    }

    /** `get`: the embedding is computed outside the `try`, so a rejected
        query raises; a search that fails (unreachable server, missing
        collection) is a miss. Otherwise the answer of the single best point
        scoring at least the threshold. */
    function Get(query: string): (r: Result<Option<string>>)
      reads this
      ensures r.Err? <==> !embedder.accepts(query)
      ensures r.Err? ==> r.error == EmbeddingFailed(query)
      ensures r.Ok? && (!online || collection.None?) ==> r.value.None?
      ensures r.Ok? && r.value.Some? ==>
        exists p :: p in collection.value && p.payload.response == r.value.value &&
          embedder.similarity(query, p.text) >= threshold &&
          (forall p' :: p' in collection.value ==> embedder.similarity(query, p'.text) <= embedder.similarity(query, p.text))
      ensures r.Ok? && online && collection.Some? ==>
        (r.value.None? <==> forall p :: p in collection.value ==> embedder.similarity(query, p.text) < threshold)
    {
      if !embedder.accepts(query) then Err(EmbeddingFailed(query))
      else if !online || collection.None? then Ok(None)
      else
        var hits := Search(collection.value, embedder, query, 1, threshold);
        if |hits| > 0 then
          assert hits[0].point in collection.value;
          Ok(Some(hits[0].point.payload.response))
        else Ok(None)
    }

    /** `set`: embeds the query (a rejection raises) and upserts one point
        with the given fresh id; a store error is reported and swallowed. */
    method Set(query: string, response: string, id: string, now: int) returns (r: Outcome)
      modifies this`collection
      ensures !embedder.accepts(query) ==> r == Fail(EmbeddingFailed(query)) && collection == old(collection)
      ensures embedder.accepts(query) ==>
        r == Pass && collection == Upserted(online, old(collection), [AnswerPoint(id, query, response, now)])
      ensures embedder.accepts(query) && online && old(collection).Some? && embedder.similarity(query, query) >= threshold ==>
        Get(query).Ok? && Get(query).value.Some?
    {
      if !embedder.accepts(query) {
        return Fail(EmbeddingFailed(query));
      }
      if online && collection.Some? {
        if embedder.similarity(query, query) >= threshold {
          StoredIsFound(collection.value, embedder, threshold, id, query, response, now);
        }
        collection := Some(Upsert(collection.value, [AnswerPoint(id, query, response, now)]));
      }
      r := Pass;
    }

    /** `clear_all`. */
    method ClearAll()
      modifies this`collection
      ensures collection == Recreated(online, old(collection))
    {
      if online {
        collection := None;
        InitializeCollection();
      }
    }
  }

  /** With a fresh id, `set` appends exactly one point and modifies none of
      the existing ones, so repeated answers accumulate. */
  lemma SetAppends(points: seq<Point<CachedAnswer>>, id: string, query: string, response: string, now: int)
    requires id !in Ids(points)
    ensures Upsert(points, [AnswerPoint(id, query, response, now)]) == points + [AnswerPoint(id, query, response, now)]
  {
    UpsertFresh(points, [AnswerPoint(id, query, response, now)]);
  }
}
