/** The coordinator of the cache hierarchy: a query is answered by the
    exact layer, else the semantic layer, else a generator fed with the
    documents the RAG layer retrieves, else the generator alone; answers
    that come from further down are written back into the layers above. */
module Orchestrator {
  import opened Common
  import opened JsonValue
  import opened VectorStore
  import opened ExactLayer
  import opened SemanticLayer
  import opened RagLayer
  import opened LlmProvider

  const Layer0Label := "Layer 0 (Exact Cache)"
  const Layer1Label := "Layer 1 (Semantic Cache)"
  const Layer2Label := "Layer 2 (RAG Cache)"

  /** The dictionary `query` returns, without the elapsed time. */
  datatype QueryResult = QueryResult(
    query: string,
    response: string,
    cacheLayer: Option<string>,
    cacheHit: bool,
    llmCalled: bool,
    ragDocuments: Option<nat>,
    llmProvider: Option<string>)

  /** The shapes a result can take: a cache hit names its layer, the
      generator is called exactly when a provider is named, and the number
      of documents is reported exactly for a RAG answer. */
  predicate WellFormed(res: QueryResult) {
    (res.cacheHit <==> res.cacheLayer.Some?) &&
    (res.llmCalled <==> res.llmProvider.Some?) &&
    (res.llmCalled <==> res.cacheLayer.None? || res.cacheLayer == Some(Layer2Label)) &&
    (res.ragDocuments.Some? <==> res.cacheLayer == Some(Layer2Label)) &&
    (res.ragDocuments.Some? ==> res.ragDocuments.value > 0)
  }

  /** One part of the generator's context: the document's rank (from 1),
      its formatted relevance and its content. */
  function ContextPart(rank: nat, doc: Retrieved, formatScore: int -> string): string {
    "Document " + NatStr(rank) + " (Relevance: " + formatScore(doc.score) + "):\n" + doc.content
  }

  function ContextParts(docs: seq<Retrieved>, formatScore: int -> string): (parts: seq<string>)
    ensures |parts| == |docs|
    ensures forall i :: 0 <= i < |docs| ==> parts[i] == ContextPart(i + 1, docs[i], formatScore)
  {
    seq(|docs|, i requires 0 <= i < |docs| => ContextPart(i + 1, docs[i], formatScore))
  }

  /** The context built from retrieved documents: their parts in retrieval
      order, separated by blank lines. */
  function Context(docs: seq<Retrieved>, formatScore: int -> string): (c: string)
    ensures |docs| == 0 ==> c == ""
    ensures |docs| == 1 ==> c == ContextPart(1, docs[0], formatScore)
  {
    Join(ContextParts(docs, formatScore), "\n\n")
  }

  /** Every retrieved document's content reaches the generator, and a
      non-empty retrieval gives a non-empty (truthy) context. */
  lemma ContextMentionsDocuments(docs: seq<Retrieved>, formatScore: int -> string)
    ensures forall i :: 0 <= i < |docs| ==> Contains(Context(docs, formatScore), docs[i].content)
    ensures |docs| > 0 ==> Context(docs, formatScore) != ""
  {
    var parts := ContextParts(docs, formatScore);
    forall i | 0 <= i < |docs| ensures Contains(Context(docs, formatScore), docs[i].content) {
      JoinContains(parts, "\n\n", i);
      var head := "Document " + NatStr(i + 1) + " (Relevance: " + formatScore(docs[i].score) + "):\n";
      ContainsInfix(head, docs[i].content, "");
      assert head + docs[i].content + "" == parts[i];
      ContainsTransitive(Context(docs, formatScore), parts[i], docs[i].content);
    }
    if |docs| > 0 {
      JoinContains(parts, "\n\n", 0);
      assert |parts[0]| > 0;
    }
  }

  /** A string containing `mid` contains everything `mid` contains. */
  lemma {:induction false} ContainsTransitive(s: string, mid: string, sub: string)
    requires Contains(s, mid) && Contains(mid, sub)
    ensures Contains(s, sub)
  {
    if s[..|mid|] == mid {
      var k := ContainsAt(mid, sub);
      ContainsInfix(s[..k], sub, s[k + |sub|..]);
      assert s[..k] + sub + s[k + |sub|..] == s;
    } else {
      ContainsTransitive(s[1..], mid, sub);
      ContainsSuffix(s[..1], s[1..], sub);
      assert s[..1] + s[1..] == s;
    }
  }

  /** Where a contained string occurs. */
  lemma {:induction false} ContainsAt(s: string, sub: string) returns (k: nat)
    requires Contains(s, sub)
    ensures k + |sub| <= |s| && s[k..k + |sub|] == sub
  {
    if s[..|sub|] == sub {
      k := 0;
    } else {
      var j := ContainsAt(s[1..], sub);
      k := j + 1;
      assert s[k..k + |sub|] == s[1..][j..j + |sub|];
    }
  }

  class CacheOrchestrator {
    const layer0: ExactCache
    const layer1: SemanticCache
    const layer2: RagCache
    const llm: LLMManager
    /** `f"{score:.2f}"`: floating-point formatting is not modelled. */
    const formatScore: int -> string

    /** `CacheOrchestrator()`: the three layers and the provider registry. */
    constructor(layer0: ExactCache, layer1: SemanticCache, layer2: RagCache, llm: LLMManager, formatScore: int -> string)
      ensures this.layer0 == layer0 && this.layer1 == layer1 && this.layer2 == layer2
      ensures this.llm == llm && this.formatScore == formatScore
    {
      this.layer0 := layer0;
      this.layer1 := layer1;
      this.layer2 := layer2;
      this.llm := llm;
      this.formatScore := formatScore;
    }

    /** `_build_context_from_documents`. */
    method BuildContextFromDocuments(docs: seq<Retrieved>) returns (context: string)
      ensures context == Context(docs, formatScore)
    {
      var parts: seq<string> := [];
      for i := 0 to |docs|
        invariant parts == ContextParts(docs, formatScore)[..i]
      {
        parts := parts + [ContextPart(i + 1, docs[i], formatScore)];
      }
      assert parts == ContextParts(docs, formatScore);
      context := Join(parts, "\n\n");
    }

    /** What generating an answer and writing it back does, given the
        context handed to the generator, the number of documents it was
        built from (None for a plain answer) and the stores before. A
        generation error or a reply that is not a string changes nothing;
        otherwise the answer is upserted into Layer 1 and set in Layer 0,
        unless Layer 0 refuses its expiry, which stops a plain answer before
        its Layer 1 write and a RAG answer after it. */
    ghost predicate Generated(query: string, context: Option<string>, ragDocuments: Option<nat>,
                              providerName: Option<string>, pointId: string, now: int,
                              store0: map<string, Entry>, collection1: Option<seq<Point<CachedAnswer>>>,
                              r: Result<QueryResult>)
      reads this, layer0, layer1, llm
    {
      var gen := llm.GenerateResponse(query, context, providerName);
      if gen.Err? then
        r == Err(gen.error) && layer0.store == store0 && layer1.collection == collection1
      else if !gen.value.response.JStr? then
        r == Err(NonTextResponse) && layer0.store == store0 && layer1.collection == collection1
      else
        var text := gen.value.response.s;
        var written1 := Upserted(layer1.online, collection1, [AnswerPoint(pointId, query, text, now)]);
        if layer0.cacheTtl > 0 then
          r == Ok(QueryResult(query, text, if ragDocuments.Some? then Some(Layer2Label) else None, ragDocuments.Some?,
                              true, ragDocuments, Some(gen.value.provider))) &&
          layer0.store == store0[CacheKey(layer0.digest, query) := Entry(text, layer0.cacheTtl)] &&
          layer1.collection == written1
        else
          r == Err(InvalidExpireTime(layer0.cacheTtl)) && layer0.store == store0 &&
          layer1.collection == (if ragDocuments.Some? then written1 else collection1)
    }

    /** What answering below the two caches does: a retrieval error changes
        nothing; otherwise the generator gets the context of the retrieved
        documents when there are any, and no context when there are none. */
    ghost predicate AnsweredBelowCaches(query: string, providerName: Option<string>, pointId: string, now: int,
                                        store0: map<string, Entry>, collection1: Option<seq<Point<CachedAnswer>>>,
                                        r: Result<QueryResult>)
      reads this, layer0, layer1, layer2, llm
    {
      var docs := layer2.Retrieve(query, DefaultTopK);
      if docs.Err? then
        r == Err(docs.error) && layer0.store == store0 && layer1.collection == collection1
      else if docs.value.Some? && |docs.value.value| > 0 then
        Generated(query, Some(Context(docs.value.value, formatScore)), Some(|docs.value.value|),
                  providerName, pointId, now, store0, collection1, r)
      else
        Generated(query, None, None, providerName, pointId, now, store0, collection1, r)
    }

    /** The write-back of a generated answer: Layer 1 then Layer 0 after a
        RAG answer, Layer 0 then Layer 1 after a plain one. Layer 0 is
        reachable and the query embeds, so only Layer 0's expiry can make a
        write fail, and that failure ends the write-back. */
    method WriteBack(query: string, text: string, pointId: string, now: int, rag: bool) returns (r: Outcome)
      requires layer0.online && layer1.embedder.accepts(query)
      modifies layer0`store, layer1`collection
      ensures var written1 := Upserted(layer1.online, old(layer1.collection), [AnswerPoint(pointId, query, text, now)]);
        if layer0.cacheTtl > 0 then
          r == Pass && layer1.collection == written1 &&
          layer0.store == old(layer0.store)[CacheKey(layer0.digest, query) := Entry(text, layer0.cacheTtl)]
        else
          r == Fail(InvalidExpireTime(layer0.cacheTtl)) && layer0.store == old(layer0.store) &&
          layer1.collection == (if rag then written1 else old(layer1.collection))
    {
      if rag {
        var written1 := layer1.Set(query, text, pointId, now);
        r := layer0.Set(query, text, None);
      } else {
        r := layer0.Set(query, text, None);
        if r.Pass? {
          var written1 := layer1.Set(query, text, pointId, now);
        }
      }
    }

    /** The two generating branches of `query`: generate with the given
        context, write the answer back and report it. */
    method Generate(query: string, context: Option<string>, ragDocuments: Option<nat>,
                    providerName: Option<string>, pointId: string, now: int)
      returns (r: Result<QueryResult>)
      requires layer0.online && layer1.embedder.accepts(query)
      requires context.Some? <==> ragDocuments.Some?
      requires ragDocuments.Some? ==> ragDocuments.value > 0
      modifies layer0`store, layer1`collection
      ensures Generated(query, context, ragDocuments, providerName, pointId, now, old(layer0.store), old(layer1.collection), r)
      ensures r.Ok? ==> r.value.query == query && WellFormed(r.value)
      ensures r.Ok? ==>
        layer0.store == old(layer0.store)[CacheKey(layer0.digest, query) := Entry(r.value.response, layer0.cacheTtl)]
    {
      var gen := llm.GenerateResponse(query, context, providerName);
      if gen.Err? {
        return Err(gen.error);
      }
      if !gen.value.response.JStr? {
        return Err(NonTextResponse);
      }
      var text := gen.value.response.s;
      var written := WriteBack(query, text, pointId, now, ragDocuments.Some?);
      if written.Fail? {
        return Err(written.error);
      }
      r := Ok(QueryResult(query, text, if ragDocuments.Some? then Some(Layer2Label) else None, ragDocuments.Some?,
                          true, ragDocuments, Some(gen.value.provider)));
    }

    /** The part of `query` below the two caches: retrieve documents, then
        generate with their context, or with none when nothing was
        retrieved. */
    method AnswerBelowCaches(query: string, providerName: Option<string>, pointId: string, now: int)
      returns (r: Result<QueryResult>)
      requires layer0.online && layer1.embedder.accepts(query)
      modifies layer0`store, layer1`collection
      ensures AnsweredBelowCaches(query, providerName, pointId, now, old(layer0.store), old(layer1.collection), r)
      ensures r.Ok? ==> r.value.query == query && WellFormed(r.value)
      ensures r.Ok? ==>
        layer0.store == old(layer0.store)[CacheKey(layer0.digest, query) := Entry(r.value.response, layer0.cacheTtl)]
    {
      var docs := layer2.Get(query, DefaultTopK);
      if docs.Err? {
        return Err(docs.error);
      }
      if docs.value.Some? && |docs.value.value| > 0 {
        var context := BuildContextFromDocuments(docs.value.value);
        r := Generate(query, Some(context), Some(|docs.value.value|), providerName, pointId, now);
      } else {
        r := Generate(query, None, None, providerName, pointId, now);
      }
      assert docs == layer2.Retrieve(query, DefaultTopK);
    }

    /** `query`: the cache hierarchy. `pointId` and `now` are the fresh id
        and the time Layer 1 gives a point it writes. Store errors of
        Layer 0, embedding errors, generation errors and write-back errors
        are not caught and end the query; a generated reply that is not a
        string is refused. */
    method Query(query: string, providerName: Option<string>, pointId: string, now: int)
      returns (r: Result<QueryResult>)
      modifies layer0`store, layer1`collection
      ensures r.Ok? ==> r.value.query == query && WellFormed(r.value)
      // promotion: any answer but an empty one is now an exact hit
      ensures r.Ok? && r.value.response != "" ==> layer0.Get(query) == Ok(Some(r.value.response))
      // Layer 0
      ensures var g0 := old(layer0.Get(query));
        g0.Err? ==> r == Err(g0.error) && layer0.store == old(layer0.store) && layer1.collection == old(layer1.collection)
      ensures var g0 := old(layer0.Get(query));
        g0.Ok? && Truthy(g0.value) ==>
          r == Ok(QueryResult(query, g0.value.value, Some(Layer0Label), true, false, None, None)) &&
          layer0.store == old(layer0.store) && layer1.collection == old(layer1.collection)
      // Layer 1
      ensures var g0, g1 := old(layer0.Get(query)), old(layer1.Get(query));
        g0.Ok? && !Truthy(g0.value) && g1.Err? ==>
          r == Err(g1.error) && layer0.store == old(layer0.store) && layer1.collection == old(layer1.collection)
      ensures var g0, g1 := old(layer0.Get(query)), old(layer1.Get(query));
        g0.Ok? && !Truthy(g0.value) && g1.Ok? && Truthy(g1.value) ==>
          layer1.collection == old(layer1.collection) &&
          if layer0.cacheTtl > 0 then
            r == Ok(QueryResult(query, g1.value.value, Some(Layer1Label), true, false, None, None)) &&
            layer0.store == old(layer0.store)[CacheKey(layer0.digest, query) := Entry(g1.value.value, layer0.cacheTtl)]
          else
            r == Err(InvalidExpireTime(layer0.cacheTtl)) && layer0.store == old(layer0.store)
      // Layer 2 and the generator
      ensures var g0, g1 := old(layer0.Get(query)), old(layer1.Get(query));
        g0.Ok? && !Truthy(g0.value) && g1.Ok? && !Truthy(g1.value) ==>
          AnsweredBelowCaches(query, providerName, pointId, now, old(layer0.store), old(layer1.collection), r)
    {
      var g0 := layer0.Get(query);
      if g0.Err? {
        return Err(g0.error);
      }
      if Truthy(g0.value) {
        return Ok(QueryResult(query, g0.value.value, Some(Layer0Label), true, false, None, None));
      }
      var g1 := layer1.Get(query);
      if g1.Err? {
        return Err(g1.error);
      }
      if Truthy(g1.value) {
        r := Promote(query, g1.value.value);
        ExactLayer.WriteThenLookup(old(layer0.store), CacheKey(layer0.digest, query), g1.value.value, layer0.cacheTtl);
        return;
      }
      r := AnswerBelowCaches(query, providerName, pointId, now);
      if r.Ok? {
        ExactLayer.WriteThenLookup(old(layer0.store), CacheKey(layer0.digest, query), r.value.response, layer0.cacheTtl);
      }
    }

    /** The Layer 1 branch of `query`: the answer is set in Layer 0 and
        reported as a Layer 1 hit. */
    method Promote(query: string, response: string) returns (r: Result<QueryResult>)
      requires layer0.online
      modifies layer0`store
      ensures layer0.cacheTtl > 0 ==>
        r == Ok(QueryResult(query, response, Some(Layer1Label), true, false, None, None)) &&
        layer0.store == old(layer0.store)[CacheKey(layer0.digest, query) := Entry(response, layer0.cacheTtl)]
      ensures layer0.cacheTtl <= 0 ==>
        r == Err(InvalidExpireTime(layer0.cacheTtl)) && layer0.store == old(layer0.store)
    {
      var written := layer0.Set(query, response, None);
      if written.Fail? {
        return Err(written.error);
      }
      r := Ok(QueryResult(query, response, Some(Layer1Label), true, false, None, None));
    }

    /** Asking the same question twice: whenever the first answer is a
        non-empty string, the second comes from the exact layer, unchanged. */
    method AskTwice(query: string, providerName: Option<string>, firstId: string, secondId: string, now: int)
      returns (first: Result<QueryResult>, second: Result<QueryResult>)
      modifies layer0`store, layer1`collection
      ensures first.Ok? && first.value.response != "" ==>
        second == Ok(QueryResult(query, first.value.response, Some(Layer0Label), true, false, None, None))
    {
      first := Query(query, providerName, firstId, now);
      second := Query(query, providerName, secondId, now);
    }

    /** `clear_cache`: "0", "1" or "2" clears that layer, None clears all
        three, anything else nothing. Layer 0's clear raises when Redis is
        unreachable, and then the other layers are left alone; the vector
        layers report their own errors. */
    method ClearCache(layer: Option<string>) returns (r: Outcome)
      modifies layer0`store, layer1`collection, layer2`collection
      ensures var clear0, clear1, clear2 := layer.None? || layer == Some("0"), layer.None? || layer == Some("1"),
                                            layer.None? || layer == Some("2");
        if clear0 && !layer0.online then
          r == Fail(StoreUnavailable) && layer0.store == old(layer0.store) &&
          layer1.collection == old(layer1.collection) && layer2.collection == old(layer2.collection)
        else
          r == Pass &&
          layer0.store == (if clear0 then Cleared(old(layer0.store)) else old(layer0.store)) &&
          layer1.collection == (if clear1 then Recreated(layer1.online, old(layer1.collection)) else old(layer1.collection)) &&
          layer2.collection == (if clear2 then Recreated(layer2.online, old(layer2.collection)) else old(layer2.collection))
    {
      if layer == Some("0") || layer.None? {
        var cleared, count := layer0.ClearAll();
        if cleared.Fail? {
          return cleared;
        }
      }
      if layer == Some("1") || layer.None? {
        layer1.ClearAll();
      }
      if layer == Some("2") || layer.None? {
        layer2.ClearAll();
      }
      r := Pass;
    }

    /** `add_document`: delegated to Layer 2 with a fresh document id. */
    method AddDocument(content: string, metadata: Option<map<string, Json>>, docId: string, now: int)
      returns (r: Option<string>)
      modifies layer2`collection
      ensures var chunks := ChunkText(layer2.settings, layer2.split, content);
        var accepted := forall i :: 0 <= i < |chunks| ==> layer2.embedder.accepts(chunks[i]);
        if accepted && layer2.online && old(layer2.collection).Some? then
          r == Some(docId) &&
          layer2.collection == Some(Upsert(old(layer2.collection).value,
                                           DocumentPoints(docId, chunks, MetadataOrEmpty(metadata), now)))
        else
          r == None && layer2.collection == old(layer2.collection)
    {
      r := layer2.AddDocument(content, metadata, docId, now);
    }

    /** `add_documents_batch`: delegated to Layer 2. */
    method AddDocumentsBatch(docs: seq<DocumentInput>, uuids: nat -> string, now: int)
      returns (r: Result<seq<string>>)
      modifies layer2`collection
      ensures var plan := BatchPlan(layer2.embedder, layer2.settings, layer2.split, uuids, now, docs);
        if plan.Err? then r == Err(plan.error) && layer2.collection == old(layer2.collection)
        else if layer2.online && old(layer2.collection).Some? then
          r == Ok(plan.value.ids) && layer2.collection == Some(Upsert(old(layer2.collection).value, plan.value.points))
        else r == Ok([]) && layer2.collection == old(layer2.collection)
    {
      r := layer2.AddDocumentsBatch(docs, uuids, now);
    }
  }
}
