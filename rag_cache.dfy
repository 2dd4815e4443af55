/** Layer 2: documents split into chunks and kept as points of the Qdrant
    collection "rag_cache"; a query retrieves the best-scoring chunks, which
    the coordinator then hands to the generator as context. The text
    splitter is opaque: `split` stands for the configured splitter applied
    to a text. */
module RagLayer {
  import opened Common
  import opened JsonValue
  import opened Config
  import opened VectorStore

  /** How many chunks `get` returns when the caller does not say. */
  const DefaultTopK := 3

  /** The two splitters `_initialize_text_splitter` can build; token
      counting and the splitting itself are not modelled. */
  datatype Splitter =
    | RecursiveSplitter(chunkSize: int, chunkOverlap: int, separators: seq<string>)
    | CharacterSplitter(chunkSize: int, chunkOverlap: int, separator: string)

  /** `_initialize_text_splitter`: "recursive" selects the recursive
      splitter with its separator list, any other strategy the character
      splitter on newlines. */
  function SplitterFor(s: Settings): (sp: Splitter)
    ensures sp.RecursiveSplitter? <==> s.chunkingStrategy == "recursive"
    ensures sp.chunkSize == s.chunkSize && sp.chunkOverlap == s.chunkOverlap
    ensures sp.RecursiveSplitter? ==> sp.separators == ["\n\n", "\n", ". ", " ", ""]
    ensures sp.CharacterSplitter? ==> sp.separator == "\n"
  {
    if s.chunkingStrategy == "recursive" then
      RecursiveSplitter(s.chunkSize, s.chunkOverlap, ["\n\n", "\n", ". ", " ", ""])
    else
      CharacterSplitter(s.chunkSize, s.chunkOverlap, "\n")
  }

  /** `_chunk_text`: with chunking disabled the whole text is the only chunk. */
  function ChunkText(s: Settings, split: (Splitter, string) -> seq<string>, text: string): (chunks: seq<string>)
    ensures !s.enableChunking ==> chunks == [text]
    ensures s.enableChunking ==> chunks == split(SplitterFor(s), text)
  {
    if !s.enableChunking then [text] else split(SplitterFor(s), text)
  }

  /** The id of chunk i of n: the document id itself when the document is
      one chunk, the document id with a "_chunk_i" suffix otherwise. */
  function ChunkId(docId: string, i: nat, n: nat): (id: string)
    ensures n <= 1 ==> id == docId
    ensures n > 1 ==> |docId| <= |id| && id[..|docId|] == docId && id[|docId|..] == "_chunk_" + NatStr(i)
  {
    if n > 1 then docId + "_chunk_" + NatStr(i) else docId
  }

  /** The chunks of one document never share an id. */
  lemma ChunkIdsDistinct(docId: string, n: nat, i: nat, j: nat)
    requires i < n && j < n && i != j
    ensures ChunkId(docId, i, n) != ChunkId(docId, j, n)
  {
    var a, b := ChunkId(docId, i, n), ChunkId(docId, j, n);
    if a == b {
      assert a[|docId|..] == b[|docId|..];
      assert ("_chunk_" + NatStr(i))[7..] == NatStr(i);
      assert ("_chunk_" + NatStr(j))[7..] == NatStr(j);
      NatStrInjective(i, j);
    }
  }

  /** The metadata keys every chunk carries. */
  const ReservedKeys := {"parent_doc_id", "chunk_index", "total_chunks", "is_chunked"}

  /** The metadata of chunk i of n: the reserved fields, then the caller's
      fields, so that a caller key overrides a reserved one. */
  function ChunkMetadata(docId: string, i: nat, n: nat, caller: map<string, Json>): (m: map<string, Json>)
    ensures m.Keys == ReservedKeys + caller.Keys
    ensures forall k :: k in caller ==> m[k] == caller[k]
    ensures "parent_doc_id" !in caller ==> m["parent_doc_id"] == JStr(docId)
    ensures "chunk_index" !in caller ==> m["chunk_index"] == JInt(i)
    ensures "total_chunks" !in caller ==> m["total_chunks"] == JInt(n)
    ensures "is_chunked" !in caller ==> m["is_chunked"] == JBool(n > 1)
  {
    map["parent_doc_id" := JStr(docId), "chunk_index" := JInt(i),
        "total_chunks" := JInt(n), "is_chunked" := JBool(n > 1)] + caller
  }

  /** The payload of a stored chunk. */
  datatype ChunkRecord = ChunkRecord(content: string, metadata: map<string, Json>, timestamp: int)

  /** The point written for chunk i: its vector is the embedding of the chunk. */
  function ChunkPoint(docId: string, chunks: seq<string>, i: nat, caller: map<string, Json>, now: int): (p: Point<ChunkRecord>)
    requires i < |chunks|
    ensures p.id == ChunkId(docId, i, |chunks|) && p.text == chunks[i]
    ensures p.payload == ChunkRecord(chunks[i], ChunkMetadata(docId, i, |chunks|, caller), now)
  {
    Point(ChunkId(docId, i, |chunks|), chunks[i], ChunkRecord(chunks[i], ChunkMetadata(docId, i, |chunks|, caller), now))
  }

  /** The points of one document, one per chunk, in chunk order. */
  function DocumentPoints(docId: string, chunks: seq<string>, caller: map<string, Json>, now: int): (ps: seq<Point<ChunkRecord>>)
    ensures |ps| == |chunks|
    ensures forall i :: 0 <= i < |chunks| ==> ps[i] == ChunkPoint(docId, chunks, i, caller, now)
  {
    seq(|chunks|, i requires 0 <= i < |chunks| => ChunkPoint(docId, chunks, i, caller, now))
  }

  /** A document's points have pairwise distinct ids, so one upsert stores
      all of them. */
  lemma DocumentPointIdsDistinct(docId: string, chunks: seq<string>, caller: map<string, Json>, now: int)
    ensures var ps := DocumentPoints(docId, chunks, caller, now);
      forall i, j :: 0 <= i < |ps| && 0 <= j < |ps| && i != j ==> ps[i].id != ps[j].id
  {
    var ps := DocumentPoints(docId, chunks, caller, now);
    forall i, j | 0 <= i < |ps| && 0 <= j < |ps| && i != j ensures ps[i].id != ps[j].id {
      ChunkIdsDistinct(docId, |chunks|, i, j);
    }
  }

  /** The index of the first chunk the embedding model rejects, or the
      number of chunks when it accepts them all. */
  function FirstRejected(e: Embedder, chunks: seq<string>): (k: nat)
    ensures k <= |chunks|
    ensures forall j :: 0 <= j < k ==> e.accepts(chunks[j])
    ensures k < |chunks| ==> !e.accepts(chunks[k])
  {
    if |chunks| == 0 || !e.accepts(chunks[0]) then 0 else 1 + FirstRejected(e, chunks[1..])
  }

  /** `metadata` of a batch entry after `**`, or no fields when it cannot
      be unpacked. */
  function CallerFields(metadata: Option<Json>): map<string, Json> {
    if Unpack(metadata).Ok? then Unpack(metadata).value else map[]
  }

  /** The points a batch entry contributes. For each chunk in order the
      chunk is embedded and then `**metadata` is evaluated, so chunk 0's
      embedding error comes first, then a metadata that is not a mapping,
      then the embedding errors of the later chunks; a document without
      chunks evaluates neither. */
  function DocumentBatchPoints(e: Embedder, docId: string, chunks: seq<string>, metadata: Option<Json>, now: int)
    : (r: Result<seq<Point<ChunkRecord>>>)
    ensures r.Ok? <==> |chunks| == 0 || (Unpack(metadata).Ok? && forall i :: 0 <= i < |chunks| ==> e.accepts(chunks[i]))
    ensures r.Ok? ==> r.value == DocumentPoints(docId, chunks, CallerFields(metadata), now)
    ensures |chunks| > 0 && !e.accepts(chunks[0]) ==> r == Err(EmbeddingFailed(chunks[0]))
    ensures |chunks| > 0 && e.accepts(chunks[0]) && Unpack(metadata).Err? ==> r == Err(Unpack(metadata).error)
  {
    if |chunks| == 0 then Ok([])
    else if !e.accepts(chunks[0]) then Err(EmbeddingFailed(chunks[0]))
    else
      var caller :- Unpack(metadata);
      var k := FirstRejected(e, chunks);
      if k < |chunks| then Err(EmbeddingFailed(chunks[k]))
      else Ok(DocumentPoints(docId, chunks, caller, now))
  }

  /** The first chunk the model rejects is the error a batch entry raises. */
  lemma RejectedAt(e: Embedder, docId: string, chunks: seq<string>, metadata: Option<Json>, now: int, i: nat)
    requires i < |chunks| && !e.accepts(chunks[i])
    requires forall j :: 0 <= j < i ==> e.accepts(chunks[j])
    requires i > 0 ==> Unpack(metadata).Ok?
    ensures DocumentBatchPoints(e, docId, chunks, metadata, now) == Err(EmbeddingFailed(chunks[i]))
  {
    if i > 0 {
      var k := FirstRejected(e, chunks);
      assert k == i;
    }
  }

  /** An entry of `add_documents_batch`'s list: `content` and `metadata`
      are None when the entry has no such key. Either can hold any JSON
      value. */
  datatype DocumentInput = DocumentInput(content: Option<Json>, metadata: Option<Json>)

  /** Whether the batch keeps the entry: its content is present and truthy. */
  predicate HasContent(d: DocumentInput) {
    d.content.Some? && JTruthy(d.content.value)
  }

  /** `_chunk_text` on a content of any JSON type: a string is split as
      `ChunkText` says; `len` or the splitter raises a `TypeError` on
      anything else. */
  function ChunkContent(s: Settings, split: (Splitter, string) -> seq<string>, c: Json): (r: Result<seq<string>>)
    ensures r.Ok? <==> c.JStr?
    ensures r.Err? ==> r.error.TypeError?
    ensures c.JStr? ==> r == Ok(ChunkText(s, split, c.s))
  {
    if c.JStr? then Ok(ChunkText(s, split, c.s))
    else if !s.enableChunking then Err(TypeError("object of type '" + TypeName(c) + "' has no len()"))
    else Err(TypeError("expected string or bytes-like object, got '" + TypeName(c) + "'"))
  }

  /** The contents of the entries the batch keeps: those whose content is
      neither missing nor falsy, in input order. */
  function Kept(docs: seq<DocumentInput>): (r: seq<Json>)
    ensures |r| <= |docs|
    ensures forall i :: 0 <= i < |r| ==> JTruthy(r[i])
  {
    if |docs| == 0 then []
    else
      var d := docs[|docs| - 1];
      Kept(docs[..|docs| - 1]) + if HasContent(d) then [d.content.value] else []
  }

  /** The batch keeps every entry with content, in input order: the entry's
      content sits at the place given by the number of entries kept before it. */
  lemma {:induction false} KeptInOrder(docs: seq<DocumentInput>)
    ensures forall i :: 0 <= i < |docs| && HasContent(docs[i]) ==>
      |Kept(docs[..i])| < |Kept(docs)| && Kept(docs)[|Kept(docs[..i])|] == docs[i].content.value
  {
    if |docs| > 0 {
      var n := |docs| - 1;
      var init := docs[..n];
      KeptInOrder(init);
      assert Kept(docs) == Kept(init) + if HasContent(docs[n]) then [docs[n].content.value] else [];
      forall i | 0 <= i < |docs| && HasContent(docs[i])
        ensures |Kept(docs[..i])| < |Kept(docs)| && Kept(docs)[|Kept(docs[..i])|] == docs[i].content.value
      {
        if i < n {
          assert init[..i] == docs[..i] && init[i] == docs[i];
          assert Kept(init)[|Kept(init[..i])|] == init[i].content.value;
        }
      }
    }
  }

  /** How many entries have content, counted from the front. */
  function WithContent(docs: seq<DocumentInput>): nat {
    if |docs| == 0 then 0
    else (if HasContent(docs[0]) then 1 else 0) + WithContent(docs[1..])
  }

  /** Counting from the front agrees with adding the last entry. */
  lemma {:induction false} WithContentSnoc(docs: seq<DocumentInput>)
    requires |docs| > 0
    ensures var n := |docs| - 1;
      WithContent(docs) == WithContent(docs[..n]) + if HasContent(docs[n]) then 1 else 0
  {
    var n := |docs| - 1;
    if n > 0 {
      WithContentSnoc(docs[1..]);
      assert docs[1..][..n - 1] == docs[..n][1..];
      assert docs[1..][n - 1] == docs[n];
    }
  }

  /** The batch keeps nothing else: it keeps as many contents as there are
      entries with content. */
  lemma {:induction false} KeptCount(docs: seq<DocumentInput>)
    ensures |Kept(docs)| == WithContent(docs)
  {
    if |docs| > 0 {
      KeptCount(docs[..|docs| - 1]);
      WithContentSnoc(docs);
    }
  }

  /** The number of chunks of the given contents (a content that is not a
      string has none). */
  function TotalChunks(s: Settings, split: (Splitter, string) -> seq<string>, contents: seq<Json>): nat {
    if |contents| == 0 then 0
    else
      var c := contents[|contents| - 1];
      TotalChunks(s, split, contents[..|contents| - 1]) + if c.JStr? then |ChunkText(s, split, c.s)| else 0
  }

  /** What the batch loop has gathered: the ids of the kept documents and
      their points. */
  datatype Plan = Plan(ids: seq<string>, points: seq<Point<ChunkRecord>>)

  /** The loop of `add_documents_batch` over a list of entries. The j-th
      kept document gets the id `uuids(j)`; an error raised by any entry
      ends the whole call. */
  function BatchPlan(e: Embedder, s: Settings, split: (Splitter, string) -> seq<string>,
                     uuids: nat -> string, now: int, docs: seq<DocumentInput>): (r: Result<Plan>)
    ensures r.Ok? ==> |r.value.ids| <= |docs|
    ensures (forall i :: 0 <= i < |docs| ==> !HasContent(docs[i])) ==> r == Ok(Plan([], []))
  {
    if |docs| == 0 then Ok(Plan([], []))
    else
      var prev :- BatchPlan(e, s, split, uuids, now, docs[..|docs| - 1]);
      var d := docs[|docs| - 1];
      if !HasContent(d) then Ok(prev)
      else
        var id := uuids(|prev.ids|);
        var chunks :- ChunkContent(s, split, d.content.value);
        var ps :- DocumentBatchPoints(e, id, chunks, d.metadata, now);
        Ok(Plan(prev.ids + [id], prev.points + ps))
  }

  /** The returned ids are one fresh id per kept document, in input order,
      and the points are as many as those documents have chunks. */
  lemma {:induction false} BatchShape(e: Embedder, s: Settings, split: (Splitter, string) -> seq<string>,
                                      uuids: nat -> string, now: int, docs: seq<DocumentInput>)
    requires BatchPlan(e, s, split, uuids, now, docs).Ok?
    ensures var plan := BatchPlan(e, s, split, uuids, now, docs).value;
      |plan.ids| == |Kept(docs)| &&
      (forall j :: 0 <= j < |plan.ids| ==> plan.ids[j] == uuids(j)) &&
      |plan.points| == TotalChunks(s, split, Kept(docs))
  {
    if |docs| > 0 {
      var init := docs[..|docs| - 1];
      BatchShape(e, s, split, uuids, now, init);
      var d := docs[|docs| - 1];
      var prev := BatchPlan(e, s, split, uuids, now, init).value;
      var plan := BatchPlan(e, s, split, uuids, now, docs).value;
      if HasContent(d) {
        var kept := Kept(docs);
        var chunks := ChunkContent(s, split, d.content.value).value;
        var ps := DocumentBatchPoints(e, uuids(|prev.ids|), chunks, d.metadata, now);
        assert plan == Plan(prev.ids + [uuids(|prev.ids|)], prev.points + ps.value);
        assert |ps.value| == |chunks|;
        assert kept == Kept(init) + [d.content.value];
        assert kept[..|kept| - 1] == Kept(init);
        assert TotalChunks(s, split, kept) == TotalChunks(s, split, Kept(init)) + |chunks|;
      } else {
        assert plan == prev;
        assert Kept(docs) == Kept(init);
      }
    }
  }

  /** An entry that raises aborts the whole batch with its error, whatever
      the entries after it hold. */
  lemma {:induction false} BatchErrorPropagates(e: Embedder, s: Settings, split: (Splitter, string) -> seq<string>,
                                                uuids: nat -> string, now: int, docs: seq<DocumentInput>, k: nat)
    requires k <= |docs|
    requires BatchPlan(e, s, split, uuids, now, docs[..k]).Err?
    ensures BatchPlan(e, s, split, uuids, now, docs) == BatchPlan(e, s, split, uuids, now, docs[..k])
    decreases |docs| - k
  {
    if k < |docs| {
      var next := docs[..k + 1];
      assert next[..|next| - 1] == docs[..k];
      BatchErrorPropagates(e, s, split, uuids, now, docs, k + 1);
    } else {
      assert docs[..k] == docs;
    }
  }

  /** A kept entry whose content is not a string makes the whole batch
      raise; when the entries before it went through, the error is the
      `TypeError` of its chunking. */
  lemma {:induction false} NonTextContentRaises(e: Embedder, s: Settings, split: (Splitter, string) -> seq<string>,
                                                uuids: nat -> string, now: int, docs: seq<DocumentInput>, k: nat)
    requires k < |docs| && HasContent(docs[k]) && !docs[k].content.value.JStr?
    ensures BatchPlan(e, s, split, uuids, now, docs).Err?
    ensures BatchPlan(e, s, split, uuids, now, docs[..k]).Ok? ==>
      BatchPlan(e, s, split, uuids, now, docs) == Err(ChunkContent(s, split, docs[k].content.value).error)
  {
    var next := docs[..k + 1];
    assert next[..|next| - 1] == docs[..k];
    assert next[|next| - 1] == docs[k];
    BatchErrorPropagates(e, s, split, uuids, now, docs, k + 1);
  }

  /** A retrieved chunk as `get` reports it. */
  datatype Retrieved = Retrieved(content: string, metadata: map<string, Json>, score: int)

  /** The entry `get` reports for one search result. */
  function Report(h: Hit<ChunkRecord>): Retrieved {
    Retrieved(h.point.payload.content, h.point.payload.metadata, h.score)
  }

  /** The reported entries, one per search result and in the same order. */
  function Reported(hits: seq<Hit<ChunkRecord>>): (docs: seq<Retrieved>)
    ensures |docs| == |hits|
    ensures forall i :: 0 <= i < |hits| ==> docs[i] == Report(hits[i])
  {
    seq(|hits|, i requires 0 <= i < |hits| => Report(hits[i]))
  }

  /** Whether a value supports `+ 1`: numbers and booleans. */
  predicate Addable(j: Json) {
    j.JInt? || j.JFloat? || j.JBool?
  }

  /** Whether a value supports `[:8]`: strings and lists. */
  predicate Sliceable(j: Json) {
    j.JStr? || j.JArr?
  }

  /** Whether the line `get` formats for a chunk raises. The line is built
      even when debugging is off, for every hit whose `is_chunked` is
      truthy: `chunk_index + 1` raises unless the index is absent or a
      number, and `parent_doc_id[:8]` raises unless the id is absent, a
      string or a list. */
  predicate ChunkLineRaises(m: map<string, Json>)
    ensures ("chunk_index" in m ==> m["chunk_index"].JInt?) && ("parent_doc_id" in m ==> m["parent_doc_id"].JStr?) ==>
      !ChunkLineRaises(m)
  {
    "is_chunked" in m && JTruthy(m["is_chunked"]) &&
    (("chunk_index" in m && !Addable(m["chunk_index"])) ||
     ("parent_doc_id" in m && !Sliceable(m["parent_doc_id"])))
  }

  /** The chunk line of a stored chunk raises exactly when the caller's
      metadata leaves the chunk marked as chunked and overrides its index
      with a value that is not a number or its parent id with one that is
      neither a string nor a list. */
  lemma StoredChunkLine(docId: string, i: nat, n: nat, caller: map<string, Json>)
    ensures ChunkLineRaises(ChunkMetadata(docId, i, n, caller)) <==>
      (if "is_chunked" in caller then JTruthy(caller["is_chunked"]) else n > 1) &&
      (("chunk_index" in caller && !Addable(caller["chunk_index"])) ||
       ("parent_doc_id" in caller && !Sliceable(caller["parent_doc_id"])))
  {
    var m := ChunkMetadata(docId, i, n, caller);
    assert "is_chunked" !in caller ==> m["is_chunked"] == JBool(n > 1);
  }

  /** The loop of `get` that turns search results into reported entries.
      Each entry is added before its chunk line is formatted, and a line
      that raises abandons the whole list: the `except` answers None. */
  method ReportHits(hits: seq<Hit<ChunkRecord>>) returns (documents: Option<seq<Retrieved>>)
    ensures documents.None? <==> exists i :: 0 <= i < |hits| && ChunkLineRaises(hits[i].point.payload.metadata)
    ensures documents.Some? ==> documents.value == Reported(hits)
  {
    var reported: seq<Retrieved> := [];
    for i := 0 to |hits|
      invariant reported == Reported(hits)[..i]
      invariant forall j :: 0 <= j < i ==> !ChunkLineRaises(hits[j].point.payload.metadata)
    {
      reported := reported + [Report(hits[i])];
      if ChunkLineRaises(hits[i].point.payload.metadata) {
        return None;
      }
    }
    assert reported == Reported(hits);
    documents := Some(reported);
  }

  /** One more chunk point extends the prefix built so far. */
  lemma PointsStep(docId: string, chunks: seq<string>, caller: map<string, Json>, now: int, i: nat)
    requires i < |chunks|
    ensures DocumentPoints(docId, chunks, caller, now)[..i + 1] ==
      DocumentPoints(docId, chunks, caller, now)[..i] + [ChunkPoint(docId, chunks, i, caller, now)]
  {
    var all := DocumentPoints(docId, chunks, caller, now);
    assert all[..i + 1] == all[..i] + [all[i]];
  }

  /** The inner loop of `add_documents_batch` for one kept entry. */
  method CollectChunks(e: Embedder, docId: string, chunks: seq<string>, metadata: Option<Json>, now: int)
    returns (r: Result<seq<Point<ChunkRecord>>>)
    ensures r == DocumentBatchPoints(e, docId, chunks, metadata, now)
  {
    var points: seq<Point<ChunkRecord>> := [];
    for i := 0 to |chunks|
      invariant i > 0 ==> Unpack(metadata).Ok?
      invariant forall j :: 0 <= j < i ==> e.accepts(chunks[j])
      invariant points == DocumentPoints(docId, chunks, CallerFields(metadata), now)[..i]
    {
      if !e.accepts(chunks[i]) {
        RejectedAt(e, docId, chunks, metadata, now, i);
        return Err(EmbeddingFailed(chunks[i]));
      }
      var caller := Unpack(metadata);
      if caller.Err? {
        return Err(caller.error);
      }
      PointsStep(docId, chunks, caller.value, now, i);
      points := points + [ChunkPoint(docId, chunks, i, caller.value, now)];
    }
    assert points == DocumentPoints(docId, chunks, CallerFields(metadata), now);
    r := Ok(points);
  }

  class RagCache {
    const embedder: Embedder
    const settings: Settings
    const split: (Splitter, string) -> seq<string>
    var online: bool
    var collection: Option<seq<Point<ChunkRecord>>>

    /** `RAGCache()`: connects and creates the collection if absent. */
    constructor(embedder: Embedder, settings: Settings, split: (Splitter, string) -> seq<string>,
                online: bool, collection: Option<seq<Point<ChunkRecord>>>)
      ensures this.embedder == embedder && this.settings == settings && this.split == split
      ensures this.online == online && this.collection == Initialized(online, collection)
    {
      this.embedder := embedder;
      this.settings := settings;
      this.split := split;
      this.online := online;
      this.collection := collection;
      new;
      InitializeCollection();
    }

    /** `_initialize_collection`. */
    method InitializeCollection()
      modifies this`collection
      ensures collection == Initialized(online, old(collection))
    {
      if online && collection.None? {
        collection := Some([]);
      }
    }

    /** What `get` answers: a rejected query raises (the embedding is outside
        the `try`); a failed search is a miss, and so is a result list in
        which some chunk line raises; otherwise the best chunks reaching the
        threshold, at most `topK`, best first, and never an empty list. */
    function Retrieve(query: string, topK: int): (r: Result<Option<seq<Retrieved>>>)
      reads this
      ensures r.Err? <==> !embedder.accepts(query)
      ensures r.Err? ==> r.error == EmbeddingFailed(query)
      ensures r.Ok? && (!online || collection.None?) ==> r.value.None?
      ensures r.Ok? && r.value.Some? ==> 0 < |r.value.value| <= topK
      ensures r.Ok? && r.value.Some? ==>
        r.value.value == Reported(Search(collection.value, embedder, query, topK, settings.ragSimilarityThreshold))
      ensures r.Ok? && r.value.Some? ==> forall d :: d in r.value.value ==> !ChunkLineRaises(d.metadata)
      ensures r.Ok? && online && collection.Some? ==>
        var hits := Search(collection.value, embedder, query, topK, settings.ragSimilarityThreshold);
        (r.value.None? <==> |hits| == 0 || exists i :: 0 <= i < |hits| && ChunkLineRaises(hits[i].point.payload.metadata))
      ensures r.Ok? && online && collection.Some? && topK > 0 &&
              (forall p :: p in collection.value ==> !ChunkLineRaises(p.payload.metadata)) ==>
        (r.value.None? <==> forall p :: p in collection.value ==> embedder.similarity(query, p.text) < settings.ragSimilarityThreshold)
    {
      if !embedder.accepts(query) then Err(EmbeddingFailed(query))
      else if !online || collection.None? then Ok(None)
      else
        var hits := Search(collection.value, embedder, query, topK, settings.ragSimilarityThreshold);
        if |hits| == 0 || exists i :: 0 <= i < |hits| && ChunkLineRaises(hits[i].point.payload.metadata) then Ok(None)
        else
          Ok(Some(Reported(hits)))
    }

    /** `get`: builds the reported list from the search results, in the
        order the store returned them. */
    method Get(query: string, topK: int) returns (r: Result<Option<seq<Retrieved>>>)
      ensures r == Retrieve(query, topK)
    {
      if !embedder.accepts(query) {
        return Err(EmbeddingFailed(query));
      }
      if !online || collection.None? {
        return Ok(None);
      }
      var hits := Search(collection.value, embedder, query, topK, settings.ragSimilarityThreshold);
      if |hits| == 0 {
        return Ok(None);
      }
      var documents := ReportHits(hits);
      r := Ok(documents);
    }

    /** `add_document`: splits the content (outside the `try`), embeds each
        chunk and upserts all the chunks in one call under the given fresh
        document id. An embedding or store error is reported and gives None. */
    method AddDocument(content: string, metadata: Option<map<string, Json>>, docId: string, now: int)
      returns (r: Option<string>)
      modifies this`collection
      ensures var chunks := ChunkText(settings, split, content);
        var accepted := forall i :: 0 <= i < |chunks| ==> embedder.accepts(chunks[i]);
        if accepted && online && old(collection).Some? then
          r == Some(docId) &&
          collection == Some(Upsert(old(collection).value, DocumentPoints(docId, chunks, MetadataOrEmpty(metadata), now)))
        else
          r == None && collection == old(collection)
    {
      var chunks := ChunkText(settings, split, content);
      var caller := MetadataOrEmpty(metadata);
      var points: seq<Point<ChunkRecord>> := [];
      for i := 0 to |chunks|
        invariant |points| == i
        invariant forall j :: 0 <= j < i ==> embedder.accepts(chunks[j]) && points[j] == ChunkPoint(docId, chunks, j, caller, now)
      {
        if !embedder.accepts(chunks[i]) {
          return None;
        }
        points := points + [ChunkPoint(docId, chunks, i, caller, now)];
      }
      assert points == DocumentPoints(docId, chunks, caller, now);
      if !online || collection.None? {
        return None;
      }
      collection := Some(Upsert(collection.value, points));
      r := Some(docId);
    }

    /** `add_documents_batch`: entries with missing or empty content are
        skipped; every other entry gets the next fresh id and its chunks.
        An embedding or metadata error raises out of the loop; the single
        upsert at the end is guarded, and its failure gives `[]`. */
    method AddDocumentsBatch(docs: seq<DocumentInput>, uuids: nat -> string, now: int)
      returns (r: Result<seq<string>>)
      modifies this`collection
      ensures var plan := BatchPlan(embedder, settings, split, uuids, now, docs);
        if plan.Err? then r == Err(plan.error) && collection == old(collection)
        else if online && old(collection).Some? then
          r == Ok(plan.value.ids) && collection == Some(Upsert(old(collection).value, plan.value.points))
        else r == Ok([]) && collection == old(collection)
    {
      var ids: seq<string> := [];
      var points: seq<Point<ChunkRecord>> := [];
      for k := 0 to |docs|
        invariant BatchPlan(embedder, settings, split, uuids, now, docs[..k]) == Ok(Plan(ids, points))
        invariant collection == old(collection)
      {
        var prefix := docs[..k + 1];
        assert prefix[..|prefix| - 1] == docs[..k];
        var d := docs[k];
        if !HasContent(d) {
          continue;
        }
        var id := uuids(|ids|);
        var chunks := ChunkContent(settings, split, d.content.value);
        if chunks.Err? {
          BatchErrorPropagates(embedder, settings, split, uuids, now, docs, k + 1);
          return Err(chunks.error);
        }
        var ps := CollectChunks(embedder, id, chunks.value, d.metadata, now);
        if ps.Err? {
          BatchErrorPropagates(embedder, settings, split, uuids, now, docs, k + 1);
          return Err(ps.error);
        }
        ids := ids + [id];
        points := points + ps.value;
      }
      assert docs[..|docs|] == docs;
      if !online || collection.None? {
        return Ok([]);
      }
      collection := Some(Upsert(collection.value, points));
      r := Ok(ids);
    }

    /** `clear_all`. */
    method ClearAll()
      modifies this`collection
      ensures collection == Recreated(online, old(collection))
    {
      if online {
        collection := None;
        InitializeCollection();
      }
    }
  }

  /** `metadata or {}`. */
  function MetadataOrEmpty(metadata: Option<map<string, Json>>): (m: map<string, Json>)
    ensures metadata.Some? ==> m == metadata.value
    ensures metadata.None? ==> m == map[]
  {
    if metadata.Some? then metadata.value else map[]
  }
}
