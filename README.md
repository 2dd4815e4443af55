# Enterprise copilot cache hierarchy, modelled in Dafny

This project models the query path of a multi-layer cache placed in front
of text-generation providers:

- **Layer 0, the exact cache.** Redis keys `exact_cache:<md5(query)>` hold
  earlier answers with an expiry.
- **Layer 1, the semantic cache.** The Qdrant collection `semantic_cache`
  holds earlier query/answer pairs. A new query is answered by the most
  similar stored query when the similarity reaches the threshold (0.85).
- **Layer 2, the RAG cache.** The Qdrant collection `rag_cache` holds
  document chunks. The best three chunks scoring at least 0.75 become the
  generator's context.
- **The provider registry.** `LLMManager` maps names to providers:
  - the built-in OpenAI and Gemini clients;
  - custom providers bound to a LangChain model, an HTTP endpoint or a
    function.

  It also reads the many shapes an HTTP endpoint's reply can take.
- **The orchestrator.** It asks the layers in order and calls the generator
  when they all miss. It writes the answer back into the faster layers.
  It also clears layers and adds documents.

The stores are state that the methods update in place:

- Redis is a `map<string, Entry>` with an `online` flag.
- Each Qdrant collection is an `Option<seq<Point>>`, where `None` means
  the collection does not exist.

Each layer is a class. Its fields are those stores. Its lookups are
functions that read them, and its writes are methods that state the
whole new state.

External engines are opaque values that the objects are built with:

- **MD5:** a `string -> string` digest.
- **Sentence embedding and cosine similarity:** an `Embedder`, which says
  which texts embed and gives an integer similarity on a hundredths scale.
- **The LangChain text splitters:** a function from a splitter
  configuration and a text to its chunks.
- **The provider backends and the HTTP client:** one function from a
  provider and a request to a decoded JSON reply or an error.
- **`f"{score:.2f}"`:** a score formatter.

The stores' own behaviour is modelled on values:

- a search filters by threshold, orders by descending score and keeps the first `limit`;
- an upsert replaces the points whose ids recur and appends the rest.

`uuid.uuid4()` and `time.time()` are parameters of the methods that use
them.

Python exceptions are `Err`/`Fail` values of one `Error` datatype. They
propagate exactly where the code does not catch them:

- Layer 0 never catches a Redis error: `get`, `set`, `delete` and
  `clear_all` call Redis outside any `try` (layer0_exact_cache.py:31, 47,
  53, 58-59).
- Layer 1's `get` and `set` embed the query before their `try`
  (layer1_semantic_cache.py:64, 94), and so does Layer 2's `get`
  (layer2_rag_cache.py:106). A query the model cannot embed raises there,
  while a failing store call inside the `try` is a miss, or is swallowed.
- Layer 2's `add_document` embeds its chunks inside its `try`
  (layer2_rag_cache.py:154-158), so any failure gives None.
- Layer 2's `add_documents_batch` embeds its chunks and unpacks their
  metadata in a loop with no `try` (layer2_rag_cache.py:207-244), so those
  errors raise. Only the final upsert is guarded, and its failure gives `[]`.

The orchestrator's `query` catches nothing (orchestrator.py:28-127). An
error raised by Layer 0, by an embedding or by the generator therefore ends
the query, including one raised while writing an answer back. The model
does the same.

Layer 2's `get` formats a line for each chunk it reports, even when
debugging is off (layer2_rag_cache.py:128-130). That line raises when the
caller's metadata marks the chunk as chunked and overrides `chunk_index`
with a value that is not a number, or `parent_doc_id` with one that is
neither a string nor a list. The `except` then answers None, so the
documents found are dropped and the query goes to the generator without
context. The model keeps this behaviour (`RagLayer.ChunkLineRaises`).

Proved, among other things:

- **Layer 0 hit.** The answer comes from Layer 0, nothing is written and
  the generator is not called.
- **Layer 1 hit.** The answer is promoted into Layer 0.
- **RAG answer.** The generator receives exactly the context built from
  the retrieved documents. The answer is written to Layer 1 then Layer 0.
- **Full miss.** The generator gets no context. The answer is written to
  Layer 0 then Layer 1.
- **Failures.** A failure before the write-back leaves every store
  unchanged.
- **Promotion.** Once a query has been answered with a non-empty string,
  the same query is an exact hit.
- **The search.** It returns at most `limit` hits, best first, each
  stored and above the threshold. It misses no better-scoring point, and
  returns nothing only when no point passes.
- **`clear_all` on Layer 0.** It deletes exactly the keys of its
  namespace and counts them.
- **Chunks.** Chunk ids within a document are distinct.
- **The batch plan.** It gives the kept documents their ids in input
  order, with one point per chunk.
- **The reply sniffer.** It follows its priority order, including
  Python's `in` on lists and the errors Python raises.
- **The provider registry.** It never binds a name twice. A failed lookup
  lists every registered name.

## Model

| member | source | states |
|---|---|---|
| ExactLayer.CacheKey | cache/layer0_exact_cache.py:23-25 | every key lies in the `exact_cache:` namespace and ends with the query's digest |
| ExactLayer.KeysSeparate | cache/layer0_exact_cache.py:23-25 | queries with different digests get different keys, so they never overwrite each other |
| ExactLayer.EffectiveTtl | cache/layer0_exact_cache.py:45 | a given non-zero expiry is used as is; a missing or zero one becomes the configured default |
| ExactLayer.Lookup | cache/layer0_exact_cache.py:31-40 | a hit exactly when the key is present with a non-empty value, and then that value |
| ExactLayer.Cleared | cache/layer0_exact_cache.py:55-62 | the database keeps exactly the keys outside the namespace, with their values |
| ExactLayer.WriteThenLookup | cache/layer0_exact_cache.py:42-48 | after SETEX the key answers the value written, or misses when it is empty |
| ExactLayer.WriteKeepsOthers | cache/layer0_exact_cache.py:42-53 | SETEX and DEL of one key leave every other key's answer unchanged |
| ExactLayer.ClearedMisses | cache/layer0_exact_cache.py:55-62 | after clearing, every query misses |
| ExactLayer.ExactCache.constructor | cache/layer0_exact_cache.py:14-21 | a client of the given Redis server with the given digest and default expiry |
| ExactLayer.ExactCache.Get | cache/layer0_exact_cache.py:27-40 | raises exactly when Redis is unreachable; otherwise the lookup of the query's key |
| ExactLayer.ExactCache.Set | cache/layer0_exact_cache.py:42-48 | unreachable Redis or a non-positive effective expiry fail and change nothing; otherwise only the query's key is overwritten with the answer and that expiry; every query with a different digest answers as before (`KeysSeparate`) |
| ExactLayer.ExactCache.Delete | cache/layer0_exact_cache.py:50-53 | only the query's key is removed; an unreachable server fails and changes nothing |
| ExactLayer.ExactCache.ClearAll | cache/layer0_exact_cache.py:55-62 | the loop deletes exactly the namespaced keys and counts exactly how many there were |
| VectorStore.Search | cache/layer2_rag_cache.py:109-114 | at most `limit` hits; every hit is a stored point with its own score at least the threshold; descending scores; every passing point left out scores no more than the last hit; the first hit is the best of all points; no hit only when no point passes |
| VectorStore.Ranked | cache/layer2_rag_cache.py:109-114 | the hits sorted by descending score, a permutation of the input |
| VectorStore.Upserted | cache/layer1_semantic_cache.py:96-116 | an upsert through the client keeps the collection's existence; offline nothing changes; online the collection holds the batch and exactly the old points whose ids it does not reuse |
| VectorStore.Upsert | cache/layer1_semantic_cache.py:108-111 | the new points plus exactly the old points whose ids the batch does not reuse |
| VectorStore.UpsertFresh | cache/layer2_rag_cache.py:246-250 | with ids not yet stored, an upsert appends the batch in order and keeps every existing point |
| VectorStore.Initialized | cache/layer1_semantic_cache.py:32-48 | an existing collection is kept; a missing one is created empty when Qdrant is reachable; an unreachable server changes nothing |
| VectorStore.InitializedIdempotent | cache/layer1_semantic_cache.py:35-46 | initializing twice is the same as once |
| VectorStore.Recreated | cache/layer1_semantic_cache.py:118-128 | a reachable store ends with an empty collection; an unreachable one is left as it was |
| SemanticLayer.AnswerPoint | cache/layer1_semantic_cache.py:97-106 | the point stored for an answer has the given id, the query as its text and payload {query, response, timestamp} |
| SemanticLayer.StoredIsFound | cache/layer1_semantic_cache.py:58-116 | once stored, an answer is found again by its own query, whatever else the collection holds |
| SemanticLayer.SetAppends | cache/layer1_semantic_cache.py:94-111 | with a fresh id, `set` appends exactly one point and modifies no existing one |
| SemanticLayer.SemanticCache.constructor | cache/layer1_semantic_cache.py:16-29 | the collection is created when it is absent and Qdrant is reachable |
| SemanticLayer.SemanticCache.InitializeCollection | cache/layer1_semantic_cache.py:32-48 | the collection afterwards is `Initialized` of the one before |
| SemanticLayer.SemanticCache.Get | cache/layer1_semantic_cache.py:58-87 | raises exactly when the query does not embed; a missing collection or unreachable server is a miss; a hit is the answer of a stored point that passes the threshold and scores best; with a reachable collection it misses exactly when no point passes |
| SemanticLayer.SemanticCache.Set | cache/layer1_semantic_cache.py:89-116 | a query that does not embed fails and changes nothing; otherwise it passes and upserts the one answer point when the collection is reachable, and leaves it alone otherwise; after a stored write, `get` of the same query is a hit whenever the query scores at least the threshold against itself (`StoredIsFound`) |
| SemanticLayer.SemanticCache.ClearAll | cache/layer1_semantic_cache.py:118-128 | the collection afterwards is `Recreated` of the one before |
| RagLayer.SplitterFor | cache/layer2_rag_cache.py:58-73 | "recursive" selects the recursive splitter with separators ["\n\n", "\n", ". ", " ", ""]; anything else the character splitter on "\n"; both use the configured size and overlap |
| RagLayer.ChunkText | cache/layer2_rag_cache.py:79-92 | with chunking disabled the text is its only chunk; otherwise the configured splitter's chunks |
| RagLayer.ChunkId | cache/layer2_rag_cache.py:157 | a single chunk takes the document id; otherwise chunk i is the document id followed by `_chunk_` and i |
| RagLayer.ChunkIdsDistinct | cache/layer2_rag_cache.py:157 | two different chunks of one document never share an id |
| RagLayer.ChunkMetadata | cache/layer2_rag_cache.py:160-166 | the reserved fields are parent_doc_id, chunk_index, total_chunks and is_chunked; every caller field is kept and overrides a reserved one |
| RagLayer.ChunkPoint | cache/layer2_rag_cache.py:168-176 | chunk i's point: its id, its text as the vector source, payload {content, metadata, timestamp} |
| RagLayer.DocumentPoints | cache/layer2_rag_cache.py:155-178 | one point per chunk, in chunk order |
| RagLayer.DocumentPointIdsDistinct | cache/layer2_rag_cache.py:155-178 | the points of one document have pairwise distinct ids |
| RagLayer.DocumentBatchPoints | cache/layer2_rag_cache.py:224-244 | succeeds exactly when every chunk embeds and the metadata unpacks (or there is no chunk), and then gives the document's points; the first chunk's failure comes before the metadata's |
| RagLayer.RejectedAt | cache/layer2_rag_cache.py:224-244 | the first chunk that does not embed is the error reported |
| RagLayer.ChunkContent | cache/layer2_rag_cache.py:79-85 | `_chunk_text` succeeds exactly on a string content, which it chunks as `ChunkText` does; any other content raises a TypeError |
| RagLayer.Kept | cache/layer2_rag_cache.py:207-213 | at most one content per entry, and every kept content is truthy |
| RagLayer.KeptInOrder | cache/layer2_rag_cache.py:207-216 | every entry with content is kept, in input order: its content sits right after the contents kept from the entries before it |
| RagLayer.KeptCount | cache/layer2_rag_cache.py:207-216 | nothing else is kept: there are as many kept contents as entries with content |
| RagLayer.BatchPlan | cache/layer2_rag_cache.py:207-244 | at most one id per entry, and a batch with no content plans nothing |
| RagLayer.BatchShape | cache/layer2_rag_cache.py:201-244 | the kept documents get uuid 0, 1, … in input order, and the points are exactly as many as their chunks |
| RagLayer.BatchErrorPropagates | cache/layer2_rag_cache.py:207-244 | an error in some document ends the whole batch with that error, whatever follows |
| RagLayer.NonTextContentRaises | cache/layer2_rag_cache.py:207-220 | a kept entry whose content is not a string makes the batch raise, with its own TypeError when the entries before it went through |
| RagLayer.Reported | cache/layer2_rag_cache.py:116-125 | one {content, metadata, score} entry per hit, in the store's order |
| RagLayer.MetadataOrEmpty | cache/layer2_rag_cache.py:165 | `metadata or {}` |
| RagLayer.RagCache.constructor | cache/layer2_rag_cache.py:18-38 | the splitter comes from the settings and the collection is created when absent |
| RagLayer.RagCache.InitializeCollection | cache/layer2_rag_cache.py:40-56 | the collection afterwards is `Initialized` of the one before |
| RagLayer.RagCache.Retrieve | cache/layer2_rag_cache.py:98-143 | raises exactly when the query does not embed; never an empty list, at most `top_k` entries; the entries report the search's hits, none with a raising chunk line; with a reachable collection it is None exactly when no chunk passes or a passing chunk's line raises, and, when no stored chunk's line can raise, exactly when no chunk passes |
| RagLayer.StoredChunkLine | cache/layer2_rag_cache.py:128-130 | a stored chunk's line raises exactly when the caller's metadata keeps it marked as chunked and overrides its index with a non-number or its parent id with a value that is neither a string nor a list |
| RagLayer.ChunkLineRaises | cache/layer2_rag_cache.py:128-130 | metadata whose index is an int and whose parent id is a string, as `add_document` writes them, never makes the chunk line raise |
| RagLayer.ReportHits | cache/layer2_rag_cache.py:116-143 | the loop builds exactly the reported entries, one per hit in order, or gives None exactly when some hit's chunk line raises |
| RagLayer.RagCache.Get | cache/layer2_rag_cache.py:98-143 | answers exactly `Retrieve` |
| RagLayer.RagCache.AddDocument | cache/layer2_rag_cache.py:145-194 | returns the document id and upserts exactly its chunk points when every chunk embeds and the store is reachable; None and no change otherwise |
| RagLayer.CollectChunks | cache/layer2_rag_cache.py:224-244 | the loop builds exactly `DocumentBatchPoints`, stopping at the first chunk that fails |
| RagLayer.RagCache.AddDocumentsBatch | cache/layer2_rag_cache.py:196-257 | a planning error raises and changes nothing; a reachable store gets all planned points in one upsert and the ids are returned; otherwise [] and no change |
| RagLayer.RagCache.ClearAll | cache/layer2_rag_cache.py:259-266 | the collection afterwards is `Recreated` of the one before |
| JsonValue.Show | llm/llm_provider.py:219 | a string nested in a list or dict is shown between single quotes; a list or dict starts and ends with its brackets |
| JsonValue.Unpack | cache/layer2_rag_cache.py:233 | `**metadata` succeeds exactly on a missing metadata or a JSON object |
| OrderedDict.Put | llm/llm_provider.py:310 | binding a name makes it answer the new value, leaves other names alone, and keeps its position or appends it |
| OrderedDict.Remove | llm/llm_provider.py:318-319 | the name no longer answers, other names answer as before, an absent name changes nothing |
| OrderedDict.PutKeepsDistinct | llm/llm_provider.py:310 | binding keeps the names distinct |
| OrderedDict.RemoveKeepsDistinct | llm/llm_provider.py:319 | removing keeps the names distinct |
| LlmProvider.SelectBinding | llm/llm_provider.py:129-145 | the LangChain instance wins over the endpoint, the endpoint over the function; none of them raises |
| LlmProvider.ApiHeaders | llm/llm_provider.py:136-138 | `Authorization: Bearer <key>` is present exactly when the key is truthy; every other caller header is kept |
| LlmProvider.PromptFor | llm/llm_provider.py:181-183 | the query alone without a (truthy) context; otherwise the Context/Question/Answer template |
| LlmProvider.PromptMentions | llm/llm_provider.py:173-183 | the prompt contains the query, and the context whenever one is given |
| LlmProvider.ChatMessages | llm/llm_provider.py:163-168 | a system message carrying the context, only when there is one, then the query as a human message |
| LlmProvider.Payload | llm/llm_provider.py:185-189 | the prompt and the temperature, then every extra argument; an extra argument named "prompt" overrides the prompt (the temperature cannot be among them, see `RegisterCustomProvider`) |
| LlmProvider.Has | llm/llm_provider.py:204-210 | Python's `in`: a key of a dict, an element of a list, a substring of a string, a TypeError otherwise |
| LlmProvider.Index | llm/llm_provider.py:205-216 | subscripting by a string succeeds exactly on a dict holding the key; a missing key is a KeyError |
| LlmProvider.First | llm/llm_provider.py:212 | `choices[0]` of a list is its first element; of a dict a KeyError |
| LlmProvider.FromChoices | llm/llm_provider.py:210-216 | an empty list gives nothing; otherwise `message.content` of the first choice, else its `text`, else nothing |
| LlmProvider.Sniff | llm/llm_provider.py:199-219 | a string is returned as is; then "response", "text", "output", non-empty "choices" in that order; otherwise `str(result)`; a number raises, and so does a list holding one of the four words, since indexing a list by a string raises |
| LlmProvider.AsText | llm/llm_provider.py:177 | the result is a string: a string reply unchanged, any other reply its Python `str()` rendering |
| LlmProvider.CustomReply | llm/llm_provider.py:159-224 | the function binding is called with (query, context) and the text LangChain model with the prompt, each reply turned into text; the chat model gets the system and human messages and its content is returned as is; the endpoint gets the payload and its reply is what the sniffer reads from the decoded body; every backend error passes through |
| LlmProvider.Generate | llm/llm_provider.py:147-157 | the provider's reply; every error is re-raised as the provider's prefix followed by the backend's (or the custom binding's) own error |
| LlmProvider.DisplayName | llm/llm_provider.py:55-56 | the display name ends with the provider's model in parentheses (also lines 88-89 and 226-227) |
| LlmProvider.ErrorPrefix | llm/llm_provider.py:53 | each provider's raised message starts with its own "… error: " prefix (also lines 86 and 157) |
| LlmProvider.ErrorText | llm/llm_provider.py:328-330 | a wrapped error's text starts with its prefix, and a failed lookup's text names the missing provider |
| LlmProvider.NotFoundListsProviders | llm/llm_provider.py:328-330 | the error of a failed lookup names every registered provider |
| LlmProvider.DisplayModel | llm/llm_provider.py:307 | `model_name or provider_name` |
| LlmProvider.LLMManager.constructor | llm/llm_provider.py:233-237 | the registry holds "openai" then "gemini", each exactly when its key is set and its client builds |
| LlmProvider.LLMManager.InitializeProviders | llm/llm_provider.py:239-253 | each built-in provider is registered under its name when its key is set and it builds, independently of the other |
| LlmProvider.LLMManager.RegisterCustomProvider | llm/llm_provider.py:255-314 | the extra arguments never carry a name that is a named parameter of `register_custom_provider` or of the provider's constructor (Python binds those names to the parameters); a failed construction re-raises and leaves the registry unchanged; otherwise the name is bound to the provider, replacing an earlier binding, and no name is bound twice |
| LlmProvider.LLMManager.CustomPostsTemperature | llm/llm_provider.py:107-126 | a registered custom provider posts its own temperature: since `temperature` is a named parameter (line 107), no extra argument (kept at line 126, spread at 189) can replace it |
| LlmProvider.LLMManager.UnregisterProvider | llm/llm_provider.py:316-322 | the name is removed when bound, and nothing changes otherwise; the other names keep their registration order |
| LlmProvider.LLMManager.GetProvider | llm/llm_provider.py:324-332 | looks up the name or, when it is missing or empty, the default; fails exactly when it is not registered, listing the registered names in order |
| LlmProvider.LLMManager.GenerateResponse | llm/llm_provider.py:334-344 | a lookup error propagates; otherwise the provider's reply with its display name |
| LlmProvider.LLMManager.ListProviders | llm/llm_provider.py:346-348 | exactly the registered names, one per binding, in registration order |
| Orchestrator.Context | orchestrator.py:129-135 | no documents give the empty context, and one document gives its part alone, with no separator |
| Orchestrator.ContextParts | orchestrator.py:131-133 | one part per document, numbered from 1 in retrieval order |
| Orchestrator.ContextMentionsDocuments | orchestrator.py:129-135 | the context contains every retrieved document's content, and is non-empty when a document was retrieved |
| Orchestrator.CacheOrchestrator.constructor | orchestrator.py:15-26 | the three layers and the registry it coordinates |
| Orchestrator.CacheOrchestrator.BuildContextFromDocuments | orchestrator.py:129-135 | the loop builds exactly the blank-line-joined parts |
| Orchestrator.CacheOrchestrator.WriteBack | orchestrator.py:89-116 | Layer 1 then Layer 0 after a RAG answer, Layer 0 then Layer 1 otherwise; a Layer 0 failure stops the write-back after what was already written |
| Orchestrator.CacheOrchestrator.Generate | orchestrator.py:82-127 | a generation error changes nothing; otherwise the answer is written back and reported with its layer, document count and provider (`Generated`), and is then set in Layer 0 |
| Orchestrator.CacheOrchestrator.AnswerBelowCaches | orchestrator.py:70-127 | a retrieval error changes nothing; the generator gets the documents' context exactly when documents were retrieved, and no context otherwise (`AnsweredBelowCaches`) |
| Orchestrator.CacheOrchestrator.Promote | orchestrator.py:56-68 | a Layer 1 answer is set in Layer 0 under the query's key and reported as a Layer 1 hit without calling the generator |
| Orchestrator.CacheOrchestrator.Query | orchestrator.py:28-127 | each outcome of the Layer 0 and Layer 1 lookups gives its result and the stores afterwards; below them `AnsweredBelowCaches` holds; every result is well formed (a hit names its layer, the generator is called exactly when a provider is reported, a document count only for RAG answers); an answered non-empty query is afterwards an exact hit |
| Orchestrator.CacheOrchestrator.AskTwice | orchestrator.py:39-51 | asking again after a non-empty answer gives that answer from Layer 0 without calling the generator |
| Orchestrator.CacheOrchestrator.ClearCache | orchestrator.py:145-155 | "0", "1", "2" clear that layer only, None all three, any other value nothing; a Redis failure stops the later layers' clearing |
| Orchestrator.CacheOrchestrator.AddDocument | orchestrator.py:137-139 | exactly Layer 2's `add_document` |
| Orchestrator.CacheOrchestrator.AddDocumentsBatch | orchestrator.py:141-143 | exactly Layer 2's `add_documents_batch` |

## Left out

- Expiry of Redis keys is time-driven inside Redis. The model records each key's expiry but never expires a key.
- Floating-point similarity is not modelled. Cosine similarity is an opaque integer score on a hundredths scale, and the thresholds are 85 and 75.
- The `.2f` formatting of scores is an opaque formatter.
- Token counting (tiktoken) and the splitters' algorithms are not modelled. Chunking is an opaque function of the splitter configuration.
- `health_check` of every layer and of the orchestrator is left out. It only pings the stores.
- All `print` and `debug_print` output is left out. The model keeps the failures of two kinds of eagerly formatted debug line: Layer 2's chunk line, which is modelled (`RagLayer.ChunkLineRaises`), and the `len(response)` lines of the two `set` methods, covered by the `Query` line below. The token counts formatted in Layer 2's debug lines are covered by the `AddDocument` line below.
- RagLayer.RagCache.AddDocument: tiktoken's `encode` refuses text that contains a special token such as `<|endoftext|>`, and the model leaves that refusal out, so its chunking never fails. In the source, `add_document` counts the content's tokens for a debug line (layer2_rag_cache.py:149) and chunks it (:152) before its `try`. The splitter's length function (:64, :71) and the debug loop of `_chunk_text` (:88-90) count tokens too. Such content therefore makes `add_document` raise, where the model stores the document and returns its id.
- RagLayer.RagCache.AddDocumentsBatch: for the same reason, an entry whose content holds a special token makes `add_documents_batch` raise while chunking (layer2_rag_cache.py:219). The model plans that entry normally.
- RagLayer.ChunkContent: with chunking disabled, a list or dict content passes `len` (layer2_rag_cache.py:82) and becomes the entry's only chunk. What follows then depends on the embedding model and the Qdrant client, which are not part of this model. The model raises a TypeError for it, as it does for every other content that is not a string.
- RagLayer.DocumentPoints: every chunk of a call carries the same timestamp `now`. The source reads `time.time()` once per chunk (layer2_rag_cache.py:174, :242), so its timestamps may differ slightly between chunks. `RagLayer.BatchPlan` does the same for a batch.
- `elapsed_time` of the query result is left out, because it is wall-clock time.
- Orchestrator.CacheOrchestrator.Query: a generated reply that is not a string ends the query with the single error `NonTextResponse`, and nothing is written. Python also raises in every such case, but by several routes, and in one of them a write happens first. A number, boolean or None fails `len(response)` in the debug line of the first `set` called (layer0_exact_cache.py:46, or layer1_semantic_cache.py:92 after a RAG answer), and nothing is written. A list or dict passes `len()`, but Redis's `setex` refuses it (layer0_exact_cache.py:47). In the RAG route, Layer 1 has already stored such a reply by then (orchestrator.py:90-91). The model writes nothing. It does not model that Layer 1 write or the distinct Python errors.
- LlmProvider.Sniff: `str()` of a reply renders nested strings between single quotes without Python's escaping of quotes and backslashes.
- JsonValue.Show: the rendering of a float keeps the literal text of the JSON number.
- A JSON object with a repeated key is read with its first binding.
- Qdrant's validation of point ids (unsigned integers or UUIDs) is not modelled. In the real store, the `_chunk_<i>` ids of a multi-chunk document would be refused.
- Collections are reachable or not as a whole: `online` never changes during a run.
- The headers dict passed to a custom API provider is modified in place by adding `Authorization` to it. The model copies it instead, so the caller's dict is not changed.
- The network, the provider SDKs (`ChatOpenAI`, `ChatGoogleGenerativeAI`, `.invoke`) and `requests.post` are one opaque backend function. Its errors are `Remote` errors.
- The LangChain `isinstance(llm, BaseChatModel)` test is a flag of the LangChain instance.
- Concurrency between queries is not modelled. Each call runs alone.
- `main.py` (the HTTP API), the test scripts and `config.py`'s environment loading are not part of this model. Settings are a record with the defaults.
