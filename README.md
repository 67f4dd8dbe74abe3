# Cached retrieval chatbot and dynamic tool catalogue, in Dafny

This project models two parts of the Agent-Factory repository and proves
properties of the model.

**The cached retrieval chatbot** (`CachedRAGChatbot`).
- A question is first looked up in a semantic cache. A hit returns the cached response.
- A miss runs a five-node workflow:
  - `generate_query_or_respond` either answers directly or asks for retrieval;
  - `retrieve` fetches documentation passages;
  - the grade router sends the run to `generate_answer`, to `rewrite_question` (which loops back) or, once the retry budget `max_retries` is spent, to `generate_fallback`.
- The workflow state is the message list plus a `retry_count` that the nodes add to.
- A step ceiling of 50 backs the loop up. A run that exceeds it is turned into a fixed degraded answer.
- `query_stream` reports the same run as a sequence of events.

Module `RagGraph` holds the workflow as pure functions:
- `Step` runs one node;
- `GradeDocuments` is the router;
- `Exec`/`Run` is the runtime loop with its step ceiling.

Module `CachedRagChatbot` holds the chatbot class. Its `RunGraph`, `Query` and `QueryStream` methods are loops proved equal to the spec functions `Run`, `QueryOutcome` and `StreamOf`.

**The tool catalogue** (`ToolManager` over `TOOL_REGISTRY` and `TOOL_CATEGORIES`).
- Module `EcommerceTools` holds:
  - the 70-entry registry, written as five sections;
  - the five category lists;
  - the stubs that echo the length of an input list.
- Module `ToolManager` holds:
  - the schema conversion;
  - the category lookup;
  - the name search;
  - the category and full listings;
  - the text and metadata of the documents put into the vector collection;
  - the unpacking of query results;
  - the collection statistics.

  Each list-building loop of the source is a method proved equal to a spec function. The spec function's own properties are proved as lemmas.

Shared helpers live in three small modules:
- `Wrappers`: `Option` and `Result`.
- `Text`:
  - `str.lower()`;
  - substring test;
  - `str.join`;
  - `str.strip()`.
- `Lists`:
  - ordered dictionaries as pair sequences;
  - `NoDup`/`Disjoint`;
  - `MapResult`, a loop that stops at the first raising call.

External calls are parameters of the model:
- The language-model calls and the retriever are fields of a `Models` value: `respond`, `retrieve`, `grade`, `rewrite`, `answer` and `fallback`.
  - Each is a total function of the step number and of exactly the inputs the source passes.
  - A raised exception is a `Failure(message)`.
- The cache lookup is an `Option<CacheMatch>` parameter.
- The result of loading the document store is a `bool` parameter.
- Whatever the vector collection stores and returns is a parameter:
  - the stored count;
  - the query result rows.

### Behaviour of the code worth knowing
- **Grader call count.** The grade router runs after every retrieval. When `retry_count >= max_retries` it returns `generate_fallback` before calling the grading model. So a run that never gets a "yes" calls the grading model exactly `max_retries` times (`RagGraph.StubbornRun`).
- **Worst-case run length.** A run can execute up to `3 * max_retries + 3` nodes: three per rewrite round, then the entry node, the retrieval and the fallback (`RagGraph.RunSpec`, `RagGraph.StubbornRun`).
- **Effect of the limit of 50.** With the step ceiling of 50, a model that always asks for retrieval and never gets a "yes" reaches the fallback only when `max_retries <= 15`. From 16 on, `query` returns the degraded answer (`CachedRagChatbot.StubbornQuery`).
- **`node_update` contents.** The `node_update` events of `query_stream` carry the messages that node returned, and only those.
- **Stream error text.** The `error` event of `query_stream` carries its own fixed text, which is shorter than the degraded answer of `query`.
- **Name search for "inventory".** `llm_dynamic_tool_calling/test_system.py:167` expects `check_stock` among the results for "inventory". The code matches on the tool name only, so it cannot return `check_stock` for that term (`ToolManager.SearchInventoryMatches`, `ToolManager.SearchInventorySkipsCheckStock`).

## Model

| member | source | states |
|---|---|---|
| EcommerceTools.RegistrySize | llm_dynamic_tool_call/ecommerce_tools.py:628-708 | The registry has exactly 70 entries and no key occurs twice (the "70 tools" of the file header, line 3). |
| EcommerceTools.CategorySizes | llm_dynamic_tool_call/ecommerce_tools.py:711-744 | The categories are inventory_management, customer_operations, order_processing, analytics_reporting, marketing_content in that order, with 15, 15, 15, 13 and 12 tools. |
| EcommerceTools.CategoriesDisjoint | llm_dynamic_tool_call/ecommerce_tools.py:711-744 | No tool is listed in two different categories. |
| EcommerceTools.CategoriesPartitionRegistry | llm_dynamic_tool_call/ecommerce_tools.py:628-744 | A name is a registry key exactly when some category lists it, and then exactly one category lists it. |
| EcommerceTools.CategoryNamesAreRegistryKeys | llm_dynamic_tool_call/ecommerce_tools.py:711-744 | Every name listed in a category has a registry entry, so indexing the registry by it never fails. |
| EcommerceTools.RegistryKeysAreCategoryLists | llm_dynamic_tool_call/ecommerce_tools.py:628-744 | The registry keys, in order, are the five category lists concatenated in category order. |
| EcommerceTools.UpdateInventory | llm_dynamic_tool_call/ecommerce_tools.py:24-26 | The answer has distinct keys, status "success", the given product id and the given quantity as `new_quantity`. |
| EcommerceTools.UpdateInventoryIgnoresOperation | llm_dynamic_tool_call/ecommerce_tools.py:24-26 | The answer is the same whatever the operation. |
| EcommerceTools.BatchUpdateInventory | llm_dynamic_tool_call/ecommerce_tools.py:60-62 | `updated_count` is the number of updates given. |
| EcommerceTools.AddItemsToOrder | llm_dynamic_tool_call/ecommerce_tools.py:190-192 | `items_added` is the number of items given; the total is the fixed 349.99. |
| EcommerceTools.RemoveItemsFromOrder | llm_dynamic_tool_call/ecommerce_tools.py:194-196 | `items_removed` is the number of item ids given; the total is the fixed 249.99. |
| EcommerceTools.CreateProductBundle | llm_dynamic_tool_call/ecommerce_tools.py:296-298 | `products` is the number of product ids given; the bundle id is the fixed "BNDL-33221". |
| EcommerceTools.StubsEchoOnlyLength | llm_dynamic_tool_call/ecommerce_tools.py:60-62 | The four stubs give equal answers for input lists of equal length: only the length is read. The other stubs are at lines 190-196 and 296-298. |
| ToolManager.ConstantTablesWellFormed | llm_dynamic_tool_call/tool_manager.py:166-168 | The two constant tables have distinct registry keys and distinct category names, and every listed name is a registry key. |
| ToolManager.Description | llm_dynamic_tool_call/tool_manager.py:45-47 | The description is the stripped docstring when there is a non-empty one, and "Execute " followed by the tool name otherwise. |
| ToolManager.SchemaOfEntry | llm_dynamic_tool_call/tool_manager.py:43-66 | A schema has type "function", the tool's name, its description, parameters of type "object", and the model's properties and required list, each empty when the model has none. |
| ToolManager.ConvertToOpenAISchema | llm_dynamic_tool_call/tool_manager.py:32-66 | Conversion fails with an unknown-tool error exactly when the name is not a registry key, and otherwise gives the schema of the registry entry. |
| ToolManager.ConvertIgnoresModel | llm_dynamic_tool_call/tool_manager.py:32-43 | The `pydantic_model` argument has no effect on the result. |
| ToolManager.ConvertAt | llm_dynamic_tool_call/tool_manager.py:32-66 | With distinct keys, converting the name at position i gives the schema of entry i. |
| ToolManager.CategoryIn | llm_dynamic_tool_call/tool_manager.py:68-73 | No category is found exactly when no category lists the name; a found category is the first, in table order, that lists it. |
| ToolManager.CategoryOf | llm_dynamic_tool_call/tool_manager.py:68-73 | Reference definition of `get_tool_category`: the first category listing the name, otherwise "uncategorized"; stated by CategoryIn and CategoryOfRegistryKey, and met by the method GetToolCategory. |
| ToolManager.CategoryOfRegistryKey | llm_dynamic_tool_call/tool_manager.py:68-73 | For the constant tables, a registry key gets the one category that lists it, and a name gets "uncategorized" exactly when it is not a registry key. |
| ToolManager.ToolManager.GetToolCategory | llm_dynamic_tool_call/tool_manager.py:68-73 | The loop with its early return gives the first listing category, or "uncategorized". |
| ToolManager.LookupSchema | llm_dynamic_tool_call/tool_manager.py:166-168 | Indexing the registry fails exactly for a name that is not a key, and otherwise gives the schema of its entry. |
| ToolManager.Collect | llm_dynamic_tool_call/tool_manager.py:164-171 | Reference definition of the loop that converts each listed name's registry entry; stated by CollectSpec, CollectStep and CollectKeys. |
| ToolManager.CollectSpec | llm_dynamic_tool_call/tool_manager.py:159-171 | Converting a list of names succeeds exactly when every name is a key; it then gives the schema of each name in order, and otherwise fails on the first missing name. |
| ToolManager.CollectStep | llm_dynamic_tool_call/tool_manager.py:164-171 | One more iteration appends the next name's schema, or fails for the whole list. |
| ToolManager.ToolsByCategory | llm_dynamic_tool_call/tool_manager.py:149-171 | An unknown category fails with an error that names the available categories, and only an unknown category does. Any other failure is an unknown-tool error for a listed name that is not a registry key. |
| ToolManager.ToolsByCategoryListed | llm_dynamic_tool_call/tool_manager.py:149-171 | For well-formed tables, a listed category gives one schema per listed name, in list order, named after it. |
| ToolManager.ToolsByCategoryCounts | llm_dynamic_tool_call/tool_manager.py:149-171 | For the constant tables, every category succeeds and gives as many schemas as it lists. |
| ToolManager.ToolManager.GetToolsByCategory | llm_dynamic_tool_call/tool_manager.py:149-171 | The accumulating loop gives exactly `ToolsByCategory`. |
| ToolManager.AllTools | llm_dynamic_tool_call/tool_manager.py:173-185 | One schema per registry entry, in registry order, each named after its key and, with distinct keys, the schema of that entry. |
| ToolManager.CollectKeys | llm_dynamic_tool_call/tool_manager.py:173-185 | Converting every registry key succeeds, with one schema per entry named after its key; with distinct keys each is the schema of that entry. |
| ToolManager.ToolManager.GetAllTools | llm_dynamic_tool_call/tool_manager.py:173-185 | The accumulating loop gives exactly `AllTools`. |
| ToolManager.Matching | llm_dynamic_tool_call/tool_manager.py:196-201 | The kept names are exactly the names whose lower-cased form contains the lower-cased term, in their original order. |
| ToolManager.SearchByName | llm_dynamic_tool_call/tool_manager.py:187-203 | One schema per matching registry name, in registry order, never more than the registry holds. |
| ToolManager.SearchByNameMembership | llm_dynamic_tool_call/tool_manager.py:187-203 | A tool is among the results exactly when it is a registry key whose name matches the term. |
| ToolManager.SearchInventoryMatches | llm_dynamic_tool_calling/test_system.py:163-167 | "update_inventory" matches the term "inventory". |
| ToolManager.SearchInventorySkipsCheckStock | llm_dynamic_tool_calling/test_system.py:163-167 | "check_stock" does not match the term "inventory", although the test expects it among the results. |
| ToolManager.ToolManager.SearchToolsByName | llm_dynamic_tool_call/tool_manager.py:187-203 | The accumulating loop gives exactly `SearchByName`. |
| ToolManager.ParamDescription | llm_dynamic_tool_call/tool_manager.py:96 | The entry for one parameter is its name and ": ", followed by its description. A parameter without a description gives exactly the name and ": ". |
| ToolManager.ParamDescriptions | llm_dynamic_tool_call/tool_manager.py:93-97 | One entry per parameter, in order, each starting with the parameter's name and ": ". |
| ToolManager.ToolManager.BuildParamDescriptions | llm_dynamic_tool_call/tool_manager.py:93-97 | The accumulating loop gives exactly `ParamDescriptions`. |
| ToolManager.SearchableText | llm_dynamic_tool_call/tool_manager.py:99 | The text starts with the name, ". ", the description and ". Parameters: ". The rest is the parameter descriptions joined by ", ". Its length is fixed by the name, the description and the parameter descriptions. |
| ToolManager.SearchableTextWithParam | llm_dynamic_tool_call/tool_manager.py:93-99 | One more parameter appends its own description to the text, after ", " unless it is the first parameter. |
| ToolManager.MetadataOf | llm_dynamic_tool_call/tool_manager.py:85-110 | Reference definition of the metadata stored for a tool: its name, `get_tool_category`, its description and its schema; met by BuildDocument and AddToolsToChromadb. |
| ToolManager.ToolManager.BuildDocument | llm_dynamic_tool_call/tool_manager.py:85-110 | One iteration of the loop of `add_tools_to_chromadb`: the text is exactly SearchableText of the tool's schema and the metadata is exactly MetadataOf it. |
| ToolManager.ToolManager.AddToolsToChromadb | llm_dynamic_tool_call/tool_manager.py:75-120 | The ids are the registry keys in order. Document i is the searchable text of tool i's schema, and metadata i is its name, category, description and schema. The count returned is the registry size. |
| ToolManager.RelevantTools | llm_dynamic_tool_call/tool_manager.py:142-147 | No ids give the empty list; ids without a metadata row fail; otherwise the result holds the stored schemas of the first row, in order. |
| ToolManager.ToolManager.RetrieveRelevantTools | llm_dynamic_tool_call/tool_manager.py:122-147 | The unpacking loop gives exactly `RelevantTools`. |
| ToolManager.CategoryCounts | llm_dynamic_tool_call/tool_manager.py:210-212 | The same category names in the same order, each with the length of its list. |
| ToolManager.CategoryCountsTotal | llm_dynamic_tool_call/tool_manager.py:205-218 | For the constant tables the category counts add up to the registry size, 70. |
| ToolManager.ToolManager.GetCollectionStats | llm_dynamic_tool_call/tool_manager.py:205-218 | The statistics carry the stored count, the collection name, and each category with the length of its list. |
| ToolManager.ToolManager.constructor | llm_dynamic_tool_call/tool_manager.py:16-30 | A manager holds its collection name and the two constant tables. |
| RagGraph.Apply | semantic_caching/RAG_chatbot_with_semantic_caching/cached_rag_chatbot_chroma.py:26-28 | Reference definition of the `ExtendedState` reducers: messages are appended and `retry_count` is added; stated by StepKeeps and ExecSpec (the final state holds the question followed by every node's messages, and its retry count is the number of rewrite rounds). |
| RagGraph.Initial | semantic_caching/RAG_chatbot_with_semantic_caching/cached_rag_chatbot_chroma.py:329-331 | Reference definition of the input state: the question as the only user message and a retry count of 0; stated by RunSpec and DirectAnswer. |
| RagGraph.Edge | semantic_caching/RAG_chatbot_with_semantic_caching/cached_rag_chatbot_chroma.py:249-271 | Reference definition of the wiring: START leads to generate_query_or_respond, which leads to retrieve or END; retrieve leads to generate_answer, rewrite_question or generate_fallback; rewrite_question leads back to generate_query_or_respond; the two answer nodes lead to END. Stated by StepKeeps and RunSpec (every run follows these edges). |
| RagGraph.ToolsCondition | semantic_caching/RAG_chatbot_with_semantic_caching/cached_rag_chatbot_chroma.py:251-258 | After `generate_query_or_respond` the run goes to `retrieve` exactly when the message is a model message with tool calls, and ends otherwise. |
| RagGraph.RetrieveDocuments | semantic_caching/RAG_chatbot_with_semantic_caching/cached_rag_chatbot_chroma.py:107-111 | The passages are joined with a blank line between each two: the length is the passages' lengths plus two per gap, and a single passage is returned as is. |
| RagGraph.RetrieveResults | semantic_caching/RAG_chatbot_with_semantic_caching/cached_rag_chatbot_chroma.py:107-113 | The retrieval node answers every tool call, in order, with one tool message holding the retrieved text for that call's query. |
| RagGraph.GradeDocuments | semantic_caching/RAG_chatbot_with_semantic_caching/cached_rag_chatbot_chroma.py:140-167 | The router gives the fallback exactly when `retry_count >= max_retries`. Otherwise it gives the answer exactly when the grading model (asked about `messages[0]` and `messages[-1]`) scores "yes", the rewrite exactly when it scores anything else, and it fails exactly when the grading model raises. |
| RagGraph.GradeSkipsGraderAtLimit | semantic_caching/RAG_chatbot_with_semantic_caching/cached_rag_chatbot_chroma.py:149-152 | Once the budget is spent, the grading model's behaviour has no effect: the fallback is chosen. |
| RagGraph.GradeReadsFirstAndLast | semantic_caching/RAG_chatbot_with_semantic_caching/cached_rag_chatbot_chroma.py:144-145 | The router reads only the retry counter, the first message and the last message. |
| RagGraph.StubbornGrades | semantic_caching/RAG_chatbot_with_semantic_caching/cached_rag_chatbot_chroma.py:140-167 | At the retrieval node, a model whose grades never say "yes" and never raise leads to the rewrite, with a grader call, while the budget lasts, and to the fallback, with no grader call, once it is spent. |
| RagGraph.Step | semantic_caching/RAG_chatbot_with_semantic_caching/cached_rag_chatbot_chroma.py:116-271 | A node's update is tagged with the node and only `rewrite_question` adds 1 to the counter. Every other node returns one message. `generate_query_or_respond` returns a model message and leads to `retrieve` exactly when it made tool calls. `rewrite_question` returns a user message. `retrieve` returns one tool message per call and is graded exactly when it does not fall back. The fallback node fails exactly when its model raises. Every successor is one the edges allow. |
| RagGraph.NodeReplies | semantic_caching/RAG_chatbot_with_semantic_caching/cached_rag_chatbot_chroma.py:116-237 | `generate_query_or_respond` returns the model's response to the whole conversation, with its tool calls. `rewrite_question` returns the rewrite of the first message as a user message. `generate_answer` returns the answer for the first message and the last message. `generate_fallback` returns the answer for the first message. Each of these nodes fails exactly when its model call raises, with that call's message. |
| RagGraph.NodeReadsFirstAndLast | semantic_caching/RAG_chatbot_with_semantic_caching/cached_rag_chatbot_chroma.py:179-237 | The rewrite and the fallback depend only on the first message, and the answer only on the first and the last. The retry counter and the messages in between do not change their result. |
| RagGraph.ErrorMessage | semantic_caching/RAG_chatbot_with_semantic_caching/cached_rag_chatbot_chroma.py:351-354 | The recursion fault's text starts with "Recursion"; a node error's text is its own message. |
| RagGraph.StepKeeps | semantic_caching/RAG_chatbot_with_semantic_caching/cached_rag_chatbot_chroma.py:249-271 | A node execution with a successor keeps the run invariant. The invariant: the question first, then exactly the messages the nodes added; the counter equal to the rewrites and within the budget; the edges followed; at most three nodes per rewrite; one grader call per rewrite. The state schema is at lines 26-28. |
| RagGraph.StepEnds | semantic_caching/RAG_chatbot_with_semantic_caching/cached_rag_chatbot_chroma.py:249-271 | A node execution that leads to END closes a finished run. The question is first and the messages are the nodes' own. The counter is equal to the rewrites and within the budget. The edges are followed and the last node returned one message. There are at most `3 * rewrites + 3` nodes, and one grader call per rewrite and per answer. The state schema is at lines 26-28. |
| RagGraph.ExecMovesOn | semantic_caching/RAG_chatbot_with_semantic_caching/cached_rag_chatbot_chroma.py:249-271 | A node with a successor, run from a reachable point, leads to a reachable point one node later, and the run continues from there with the same result. |
| RagGraph.ExecRaisesWell | semantic_caching/RAG_chatbot_with_semantic_caching/cached_rag_chatbot_chroma.py:325-331 | A run that stops at the limit or on a failing node raises after following the edges. It raises the recursion fault only after exactly `limit` nodes. The error texts are at lines 351-354. |
| RagGraph.ExecSpec | semantic_caching/RAG_chatbot_with_semantic_caching/cached_rag_chatbot_chroma.py:249-271 | Every run from a reachable point either finishes with the invariant and a last node that leads to END, or raises after following the edges, and raises the recursion fault only after exactly `limit` nodes. The state schema is at lines 26-28 and the run at lines 325-331. |
| RagGraph.Exec | semantic_caching/RAG_chatbot_with_semantic_caching/cached_rag_chatbot_chroma.py:325-331 | Reference definition of the runtime from one node on: a node runs only while fewer than the recursion limit have run, a node that raises ends the run, END finishes it; stated by ExecSpec, ExecMovesOn and ExecRaisesWell. |
| RagGraph.Run | semantic_caching/RAG_chatbot_with_semantic_caching/cached_rag_chatbot_chroma.py:325-331 | Reference definition of `graph.stream` from the initial state; stated by RunSpec, RunWithinLimit, StubbornRun and DirectAnswer. |
| RagGraph.RunSpec | semantic_caching/RAG_chatbot_with_semantic_caching/cached_rag_chatbot_chroma.py:249-271 | A run keeps the question as message 0 and makes at most `max_retries` rewrites, with `retry_count` equal to the number of rewrites. A finished run has at most `3 * max_retries + 3` nodes and one grader call per rewrite and per answer. The state schema is at lines 26-28 and the run at lines 325-331. |
| RagGraph.RunWithinLimit | semantic_caching/RAG_chatbot_with_semantic_caching/cached_rag_chatbot_chroma.py:325-331 | A limit of at least `3 * max_retries + 3` never trips the recursion fault. The graph is compiled at lines 273-277. |
| RagGraph.StubbornRun | semantic_caching/RAG_chatbot_with_semantic_caching/cached_rag_chatbot_chroma.py:260-271 | When the model always asks for retrieval and the grading model never says "yes", a large enough limit gives the fallback after exactly `max_retries` rewrites, `max_retries` grader calls and `3 * max_retries + 3` nodes, with `retry_count == max_retries`; a smaller limit gives the recursion fault after `limit` nodes. The grade router is at lines 149-152 and the counter update at lines 194-197. |
| RagGraph.DirectAnswer | semantic_caching/RAG_chatbot_with_semantic_caching/cached_rag_chatbot_chroma.py:116-123 | A direct answer ends the run after one node, with that answer as the last message. The route after it is at lines 251-258. |
| CachedRagChatbot.IsRecursionError | semantic_caching/RAG_chatbot_with_semantic_caching/cached_rag_chatbot_chroma.py:351-353 | Reference definition of the `"recursion" in str(e).lower()` test; stated by RecursionFaultRecognised (the runtime's limit fault passes it) and used by QueryCacheMiss and RunEventsAgree. |
| CachedRagChatbot.RecursionFaultRecognised | semantic_caching/RAG_chatbot_with_semantic_caching/cached_rag_chatbot_chroma.py:351-354 | The runtime's recursion fault mentions "recursion" once lower-cased, so it is converted rather than re-raised. |
| CachedRagChatbot.NodeUpdates | semantic_caching/RAG_chatbot_with_semantic_caching/cached_rag_chatbot_chroma.py:409-415 | One `node_update` event per executed node, in order, carrying that node's name and messages. |
| CachedRagChatbot.RunAnswer | semantic_caching/RAG_chatbot_with_semantic_caching/cached_rag_chatbot_chroma.py:279-361 | Reference definition of what `query` returns or raises after the graph ran on a cache miss; stated by QueryCacheMiss and RunEventsAgree. |
| CachedRagChatbot.QueryOutcome | semantic_caching/RAG_chatbot_with_semantic_caching/cached_rag_chatbot_chroma.py:279-361 | Reference definition of `query`; stated by QueryCacheHit, QueryCacheMiss, StubbornQuery and QueryStreamAgrees, and met by the method Query. |
| CachedRagChatbot.RunEvents | semantic_caching/RAG_chatbot_with_semantic_caching/cached_rag_chatbot_chroma.py:373-433 | Reference definition of what `query_stream` yields and raises after the graph ran on a cache miss; stated by RunEventsAgree. |
| CachedRagChatbot.StreamOf | semantic_caching/RAG_chatbot_with_semantic_caching/cached_rag_chatbot_chroma.py:373-433 | Reference definition of `query_stream`; stated by QueryStreamAgrees, and met by the method QueryStream. |
| CachedRagChatbot.QueryCacheHit | semantic_caching/RAG_chatbot_with_semantic_caching/cached_rag_chatbot_chroma.py:295-322 | A cache hit answers with the cached response and its question, distance and similarity, whatever the graph, the budget and the models. A miss without a graph raises the not-initialised error. |
| CachedRagChatbot.QueryCacheMiss | semantic_caching/RAG_chatbot_with_semantic_caching/cached_rag_chatbot_chroma.py:321-361 | A cache miss carries no cache information. A finished run answers with the last node's message, and that node is the direct answer, the generated answer or the fallback. Any raised exception whose message mentions "recursion" gives the degraded answer. That covers the recursion fault and a node's own exception with such a message. Any other exception is re-raised with its own message, so a re-raised message never mentions recursion. |
| CachedRagChatbot.QueryStreamAgrees | semantic_caching/RAG_chatbot_with_semantic_caching/cached_rag_chatbot_chroma.py:279-433 | The stream raises exactly when `query` raises, with the same error; without a graph that comes after the one `cache_miss` event, with the "Graph not initialized" message. A hit yields exactly the one `cache_hit` event with `query`'s answer. A miss opens with `cache_miss` and continues with one `node_update` per executed node. A finished run ends with `complete` carrying `query`'s answer. A raised run that `query` answers ends with the `error` event, and `query`'s answer is the degraded one. So when `query` answers, the last event is `error` exactly when the run raised, and there are two events besides the node updates; when it raises there is one. |
| CachedRagChatbot.RunEventsAgree | semantic_caching/RAG_chatbot_with_semantic_caching/cached_rag_chatbot_chroma.py:279-433 | For any graph run on a cache miss, the stream raises exactly when `query` raises, with the same error. It yields `cache_miss`, then one `node_update` per executed node. It then yields `complete` with `query`'s answer when the run finished, or the `error` event when the run raised and `query` gives the degraded answer. |
| CachedRagChatbot.StubbornQuery | semantic_caching/RAG_chatbot_with_semantic_caching/cached_rag_chatbot_chroma.py:327-361 | With the limit of 50 and a model that always retrieves and never gets a "yes", `query` returns the fallback after `max_retries` rewrites when `max_retries <= 15`, and the degraded answer when `max_retries >= 16`. The grade router is at lines 149-152 and the edges at lines 260-271. |
| CachedRagChatbot.CachedRAGChatbot.constructor | semantic_caching/RAG_chatbot_with_semantic_caching/cached_rag_chatbot_chroma.py:34-66 | A new chatbot keeps the given `max_retries`, has no graph and an empty cache. |
| CachedRagChatbot.CachedRAGChatbot.LoadExistingVectorstore | semantic_caching/RAG_chatbot_with_semantic_caching/cached_rag_chatbot_chroma.py:68-78 | The graph is set exactly when loading succeeds (and stays set if it was), nothing else changes, and the result is the loading outcome. |
| CachedRagChatbot.CachedRAGChatbot.AddToCache | semantic_caching/RAG_chatbot_with_semantic_caching/cached_rag_chatbot_chroma.py:363-371 | The question/answer pair is appended to the cache and nothing else changes. |
| CachedRagChatbot.CachedRAGChatbot.RunGraph | semantic_caching/RAG_chatbot_with_semantic_caching/cached_rag_chatbot_chroma.py:325-349 | The step loop with its counter and the limit of 50 computes exactly `Run`. |
| CachedRagChatbot.CachedRAGChatbot.Query | semantic_caching/RAG_chatbot_with_semantic_caching/cached_rag_chatbot_chroma.py:279-361 | The loop over the stream chunks, keeping the last, gives exactly `QueryOutcome`. |
| CachedRagChatbot.CachedRAGChatbot.QueryStream | semantic_caching/RAG_chatbot_with_semantic_caching/cached_rag_chatbot_chroma.py:373-433 | The yielding loop produces exactly the events of `StreamOf` and then raises what it raises. |

## Left out
- The semantic cache's nearest-neighbour search, its distance threshold and its stored embeddings are not visible code. A lookup is a parameter, so the model does not relate the pairs given to `add_to_cache` to later hits.
- `load_existing_vectorstore` only has its outcome modelled. The document store's loading is not visible code, so whether it succeeds is a parameter, and the retriever tool's construction is not modelled.
- The language-model calls (`init_chat_model`, `bind_tools`, `with_structured_output`, `invoke`) are oracle functions. The prompt wording is not modelled.
- The workflow runtime's own bookkeeping is approximated:
  - Its step counter is modelled as "a node runs while fewer than `limit` nodes have run".
  - The exact point at which the real runtime trips may differ by one.
  - The retrieval node is total; the runtime's handling of a failing tool is not modelled.
- The ChromaDB client is not modelled. This covers `PersistentClient`, `collection.add`, `collection.query`, `collection.count`, `delete_collection`/`reset_collection`, `initialize_tool_database` and `demo_tool_retrieval`. These are persistence and I/O; the stored count and query rows are parameters.
- The `n_results` bound of the vector query and the retriever's `k = 4` are not modelled. They belong to the storage back ends.
- Pydantic's `model_json_schema` is not modelled: each tool's properties and required list are given data. `json.dumps`/`json.loads` of a schema are the identity.
- The cache's CSV loading and saving (`load_cache_pairs`, `load_cache_from_file`, `save_cache_to_file`) and `get_vectorstore_stats` are not modelled. They are file I/O and a foreign call.
- No print or verbose output is modelled.
- `str.lower()` and `str.strip()` are modelled for ASCII letters and white space only.
- Distances and similarities are `real`, not floating point.
- `EcommerceTools`: the bodies of the 65 other stub tools are not modelled. Each returns a literal dictionary that echoes some of its arguments and computes nothing, and nothing in the catalogue calls them. The registry holds each tool's docstring and parameter model, not the callable.
- `ToolManager.ToolsByCategory`: for arbitrary tables, a failure other than an unknown category is stated only to be an unknown tool that is listed and missing from the registry, not the first such tool. For the constant tables no such failure occurs (`ToolManager.ToolsByCategoryCounts`).
