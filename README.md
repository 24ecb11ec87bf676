# AI tutor back end and page-image search: a Dafny model

This project models the parts of the AI tutor service that the repository itself computes, as
opposed to the parts it delegates to its libraries. It covers two applications.

The page-image search (`upload-ready/`):

- an in-memory vector store with two parallel lists, one of embeddings and one of metadata;
- a search engine that encodes a text query and attaches the stored metadata to each hit.

The tutor back end (`teachers/` and `api.py`):

- the retriever tools, which turn the documents a FAISS retriever returned into one answer
  string;
- lite mode, which asks four retriever tools in a fixed order, builds a system prompt from the
  useful answers, and streams the LLM's answer through a token queue;
- the streaming callback handler `CustomTokenHandler`, which `stream_handler.py` defines; no code on the modelled request path registers it;
- the request handler, which checks a request, routes it to lite or pro mode, and publishes
  the answer on a Redis channel as a sequence of messages;
- the confidence gate of the `/qa` endpoint.

Modules follow the source files:

| module | models |
|---|---|
| `VectorStore` | `upload-ready/src/storage/vector_store.py` |
| `SearchEngine` | `upload-ready/src/search_engine.py` |
| `Similar`, `Fourth`, `Checker`, `Toolers` | the four retriever modules |
| `Formatting` | the block format those modules share |
| `LiteHarness` | `teachers/src/teachers/lite_harness.py` |
| `StreamHandler` | `teachers/src/teachers/stream_handler.py` |
| `RequestHandler` | `teachers/src/teachers/request_handler.py` |
| `Api` | `api.py` |

Four modules hold shared pieces:

- `Values`: Python values as they arrive in JSON, with `str()`, truthiness and `dict.get`.
- `Text`: `sep.join`, `str.strip`, `str.lower` and the substring test.
- `TokenQueue`: `queue.Queue`, where `None` is the end marker.
- `Broker`: the `publish` call of the Redis service.

The parts the model does not compute become parameters:

- the cosine quotient;
- the encoders;
- the documents a retriever returns;
- the tools;
- the LLM;
- the crew;
- the configuration file's contents.

Stateful code becomes classes:

- the store, with `seq` fields;
- the engine;
- the queue;
- the broker;
- the two callback handlers.

Their methods are proved against specification functions. The properties that relate several
calls are lemmas about those functions.

## Model

| member | source | states |
|---|---|---|
| VectorStore.FlattenAt | upload-ready/src/storage/vector_store.py:10-11 | flattening is row-major: element c of row r lands at the row's start plus c |
| VectorStore.FlattenRow | upload-ready/src/storage/vector_store.py:26 | a one-dimensional query flattens to itself |
| VectorStore.Flatten | upload-ready/src/storage/vector_store.py:11 | numpy's `flatten()`: the rows one after the other; FlattenAt and FlattenRow state its properties |
| VectorStore.NonZero | upload-ready/src/storage/vector_store.py:34 | a positive norm, that is some component not 0 |
| VectorStore.Scored | upload-ready/src/storage/vector_store.py:28-39 | one `(i, sim)` per stored vector, in append order; RankingFacts states its properties |
| VectorStore.Precedes | upload-ready/src/storage/vector_store.py:42 | the order the stable reverse sort yields: a higher score first, and on equal scores the lower ID first |
| VectorStore.Ranked | upload-ready/src/storage/vector_store.py:42 | each hit precedes the next; SortRanked and RankingIsUnique state that the sort yields exactly this order |
| VectorStore.Score | upload-ready/src/storage/vector_store.py:31-37 | the cosine when both norms are positive, exactly 0 otherwise; Store.Search states what it gives the hits |
| VectorStore.Insert | upload-ready/src/storage/vector_store.py:42 | one step of the stable descending sort; InsertPermutes and InsertRanked state its properties |
| VectorStore.SortDescending | upload-ready/src/storage/vector_store.py:42 | the stable descending sort; SortPermutes, SortRanked and RankingIsUnique state its properties |
| VectorStore.Store.Ranking | upload-ready/src/storage/vector_store.py:28-42 | every record scored against the query and sorted; RankingFacts states its properties |
| VectorStore.Store.Hits | upload-ready/src/storage/vector_store.py:20-43 | the first `top_k` of the ranking, Python's slice; Store.Search is proved to return it |
| VectorStore.InsertPermutes | upload-ready/src/storage/vector_store.py:42 | inserting one hit adds exactly that hit to the multiset |
| VectorStore.SortPermutes | upload-ready/src/storage/vector_store.py:42 | sorting is a permutation of the scored list |
| VectorStore.InsertRanked | upload-ready/src/storage/vector_store.py:42 | inserting a hit whose ID is below every other ID into a ranked list keeps it ranked |
| VectorStore.SortRanked | upload-ready/src/storage/vector_store.py:42 | sorting a list with increasing IDs gives scores that never increase, with equal scores in ascending ID order, which is the stable `sort(reverse=True)` order |
| VectorStore.RankingIsUnique | upload-ready/src/storage/vector_store.py:42 | two ranked permutations of the same hits are equal, so the stable order is fully determined |
| VectorStore.RankingFacts | upload-ready/src/storage/vector_store.py:28-42 | the sorted list has one hit per record, each with its own score, in ranked order, and no record is missing |
| VectorStore.TakePrefix | upload-ready/src/storage/vector_store.py:43 | Python's `[:k]`: min(k, n) elements for k >= 0, n+k (at least 0) for negative k, always a prefix |
| VectorStore.Store.constructor | upload-ready/src/storage/vector_store.py:4-6 | a new store has two empty lists |
| VectorStore.Store.Add | upload-ready/src/storage/vector_store.py:8-14 | both lists grow by exactly one at the end, earlier entries unchanged, lengths stay equal; the result is the old count |
| VectorStore.Store.AddDocument | upload-ready/src/storage/vector_store.py:16-18 | same effect and result as Add |
| VectorStore.Store.Search | upload-ready/src/storage/vector_store.py:20-43 | the result is the top-k prefix of the ranking: empty for an empty store; min(top_k, n) hits for top_k >= 0; ranked; distinct IDs below n, each with its record's score; score exactly 0 when the query or the record has zero norm; every record left out is preceded by every hit; the store is not modified |
| SearchEngine.Engine.constructor | upload-ready/src/search_engine.py:6-8 | a new engine has a fresh, empty store |
| SearchEngine.Engine.IndexImage | upload-ready/src/search_engine.py:10-14 | appends the encoded image and the metadata to the store and returns the store's previous size |
| SearchEngine.Engine.Search | upload-ready/src/search_engine.py:16-31 | one result per store hit, in the store's order, carrying the hit's ID and score and `store.metadata[doc_id]`; at most top_k results; scores never increase and IDs are distinct; the store is not modified |
| Formatting.Blocks | teachers/src/teachers/similar.py:41-44 | one block per document, in retriever order |
| Formatting.JoinPath | teachers/src/teachers/similar.py:9 | `os.path.join` of a base directory and a name, with one separator between them |
| Formatting.IndexDirMissing | teachers/src/teachers/similar.py:11-12 | the `FAISS directory not found: {dir}` message; Similar.Serve and Fourth.Serve state when it is raised |
| Formatting.Label | teachers/src/teachers/similar.py:42 | `str` of the metadata value, or the default when the key is absent |
| Formatting.Header | teachers/src/teachers/similar.py:42 | the source and page labels in brackets, then a newline; HeaderDefaults states its cases |
| Formatting.Block | teachers/src/teachers/similar.py:42 | the header followed by the page content |
| Formatting.FormatDocuments | teachers/src/teachers/similar.py:38-44 | the sentinel for no documents, else the `\n\n` join of the blocks; SentinelIffNoDocuments, BlockAt and FormatSnoc state its properties |
| Formatting.HeaderDefaults | teachers/src/teachers/similar.py:42 | a block header shows `str` of the present source and page, `unknown` for a missing source and `NA` for a missing page |
| Formatting.SentinelIffNoDocuments | teachers/src/teachers/similar.py:38-39 | the answer is `No relevant information found.` exactly when no document came back |
| Formatting.BlockAt | teachers/src/teachers/similar.py:41-44 | document i's header and content sit at its block offset; a blank line follows every block but the last, and the last block ends the answer |
| Formatting.FormatSnoc | teachers/src/teachers/similar.py:41-44 | one more document appends a blank line and its block |
| Similar.RetrieverToolTwo | teachers/src/teachers/similar.py:24-44 | for at most 15 documents: the sentinel exactly when there are none, otherwise the `\n\n` join of the blocks |
| Similar.Serve | teachers/src/teachers/similar.py:9-12 | a missing `finalfirstret` directory is a startup failure with the `FAISS directory not found` message, and no query is answered; otherwise the tool answers |
| Fourth.RetrieverToolFour | teachers/src/teachers/fourth.py:24-42 | the same formatting as the first-year tool, for at most 15 documents |
| Fourth.Serve | teachers/src/teachers/fourth.py:9-12 | a missing `finalfourret` directory is a startup failure with its message |
| Checker.Query | teachers/src/teachers/checker.py:26-40 | the sentinel exactly when no document came back, otherwise the `\n\n` join of the blocks, for at most 15 documents |
| Toolers.Contents | teachers/src/teachers/toolers.py:52 | the chunk texts, one per document, in order |
| Toolers.TextFile | teachers/src/teachers/toolers.py:12 | the text file beside the module, `output1 (2).txt`; Toolers.Callers states what a missing one gives |
| Toolers.Callers | teachers/src/teachers/toolers.py:20-52 | a missing file gives `File not found: ` and the path; no chunks give `No relevant information found in the documents.`; otherwise the chunk texts joined by `\n\n` without headers, for at most 6 chunks |
| Toolers.ChunkAt | teachers/src/teachers/toolers.py:52 | chunk i is at its offset, a blank line follows every chunk but the last, and the last chunk ends the answer |
| Text.JoinSnoc | teachers/src/teachers/similar.py:41 | `sep.join` of one more part appends the separator and the part |
| Text.Join | teachers/src/teachers/similar.py:41 | `sep.join(parts)`; JoinSnoc and JoinAt state its properties |
| Text.Strip | teachers/src/teachers/lite_harness.py:70 | `str.strip()`; StripIsTrimmedInfix states its properties |
| Text.IsSpace | teachers/src/teachers/lite_harness.py:70 | the characters `str.isspace` accepts |
| Text.TrimStart | teachers/src/teachers/lite_harness.py:70 | the left half of `strip()`; TrimStartIsSuffix states its properties |
| Text.TrimEnd | teachers/src/teachers/lite_harness.py:70 | the right half of `strip()`; TrimEndIsPrefix states its properties |
| Text.Contains | api.py:12 | the `in` test, searched from the left; ContainsIff states its meaning |
| Text.OccursAt | api.py:12 | the needle sits in the string at position i; ContainsIff ties the `in` test to it |
| Text.OffsetNext | teachers/src/teachers/similar.py:41 | consecutive parts start one part and one separator apart |
| Text.JoinAt | teachers/src/teachers/similar.py:41 | each part appears unchanged at its offset, the separator follows every part but the last, and the last part ends the string |
| Text.TrimStartIsSuffix | teachers/src/teachers/lite_harness.py:70 | stripping the left removes only leading white space and leaves none |
| Text.TrimEndIsPrefix | teachers/src/teachers/lite_harness.py:70 | stripping the right removes only trailing white space and leaves none |
| Text.StripIsTrimmedInfix | teachers/src/teachers/lite_harness.py:70 | `strip()` is an infix with only white space outside it and no white space at either end |
| Text.Lower | teachers/src/teachers/request_handler.py:44 | same length, each ASCII capital lowered, other characters kept |
| Text.ContainsIff | api.py:12 | the `in` test succeeds exactly when the needle occurs at some position |
| Values.NatToString | teachers/src/teachers/request_handler.py:41 | `str` of a natural number is a non-empty string of decimal digits that denotes the number, with no leading zero |
| Values.DigitsValue | teachers/src/teachers/request_handler.py:41 | the number a digit string denotes, by Horner's rule; the reference `NatToString` is proved against |
| Values.DefaultYearText | teachers/src/teachers/request_handler.py:20-41 | `str(2026)` is `2026` |
| Values.ToStr | teachers/src/teachers/request_handler.py:41 | Python's `str`: a string unchanged, an integer in decimal with `-` when negative, `True`/`False`, `None` |
| Values.Truthy | teachers/src/teachers/request_handler.py:22 | Python's truth value: empty string, 0, `False` and `None` are false |
| Values.Get | teachers/src/teachers/request_handler.py:17-20 | `dict.get`: the value, or `None` when the key is absent |
| Values.GetOr | teachers/src/teachers/request_handler.py:19-20 | `dict.get(key, default)`: the value, or the default when the key is absent |
| Values.TypeName | teachers/src/teachers/request_handler.py:35-44 | the type name CPython puts in its error texts: `str`, `int`, `bool` or `NoneType` |
| TokenQueue.Stream | teachers/src/teachers/request_handler.py:82-95 | the texts a consumer reads before the first `None`, never more than there are items |
| TokenQueue.FirstSentinel | teachers/src/teachers/request_handler.py:85 | the position of the first `None`: it holds `None` and no earlier item does |
| TokenQueue.StreamStep | teachers/src/teachers/request_handler.py:83-95 | one `get`: `None` ends what is read, a token is read and reading goes on, and a `None` still lies ahead after a token |
| TokenQueue.StreamOfTokens | teachers/src/teachers/request_handler.py:82-104 | tokens followed by `None` are read exactly, and nothing after the `None` is read |
| TokenQueue.Tokens | teachers/src/teachers/lite_harness.py:15-16 | one item per text, in order |
| TokenQueue.TokensSnoc | teachers/src/teachers/lite_harness.py:15-16 | one more streamed token adds exactly its item at the back |
| TokenQueue.Queue.constructor | teachers/src/teachers/request_handler.py:74 | a new queue is empty |
| TokenQueue.Queue.Put | teachers/src/teachers/lite_harness.py:16 | `put` appends the item at the back |
| TokenQueue.Queue.Get | teachers/src/teachers/request_handler.py:83 | `get` removes and returns the oldest item |
| Broker.Broker.constructor | teachers/src/teachers/redis_service.py:9-12 | a new service has published nothing |
| Broker.Broker.Publish | teachers/src/teachers/redis_service.py:54-67 | a connected service appends exactly one publication to its log |
| LiteHarness.UsefulMeansLongStripped | teachers/src/teachers/lite_harness.py:70 | an answer is kept exactly when its stripped form has more than 50 characters, so the truthiness test adds nothing; a kept answer is itself longer than 50 |
| LiteHarness.Useful | teachers/src/teachers/lite_harness.py:70 | the keep test `result and len(str(result).strip()) > 50` |
| LiteHarness.KeptBy | teachers/src/teachers/lite_harness.py:68-73 | a tool that raised contributes nothing; one that answered is kept by the keep test |
| LiteHarness.Tagged | teachers/src/teachers/lite_harness.py:71 | `From {name}:\n{result}\n` |
| LiteHarness.Collect | teachers/src/teachers/lite_harness.py:67-74 | the parts collected under a keep rule, in tool order; CollectOne, CollectAppend, CollectMembers and CollectEmptyIff state its properties |
| LiteHarness.KeptParts | teachers/src/teachers/lite_harness.py:67-74 | the parts collected under the source's keep test |
| LiteHarness.Context | teachers/src/teachers/lite_harness.py:76-79 | the parts joined by `\n---\n`, or the fallback text when there are none; ContextFallbackIff states when the fallback appears |
| LiteHarness.ConfigPath | teachers/src/teachers/lite_harness.py:31-33 | the primary path when it exists, otherwise the fallback path |
| LiteHarness.PromptHead | teachers/src/teachers/lite_harness.py:81-87 | the head of the system prompt: role, goal, backstory, year |
| LiteHarness.SystemPrompt | teachers/src/teachers/lite_harness.py:81-94 | head, context, instructions; PromptEmbedsContext states its layout |
| LiteHarness.PromptInstructions | teachers/src/teachers/lite_harness.py:89-94 | the fixed four-point instructions that end the prompt; PromptEmbedsContext places them |
| LiteHarness.HumanMessage | teachers/src/teachers/lite_harness.py:98 | `Question: {query}` |
| LiteHarness.ErrorLine | teachers/src/teachers/lite_harness.py:106-109 | `\n❌ Error: {error}\n` |
| LiteHarness.LitePrompt | teachers/src/teachers/lite_harness.py:31-94 | the system prompt built from the configured persona, the year and the collected context |
| LiteHarness.Answer | teachers/src/teachers/lite_harness.py:101-109 | what the LLM call puts: the tokens and `None`, or the tokens and the error line with `None` twice; AnswerStream states what a consumer reads |
| LiteHarness.LiteTrace | teachers/src/teachers/lite_harness.py:25-109 | what the whole run puts; LiteTraceStream states what a consumer reads and RunLiteMode is proved to put it |
| LiteHarness.TaggedStartsWithFrom | teachers/src/teachers/lite_harness.py:71 | a tagged answer starts with `F` |
| LiteHarness.CollectOne | teachers/src/teachers/lite_harness.py:67-74 | one tool contributes `From {name}:\n{result}\n` when its answer is kept, and nothing when it raised or its answer is short |
| LiteHarness.CollectAppend | teachers/src/teachers/lite_harness.py:67-74 | tools contribute independently and in order: the parts of two runs one after the other are the first run's followed by the second's |
| LiteHarness.CollectMembers | teachers/src/teachers/lite_harness.py:67-74 | a part is collected exactly when some tool's answer is kept and the part is that answer tagged with the tool's name |
| LiteHarness.CollectTagged | teachers/src/teachers/lite_harness.py:71 | every collected part starts with `F` |
| LiteHarness.CollectEmptyIff | teachers/src/teachers/lite_harness.py:67-76 | no parts exactly when no tool's answer is kept |
| LiteHarness.ContextFallbackIff | teachers/src/teachers/lite_harness.py:76-79 | for parts starting with `F`, the context is the fallback text exactly when there are no parts |
| LiteHarness.ContextFallbackIffNothingKept | teachers/src/teachers/lite_harness.py:59-79 | the context is `No specific documents found. Use your general knowledge.` exactly when no tool answer was kept |
| LiteHarness.Outcomes | teachers/src/teachers/lite_harness.py:67-69 | every tool is asked the same query, in the fixed order |
| LiteHarness.ToolNames | teachers/src/teachers/lite_harness.py:60-65 | the four tool names in the fixed order |
| LiteHarness.CollectContext | teachers/src/teachers/lite_harness.py:59-74 | the loop over the four tools collects exactly the kept, tagged parts in tool order, going on after a tool raises |
| LiteHarness.TutorPersona | teachers/src/teachers/lite_harness.py:35-46 | a key present in the `tutor` entry is used as it is; a missing key takes `Tutor` / `Help the student.` / `You are a helpful tutor.`; an unusable file gives `Tutor` / `Help student` / `Helpful AI` |
| LiteHarness.PromptEmbedsContext | teachers/src/teachers/lite_harness.py:81-94 | the system prompt starts with `You are a {role}.`; the context sits verbatim between the fixed head, which names role, goal, backstory and year, and the fixed instructions, which end the prompt |
| LiteHarness.QueueCallbackHandler.constructor | teachers/src/teachers/lite_harness.py:12-13 | the handler writes to the given queue |
| LiteHarness.QueueCallbackHandler.OnLlmNewToken | teachers/src/teachers/lite_harness.py:15-16 | appends the token unchanged |
| LiteHarness.QueueCallbackHandler.OnLlmEnd | teachers/src/teachers/lite_harness.py:18-19 | leaves the queue unchanged |
| LiteHarness.QueueCallbackHandler.OnLlmError | teachers/src/teachers/lite_harness.py:21-23 | appends `\n❌ Error: {error}\n`, then `None` |
| LiteHarness.RunLiteMode | teachers/src/teachers/lite_harness.py:25-109 | appends exactly the lite-mode trace to the queue: config defaults, query default `''` and year default `'2026'`, the collected context, the prompt, then the LLM's answer; a failing LLM setup puts its error line and `None` |
| LiteHarness.Relay | teachers/src/teachers/lite_harness.py:15-23 | the streaming LLM call drives the handler: every token is appended in order, then `None` after a normal end, or the error line and `None` twice when the call raises |
| LiteHarness.AnswerStream | teachers/src/teachers/lite_harness.py:101-109 | what the LLM call puts ends with `None`, and a consumer reads its tokens, then the error text when it raised, and nothing more |
| LiteHarness.LiteTraceStream | teachers/src/teachers/lite_harness.py:101-109 | on every path the last item is `None`; a consumer reads the LLM's tokens, then the error text when the run failed, and nothing more |
| StreamHandler.ActionLines | teachers/src/teachers/stream_handler.py:14-17 | three lines in order, starting `\n\nAgent Action: `, `Input: ` and `Log: ` |
| StreamHandler.ToolStartLines | teachers/src/teachers/stream_handler.py:19-21 | two lines; a missing name shows as `None`; the second is `Input: {input_str}\n` |
| StreamHandler.ToolEndLine | teachers/src/teachers/stream_handler.py:24 | `\nTool Output: {output}\n` |
| StreamHandler.ErrorLine | teachers/src/teachers/stream_handler.py:33 | `Error: {error}\n` |
| StreamHandler.CustomTokenHandler.constructor | teachers/src/teachers/stream_handler.py:7-8 | the handler writes to the given queue |
| StreamHandler.CustomTokenHandler.OnLlmNewToken | teachers/src/teachers/stream_handler.py:10-12 | appends exactly the token |
| StreamHandler.CustomTokenHandler.OnAgentAction | teachers/src/teachers/stream_handler.py:14-17 | appends the three action lines in order |
| StreamHandler.CustomTokenHandler.OnToolStart | teachers/src/teachers/stream_handler.py:19-21 | appends the tool-start line, then the input line |
| StreamHandler.CustomTokenHandler.OnToolEnd | teachers/src/teachers/stream_handler.py:23-24 | appends `\nTool Output: {output}\n` |
| StreamHandler.CustomTokenHandler.OnLlmEnd | teachers/src/teachers/stream_handler.py:26-27 | leaves the queue unchanged |
| StreamHandler.CustomTokenHandler.OnChainEnd | teachers/src/teachers/stream_handler.py:29-30 | leaves the queue unchanged |
| StreamHandler.CustomTokenHandler.OnLlmError | teachers/src/teachers/stream_handler.py:32-34 | appends `Error: {error}\n`, then `None` |
| StreamHandler.Emitted | teachers/src/teachers/stream_handler.py:10-34 | only the two end callbacks put nothing, and only an LLM error puts `None` |
| StreamHandler.EmittedAll | teachers/src/teachers/stream_handler.py:10-34 | the items a run of callbacks puts, in order; EmittedAllExtends, EmittedAllAppend and StreamStopsAtFirstError state its properties |
| StreamHandler.EmittedAllExtends | teachers/src/teachers/stream_handler.py:10-34 | callbacks only append: a run's items begin with the items of every earlier part of the run |
| StreamHandler.EmittedAllAppend | teachers/src/teachers/stream_handler.py:10-34 | the items of two runs in sequence are the first run's followed by the second's |
| StreamHandler.NoSentinelBefore | teachers/src/teachers/stream_handler.py:32-34 | no `None` is put before the first LLM error |
| StreamHandler.StreamStopsAtFirstError | teachers/src/teachers/stream_handler.py:32-34 | a consumer reads everything put before the first LLM error, then that error's line, and nothing after |
| StreamHandler.StreamAroundError | teachers/src/teachers/stream_handler.py:32-34 | for any run with an LLM error preceded by no other, a consumer reads the items put before it, then the error's line, and nothing of what follows |
| StreamHandler.SentinelAfter | teachers/src/teachers/stream_handler.py:32-34 | reading past a stretch without `None`, then the error line and `None`, reads the stretch's texts and the error line, and nothing after |
| StreamHandler.EmittedAround | teachers/src/teachers/stream_handler.py:10-34 | the items of a run with one callback singled out are the items before it, its own, then the items after |
| RequestHandler.RouteRequest | teachers/src/teachers/request_handler.py:16-47 | rejected exactly when `chatId` or `question` is falsy; otherwise failed exactly when the question or the mode is not a string, with `'T' object is not subscriptable` for a bad question (checked first) and `'T' object has no attribute 'lower'` for a bad mode; lite exactly when a string mode (default `lite`) lowers to `lite`, pro exactly when it lowers to anything else; the crew's inputs are `{topic: question, current_year: str(year)}` with year default 2026 |
| RequestHandler.DefaultYearInput | teachers/src/teachers/request_handler.py:20-42 | without `current_year`, the crew receives `current_year: '2026'` |
| RequestHandler.ResponseChannel | teachers/src/teachers/request_handler.py:37 | the channel is `aiml:responses:` followed by `str(chatId)` |
| RequestHandler.Inputs | teachers/src/teachers/request_handler.py:39-42 | the crew's inputs: the question as `topic`, `str(year)` as `current_year` |
| RequestHandler.Reply | teachers/src/teachers/request_handler.py:9-172 | the messages for a request, by route: the missing-fields error, the failure's error, the lite messages of the producer's trace, or the pro messages of the crew's outcome; its properties are ReplyWellFormed, MissingFieldsReply, LiteReply and ProReply |
| RequestHandler.LiteMessages | teachers/src/teachers/request_handler.py:82-104 | one `done: false` message per text read before the first `None`, then the closing message |
| RequestHandler.ProMessages | teachers/src/teachers/request_handler.py:131-172 | the result and the close, or one error message |
| RequestHandler.Done | teachers/src/teachers/request_handler.py:87-93 | the closing message: empty token, `done: true`, no error |
| RequestHandler.ErrorMessage | teachers/src/teachers/request_handler.py:164-172 | the error message: empty token, `done: true`, the error text |
| RequestHandler.WellFormedReply | teachers/src/teachers/request_handler.py:9-172 | the reply protocol: at least one message; all but the last `done: false` without error; the last `done: true` with an empty token; an error only in a reply of one message; ReplyWellFormed proves every reply meets it |
| RequestHandler.RouteIgnoresCase | teachers/src/teachers/request_handler.py:44-47 | two spellings of the mode that lower-case alike route a request the same way |
| RequestHandler.DefaultAndSpelledModes | teachers/src/teachers/request_handler.py:19-47 | no mode, or `LITE`, goes to lite mode; `pro` goes to pro mode |
| RequestHandler.TokenMessages | teachers/src/teachers/request_handler.py:97-104 | one `done: false` message per text, in order |
| RequestHandler.Publications | teachers/src/teachers/request_handler.py:24-37 | every message goes to the same channel, in order |
| RequestHandler.PublicationsAppend | teachers/src/teachers/request_handler.py:82-104 | publishing two batches in sequence logs the first, then the second |
| RequestHandler.TokenLogPublishes | teachers/src/teachers/request_handler.py:97-104 | the log built one token at a time is the publications of the token messages |
| RequestHandler.PublishedSnoc | teachers/src/teachers/request_handler.py:97-104 | publishing one more token adds exactly its message |
| RequestHandler.PublishedClose | teachers/src/teachers/request_handler.py:85-95 | the closing message comes after the tokens |
| RequestHandler.ReplyWellFormed | teachers/src/teachers/request_handler.py:9-172 | every reply has at least one message; all but the last have `done: false` and no error; the last has `done: true` and an empty token; an error appears only in a one-message reply; all messages carry the request's `chatId` |
| RequestHandler.LiteMessagesWellFormed | teachers/src/teachers/request_handler.py:82-104 | whatever the producer put, the lite reply is well formed and every message carries the given `chatId` |
| RequestHandler.MissingFieldsReply | teachers/src/teachers/request_handler.py:22-33 | a request without a truthy `chatId` or `question` gets exactly one message, `done: true` with error `Missing chatId or question` |
| RequestHandler.LiteReply | teachers/src/teachers/request_handler.py:82-104 | lite mode publishes the LLM's tokens in order, then, if the LLM raised, its error line as one more token, then the closing message; no message carries an error |
| RequestHandler.LiteSetupErrorReply | teachers/src/teachers/lite_harness.py:106-109 | when building the LLM raises, lite mode publishes exactly the error line as one `done: false` token, then the closing message |
| RequestHandler.ProReply | teachers/src/teachers/request_handler.py:131-172 | pro mode publishes exactly `{token: result, done: false}` and `{token: "", done: true}`, or one `done: true` message whose error is the crew's exception text |
| RequestHandler.ProcessLiteMode | teachers/src/teachers/request_handler.py:64-107 | the published messages are the lite messages of the producer's trace |
| RequestHandler.Consume | teachers/src/teachers/request_handler.py:82-104 | takes items up to and including the first `None`, publishing each text with `done: false`, then one closing message; exactly the items after that `None` stay on the queue |
| RequestHandler.ProcessProMode | teachers/src/teachers/request_handler.py:122-172 | publishes the pro messages for the crew's outcome |
| RequestHandler.ProcessAimlRequest | teachers/src/teachers/request_handler.py:9-61 | publishes the request's reply, every message on `aiml:responses:{chatId}` |
| Api.Gate | api.py:12-21 | confidence is always `low` or `high`; `low` exactly when the marker occurs anywhere in the answer, with the fixed answer; otherwise the answer unchanged with `high` |
| Api.Qa | api.py:7-21 | the question from `payload.get("question")` goes to the crew unchanged; confidence is `low` or `high`; `low` exactly when the marker occurs in the crew's answer, with the fixed answer; `high` with the crew's answer |
| Api.MarkerAnywhereLowers | api.py:12-16 | the marker inside any surrounding text gives the low-confidence response |

## Left out

- The cosine quotient is a parameter, so `numpy.linalg.norm` and `numpy.dot` are not modelled. Only two things about scores are: a zero norm scores exactly 0, and the ranking follows the scores.
- A zero norm is modelled as "every component is 0". A norm that underflows to 0 for tiny non-zero components is floating-point behaviour, and it is left out.
- Dimension mismatches between a query and a stored vector are not modelled; numpy raises on them. The cosine parameter is total.
- Floating point is not modelled: scores are reals and `float(score)` is the identity.
- The encoders (CLIP, sentence-transformers), PDF rasterisation and image types are opaque functions or inputs.
- FAISS and LangChain are not modelled: `load_local`, `as_retriever`, `invoke`, `from_documents`, `TextLoader` and `RecursiveCharacterTextSplitter`. The documents a retriever returns are inputs, and the k limits are preconditions on them.
- `merge_from` in `checker.py` is a library call. The merged index is not modelled, and neither is the module-level `print(query("chemistry"))`.
- YAML parsing is not modelled. The configuration file is an input: either a map of string settings, or unusable (missing, malformed, or not a mapping).
- Settings that are not strings are not modelled.
- The relative config paths depend on the working directory. That is left to the `primaryConfigExists` input.
- `lite_harness.py` imports `retriever_toolthree` from `toolers.py`, a name that file does not define. It also imports `teachers.tooler`, which is not part of this model. The failing import of `retriever_toolthree` is established; what `teachers.tooler` does is not. The four tools are parameters, named as in the tool list.
- Threads and asyncio are not modelled. In lite mode the producer runs to completion before the consumer starts. With a FIFO queue the consumer reads the same items in every interleaving. `thread.join(timeout=1)` is left out.
- RequestHandler.ProcessLiteMode: the `except` branch of `process_lite_mode` is unreachable in the model. In the model, only a failing Redis publish could raise there, and publishing requires a connected service. Starting the thread and waiting on `token_queue.get` inside the same `try` are not modelled as failing.
- Broker.Broker.Publish: requires `connected`. A publish on a disconnected service raises, and that path is not modelled.
- Aliasing of metadata is not modelled. `add` stores the caller's metadata dict itself (upload-ready/src/storage/vector_store.py:13), and the engine's `search` returns that same object (upload-ready/src/search_engine.py:27), so a caller that mutates a result changes the store. The model stores and returns metadata as values.
- JSON encoding of messages, subscribing and connection management in `redis_service.py` are not modelled.
- `print` and logging lines are left out. Only their one observable effect is kept: slicing a question that is not a string raises.
- Request values are strings, integers, booleans and `None`. Lists, dicts and floats from JSON are left out.
- Text.Lower: lowers ASCII letters only. Non-ASCII case mapping is left out. Python's full case mapping can give a letter of `lite` (`'İ'.lower()` is `i` followed by U+0307), but then the result is longer than its source. Python's lower of a string that holds a non-ASCII character therefore never equals `lite`, so the routing decision is unaffected.
- Python's error texts for a non-string question or mode are the CPython messages, as constants.
- The LLM, CrewAI agents, tasks and memory, and the FastAPI routes other than `/qa`'s decision are left out. The LLM is a function from the two prompt messages to the tokens it streams and how it ends. The crew is a function of its inputs.
- StreamHandler.ActionLines: an agent action's `tool_input` is modelled as a string. A dict input would be rendered by Python's `str`, which is not modelled.
- LiteHarness.RunLiteMode: records what the LLM call does with the handler: its tokens, then either its return or an error. When the LLM raises, LangChain calls `on_llm_error` and re-raises, so the outer `except` puts the error and `None` a second time. The model states this order but does not model LangChain itself.

## Design notes

- There is no dimension check. `np.dot` on vectors of different lengths raises (upload-ready/src/storage/vector_store.py:31-37), and neither `search` adds a check of its own.
- In lite mode an LLM failure reaches the client as an ordinary `done: false` token holding the error line, followed by a normal `done: true` close (teachers/src/teachers/request_handler.py:82-104; `RequestHandler.LiteReply` for a failing call, `RequestHandler.LiteSetupErrorReply` for a failing setup).
- `Toolers.Callers` receives the chunks only when the file exists. This matches `callers`, which loads and embeds nothing when the file is missing.
