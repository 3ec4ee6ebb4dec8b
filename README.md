# Conversational RAG endpoint: a verified model of its deterministic core

The repository answers a user's question in five steps. It retrieves documents from an
Azure AI Search index, using keyword search, vector search, or both. It folds the hits into
a dict from blob-storage url to content. It asks a language model to condense the question
against the conversation history. It asks the model again to answer from that context. It
saves the turn in memory and decodes the answer. A separate extraction step then turns the
decoded answer into a reply and a list of source urls.

This project models the deterministic parts of that code in Dafny:

- `utilis.dfy` (module `Utilis`): `response_handler`.
- `azure_document_search.dfy` (module `AzureDocumentSearch`): `nonewlines`, `SourceDocument`
  and `document_store`, `build_filter`, the flag derivation and vector query of `run`, model
  selection in `compute_text_embedding`, and the branch choice and hit mapping of `search`.
  The client is a class whose constant fields are its two service clients and its
  embedding configuration.
- `retrieval_clients.dfy` (module `RetrievalClients`): `AzureUrlClient`.
- `response_process.dfy` (module `ResponseProcess`): the fixed run overrides,
  `extract_dictionary`, `format_docs`, the conversation memory, and the control flow of
  `conversational_llm_response_with_memory` and `llm_response`.
- `py_values.dfy` and `py_strings.dfy` (modules `PyValues`, `PyStrings`): the Python
  semantics these rely on. This covers JSON-shaped values, `dict.get`, truthiness, `len()`,
  the exceptions raised, `str.split`, `str.join` and one-character `str.replace`.

How Python is modelled:

- A value returned by `json.loads` is a `Json`. A plain Python string is `JStr`, so a raw
  answer that does not decode and a decoded JSON string have the same type, as in Python.
- The exceptions the modelled operations raise on their inputs are `PyError`s inside a
  `Result`. Examples are `len()` of `None` or a number, `.split` or `.replace` on a
  non-string, and `data[0]` on an empty list. Three exceptions are not modelled and are
  listed under "Left out": the `Document` validation error on a `None` page content,
  recursion errors inside the JSON decoder, and `len()` of a `None` question.
- The search service, the embeddings service, the two language-model prompts and the JSON
  decoder are function values. Each one returns a reply or a failure. The model says what
  is sent to them and what is made of what they return.
- The pipeline methods also return `calls`, a list of the collaborator calls in order.
  Each method writes this list itself, next to the calls it makes; nothing in Dafny ties
  the list to those calls. What the contracts do prove for empty input is that the
  outcome and the memory are the same whatever the retriever, model and decoder are.
- The url-to-content dict is a sequence of `Entry` values in insertion order, because the
  answer prompt writes the dict out in that order. Writing an existing url keeps its place
  and replaces its content; a new url goes at the end.
- The memory is a class with a `turns: seq<Turn>` field. `save_context` appends to it.

Behaviours of the code worth knowing:

- `response_handler` tests `len(sources.split(",")) > 0`, which always holds. So the sources
  `""` give the urls `[""]`, and the `try` around the list comprehension never catches
  anything.
- When condensing fails, the pipeline returns the retry-later message.
- The retrieval layer passes `top` to the search service and keeps every hit the service
  returns.
- `build_filter` makes a single clause, and the category text inside it may itself contain
  " and ". The filter reads back as exactly the excluded category.

## Model

| member | source | states |
|---|---|---|
| `Utilis.ResponseHandler` | rag_process/utilis.py:3-20 | A non-dict is returned unchanged with no urls. For a dict: the call fails exactly when the answer has no `len()` or "sources" is not a string. A missing answer gives "No information found". An answer of length 0 gives the fixed rephrase message. Any other answer is returned verbatim. A string answer never gives an empty reply. No "sources" gives no urls. Otherwise urls join back with "," to the sources, number one more than its commas and contain no comma, and "" gives `[""]` |
| `Utilis.WellFormedAnswer` | rag_process/utilis.py:6-14 | `{"answer": "X", "sources": "a,b,c"}` gives `("X", ["a", "b", "c"])` |
| `PyStrings.Split` | rag_process/utilis.py:12-14 | `str.split` on one character always gives at least one piece, so the length test in `response_handler` always passes |
| `PyStrings.JoinSplit` | rag_process/utilis.py:14 | Joining the pieces of `s.split(c)` with `c` gives back `s` |
| `PyStrings.SplitJoin` | rag_process/utilis.py:14 | The converse: a non-empty list of pieces without `c` is the split of its join |
| `PyStrings.SplitLength` | rag_process/utilis.py:12-14 | A split has exactly one piece more than the string has separators |
| `PyStrings.SplitPiecesFree` | rag_process/utilis.py:14 | No piece of a split contains the separator |
| `PyStrings.ReplaceChar` | rag_process/azure_document_search.py:20 | One-character `str.replace` keeps the length and changes exactly the matching positions |
| `AzureDocumentSearch.NoNewlines` | rag_process/azure_document_search.py:19-20 | The output has the input's length and no line feed or carriage return. Line breaks become spaces and every other character is unchanged |
| `AzureDocumentSearch.NoNewlinesIdempotent` | rag_process/azure_document_search.py:19-20 | Applying `nonewlines` twice equals applying it once, and a string without line breaks is returned unchanged |
| `AzureDocumentSearch.StoreAll` | rag_process/azure_document_search.py:31-37 | `document_store` (`DocumentStore`) applied to each hit: one document per hit, in order. `page_content` is the hit's content. Metadata source, sourcepage, category and embeddings come from sourcefile, sourcepage, category and embedding |
| `AzureDocumentSearch.EscapeQuotes` | rag_process/azure_document_search.py:59 | Doubling quotes lengthens the text by exactly its number of quotes |
| `AzureDocumentSearch.UnescapeEscape` | rag_process/azure_document_search.py:59 | The escaped category is a well-formed OData string-literal body (`''` for each quote) that reads back as the category |
| `AzureDocumentSearch.ParseClause` | rag_process/azure_document_search.py:59 | The clause `category ne '<escaped>'` parses back to the category it excludes |
| `AzureDocumentSearch.BuildFilter` | rag_process/azure_document_search.py:55-60 | None exactly when "exclude_category" is absent or falsy. Fails exactly when it is truthy and not a string. Otherwise the result is exactly `"category ne '" + c' + "'"`, where `c'` is `c` with every quote doubled, and it parses back to `c` |
| `AzureDocumentSearch.Flags` | rag_process/azure_document_search.py:115-119 | `hasText` holds iff the mode is text, hybrid or absent/None. `hasVector` holds iff it is vectors, hybrid or absent/None. Ranker and captions are on iff `hasText` and the override is truthy. `top` defaults to 3 |
| `AzureDocumentSearch.UnknownModeSearchesNothing` | rag_process/azure_document_search.py:115-118 | Any other retrieval mode turns off text search, vector search, the ranker and captions |
| `AzureDocumentSearch.OverridesOf` | rag_process/azure_document_search.py:114 | Missing overrides become `{}`. Overrides that are not a dict fail at their first `.get` |
| `AzureDocumentSearch.SearchRequestFor` | rag_process/azure_document_search.py:72-85 | The semantic branch is taken iff the ranker is on and the query text is non-empty. That branch uses configuration "default", and captions are asked for there only when requested. The search text is the query or "". Filter, top and vectors pass through |
| `AzureDocumentSearch.AzureAISearchClient.constructor` | rag_process/azure_document_search.py:41-53 | Stores the two service clients and the embedding configuration |
| `AzureDocumentSearch.AzureAISearchClient.EmbeddingModelName` | rag_process/azure_document_search.py:105 | The embeddings call names the deployment when one is set, else the model |
| `AzureDocumentSearch.AzureAISearchClient.TextEmbeddingQuery` | rag_process/azure_document_search.py:102-109 | Succeeds iff the embeddings call succeeds with at least one vector. An empty reply is an IndexError. The query is the first vector with k = 50 on field "embedding" |
| `AzureDocumentSearch.AzureAISearchClient.Search` | rag_process/azure_document_search.py:62-100 | Sends the request of the chosen branch. Returns the service's failure, or one document per hit over all pages in order, built by its nested loops |
| `AzureDocumentSearch.AzureAISearchClient.PlanRun` | rag_process/azure_document_search.py:111-126 | Fails exactly at non-dict overrides, a failing filter, or a failing embedding when vectors are on. There is exactly one vector query, the message's embedding, iff `hasVector`, otherwise none. The query text is the message iff `hasText`, else None |
| `AzureDocumentSearch.AzureAISearchClient.Run` | rag_process/azure_document_search.py:111-130 | `run` returns the search result for the planned request, or the first failure |
| `RetrievalClients.AzureUrlClient` | rag_process/retrieval_clients.py:54-59 | The url is `"https://" + account + ".blob.core.windows.net/" + container + "/"` followed by the source |
| `RetrievalClients.UrlShape` | rag_process/retrieval_clients.py:56-58 | Every url starts with `"https://" + account + ".blob.core.windows.net/"` and ends with `"/" + source` |
| `RetrievalClients.SourceOfUrl` | rag_process/retrieval_clients.py:56-58 | The source is recovered by removing the account and container prefix |
| `RetrievalClients.UrlInjective` | rag_process/retrieval_clients.py:58 | For one account and container, distinct sources give distinct urls |
| `ResponseProcess.RunContextFlags` | autochat-flask/rag_process/response_process.py:28-31 | The fixed overrides enable text and vector search, the ranker and captions, with top 3 and no filter |
| `ResponseProcess.RunContextRequest` | autochat-flask/rag_process/response_process.py:28-31 | With the fixed overrides, a non-empty question goes out as a semantic, captioned, unfiltered top-3 search. Its text is the question and its one vector query is the question's embedding |
| `ResponseProcess.ExtractDictionary` | autochat-flask/rag_process/response_process.py:79-88 | The decoded value when decoding succeeds, otherwise the input string unchanged |
| `ResponseProcess.Put` | autochat-flask/rag_process/response_process.py:98 | Dict assignment: an existing key keeps its place, a new key is appended at the end, and as a map the dict is updated at that key |
| `ResponseProcess.FormatDocs` | autochat-flask/rag_process/response_process.py:92-102 | The loop builds exactly the result of writing `url := page_content` for each document in order. Empty input gives an empty dict |
| `ResponseProcess.FormattedOrder` | autochat-flask/rag_process/response_process.py:94-98 | The dict's keys, in order, are the documents' urls in order of first appearance, with repeats dropped |
| `ResponseProcess.FormattedDistinct` | autochat-flask/rag_process/response_process.py:94-98 | No url is a key twice |
| `ResponseProcess.FirstOccurrencesMembers` | autochat-flask/rag_process/response_process.py:94-98 | Dropping repeats keeps every url |
| `ResponseProcess.FirstOccurrencesDistinct` | autochat-flask/rag_process/response_process.py:94-98 | After dropping repeats no url occurs twice |
| `ResponseProcess.FormattedKeys` | autochat-flask/rag_process/response_process.py:94-98 | The key set is exactly the set of `AzureUrlClient(sourcepage)` over the documents |
| `ResponseProcess.FormattedLastWins` | autochat-flask/rag_process/response_process.py:96-98 | Under each key is the content of the last document with that url |
| `ResponseProcess.SameUrlLaterWins` | autochat-flask/rag_process/response_process.py:96-98 | Two documents under one url give one entry, holding the later one's content |
| `ResponseProcess.FormattedSize` | autochat-flask/rag_process/response_process.py:96-98 | The dict has at most as many entries as there are documents |
| `ResponseProcess.ConversationMemory.constructor` | autochat-flask/app.py:12 | A new memory has no turns |
| `ResponseProcess.ConversationMemory.SaveContext` | autochat-flask/rag_process/response_process.py:162 | Appends exactly one (question, answer) turn |
| `ResponseProcess.AnswerWithMemory` | autochat-flask/rag_process/response_process.py:125-167 | The chain stage: the question is condensed against the saved turns and then answered from the context. A failure of either call gives the retry-later message and saves nothing. On success exactly `(user_query, raw answer content)` is appended and the decoded raw text is returned |
| `ResponseProcess.ConversationalResponseWithMemory` | autochat-flask/rag_process/response_process.py:108-170 | Empty input returns "Please provide some context" with no calls and memory unchanged. A retrieval failure returns "Error in document retrieval." with memory unchanged. A condense or answer failure returns the retry-later message and appends nothing. On success memory grows by exactly `(user_query, raw answer)` and the result is `extract_dictionary` of that raw text |
| `ResponseProcess.LlmResponse` | autochat-flask/rag_process/response_process.py:175-207 | The same empty-input and retrieval-failure outcomes. The unmodified question is answered from the formatted context, a model failure gives the retry-later message, and the result is `extract_dictionary` of the model's text |

## Left out

- The HTTP route, template rendering and JSON response wrapping in `autochat-flask/app.py`: I/O plumbing.
- Client construction and environment loading (`rag_process/llm_clients.py`, `rag_process/retrieval_clients.py:12-49`): configuration and foreign SDK calls. Storage account and container are string parameters. A missing environment variable, which Python would render as "None" in the url, is not modelled.
- The search, embeddings and chat services: they are modelled as pure function values, so one request has one reply. Timing, retries, async scheduling and a failure part-way through `by_page` iteration are not modelled. A paging failure counts as a failure of the search call.
- LangChain chain composition and the prompt texts: the chain is two collaborators. One condenses the question from the saved turns. The other answers a question from the context. The rendering of the turns by `get_buffer_string` and the `ConversationBufferMemory` internals are not modelled. The text rendering of the context inside the answer prompt is not modelled either: the answer collaborator receives the ordered entries.
- The `k=5` window set in `autochat-flask/app.py:12`: the code shown does not enforce any eviction, so memory only grows.
- `json.loads` internals: the decoder is a parameter returning a value or None (a `JSONDecodeError`). Other exceptions it could raise, such as deep-nesting recursion errors, are not modelled.
- Floating point: JSON numbers are exact reals, without Python's int/float distinction. Embedding vectors are opaque.
- Document validation: `page_content` is a `str` field of the `Document` library class, so a hit whose content is `None` makes `search` raise. In the code the request then returns "Error in document retrieval."; the model instead carries the `None` content on into the context and the chain.
- A `None` user query: `len(user_query)` then raises, and this exception is not modelled. The query is a string here.
- The unused `retriever` parameter and the unused module-level `memory`: the code always uses `azure_document_retriever` and the memory passed in. The `openai_host` field is stored but never used.
- `print` logging and per-session locking of memory.
