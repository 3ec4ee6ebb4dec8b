/**
 * The conversational pipeline: the fixed retrieval overrides, decoding of the
 * model's answer, formatting of the retrieved documents into a url-to-content
 * context, the conversation memory, and the control flow of one request with and
 * without memory. The language model and the JSON decoder are collaborators given
 * as parameters.
 */
module ResponseProcess {
  import opened PyValues
  import opened AzureDocumentSearch
  import opened RetrievalClients

  /** The overrides every request of the assistant runs with: hybrid, ranked, captioned, top 3. */
  const RunOverrides: map<string, Json> := map[
    "retrieval_mode" := JStr("hybrid"),
    "semantic_ranker" := JBool(true),
    "semantic_captions" := JBool(true),
    "top" := JNum(3.0)]

  const RunContext: map<string, Json> := map["overrides" := JObj(RunOverrides)]

  const EmptyQueryMessage := "Please provide some context"
  const RetrievalErrorMessage := "Error in document retrieval."
  const ChainErrorMessage := "Unable to assist with the information you need, please try again later."

  /** The fixed context turns on text and vector search, the ranker and captions, with top 3. */
  lemma RunContextFlags()
    ensures OverridesOf(RunContext) == Success(RunOverrides)
    ensures Flags(RunOverrides) == RetrievalFlags(true, true, true, true, JNum(3.0))
    ensures BuildFilter(RunOverrides) == Success(None)
  {
  }

  /**
   * With the fixed context, a non-empty question is sent as a semantic, captioned,
   * unfiltered top-3 search that carries the question's embedding as its one vector query.
   */
  lemma RunContextRequest(retriever: AzureAISearchClient, message: string)
    requires message != ""
    requires retriever.PlanRun(message, RunContext).Success?
    ensures var req := RequestOf(retriever.PlanRun(message, RunContext).value);
      && req.searchText == message
      && req.semantic == Some(SemanticOptions("default", Some("extractive|highlight-false")))
      && req.filter == None
      && req.top == JNum(3.0)
      && req.vectorQueries == [retriever.TextEmbeddingQuery(message).value]
  {
  }

  // ---------------------------------------------------------------------------
  // extract_dictionary

  /** A JSON decoder: the decoded value, or None where `json.loads` raises a decode error. */
  type Decoder = string -> Option<Json>

  /** `extract_dictionary`: the decoded value, or the text itself when it does not decode. */
  function ExtractDictionary(decode: Decoder, text: string): (r: Json)
    ensures decode(text).Some? ==> r == decode(text).value
    ensures decode(text).None? ==> r == JStr(text)
  {
    match decode(text)
    case Some(value) => value
    case None => JStr(text)
  }

  // ---------------------------------------------------------------------------
  // format_docs

  /** One entry of the context dict: a source url and the content filed under it. */
  datatype Entry = Entry(url: string, content: Option<string>)

  /**
   * The context handed to the answer prompt: the url-to-content dict as its entries
   * in insertion order, the order in which the prompt writes them out.
   */
  type Context = seq<Entry>

  /** The keys of a context, in insertion order. */
  function KeysOf(ctx: Context): (keys: seq<string>)
    ensures |keys| == |ctx|
  {
    if ctx == [] then [] else [ctx[0].url] + KeysOf(ctx[1..])
  }

  /** The dict a context stands for, as a map from url to content. */
  function AsMap(ctx: Context): map<string, Option<string>> {
    if ctx == [] then map[] else AsMap(ctx[1..])[ctx[0].url := ctx[0].content]
  }

  /**
   * `d[url] = content` on a dict: an existing key keeps its place and takes the new
   * content; a new key goes at the end.
   */
  function Put(ctx: Context, url: string, content: Option<string>): (r: Context)
    ensures KeysOf(r) == if url in KeysOf(ctx) then KeysOf(ctx) else KeysOf(ctx) + [url]
    ensures AsMap(r) == AsMap(ctx)[url := content]
  {
    if ctx == [] then [Entry(url, content)]
    else if ctx[0].url == url then
      assert AsMap(ctx)[url := content] == AsMap(ctx[1..])[url := content];
      [Entry(url, content)] + ctx[1..]
    else
      var rest := Put(ctx[1..], url, content);
      assert ([ctx[0]] + rest)[1..] == rest;
      assert url in KeysOf(ctx) <==> url in KeysOf(ctx[1..]);
      assert [ctx[0].url] + (KeysOf(ctx[1..]) + [url]) == KeysOf(ctx) + [url];
      [ctx[0]] + rest
  }

  /** The url `format_docs` files a document under (an absent source page renders as "None"). */
  function SourceUrl(doc: Document, storageAccount: string, container: string): string {
    AzureUrlClient(PyStr(doc.metadata.sourcepage), storageAccount, container)
  }

  /** The mapping `format_docs` builds: each document written in turn into the dict. */
  function Formatted(docs: seq<Document>, storageAccount: string, container: string): Context {
    if docs == [] then []
    else
      var last := docs[|docs| - 1];
      Put(Formatted(docs[..|docs| - 1], storageAccount, container),
          SourceUrl(last, storageAccount, container), last.pageContent)
  }

  /** `format_docs`: fills the url-to-content dict one document at a time. */
  method FormatDocs(documents: seq<Document>, storageAccount: string, container: string) returns (retriever: Context)
    ensures retriever == Formatted(documents, storageAccount, container)
    ensures documents == [] ==> retriever == []
  {
    retriever := [];
    if |documents| > 0 {
      for i := 0 to |documents|
        invariant retriever == Formatted(documents[..i], storageAccount, container)
      {
        var doc := documents[i];
        var url := SourceUrl(doc, storageAccount, container);
        assert documents[..i + 1][..i] == documents[..i];
        retriever := Put(retriever, url, doc.pageContent);
      }
      assert documents[..|documents|] == documents;
    }
  }

  /** The documents' urls, in document order. */
  function DocUrls(docs: seq<Document>, storageAccount: string, container: string): seq<string> {
    seq(|docs|, i requires 0 <= i < |docs| => SourceUrl(docs[i], storageAccount, container))
  }

  /** The urls of the documents, as a set. */
  function UrlsOf(docs: seq<Document>, storageAccount: string, container: string): set<string> {
    set i | 0 <= i < |docs| :: SourceUrl(docs[i], storageAccount, container)
  }

  lemma UrlsOfSnoc(docs: seq<Document>, storageAccount: string, container: string)
    requires docs != []
    ensures UrlsOf(docs, storageAccount, container)
            == UrlsOf(docs[..|docs| - 1], storageAccount, container)
               + {SourceUrl(docs[|docs| - 1], storageAccount, container)}
  {
  }

  /** Each element of `s` at the place of its first occurrence, later repeats dropped. */
  function FirstOccurrences(s: seq<string>): seq<string> {
    if s == [] then []
    else
      var init := FirstOccurrences(s[..|s| - 1]);
      if s[|s| - 1] in s[..|s| - 1] then init else init + [s[|s| - 1]]
  }

  /** Dropping repeats keeps every element. */
  lemma {:induction false} FirstOccurrencesMembers(s: seq<string>, x: string)
    ensures x in FirstOccurrences(s) <==> x in s
  {
    if s != [] {
      FirstOccurrencesMembers(s[..|s| - 1], x);
      assert s == s[..|s| - 1] + [s[|s| - 1]];
    }
  }

  /** After dropping repeats no element occurs twice. */
  lemma {:induction false} FirstOccurrencesDistinct(s: seq<string>)
    ensures forall i, j :: 0 <= i < j < |FirstOccurrences(s)| ==> FirstOccurrences(s)[i] != FirstOccurrences(s)[j]
  {
    if s != [] {
      FirstOccurrencesDistinct(s[..|s| - 1]);
      FirstOccurrencesMembers(s[..|s| - 1], s[|s| - 1]);
    }
  }

  /**
   * The context lists each url once, at the place of the first document filed under
   * it: the insertion order of the dict.
   */
  lemma {:induction false} FormattedOrder(docs: seq<Document>, storageAccount: string, container: string)
    ensures KeysOf(Formatted(docs, storageAccount, container))
            == FirstOccurrences(DocUrls(docs, storageAccount, container))
  {
    if docs != [] {
      var init := docs[..|docs| - 1];
      var urls := DocUrls(docs, storageAccount, container);
      FormattedOrder(init, storageAccount, container);
      assert urls[..|docs| - 1] == DocUrls(init, storageAccount, container);
      FirstOccurrencesMembers(urls[..|docs| - 1], urls[|docs| - 1]);
    }
  }

  /** No url is listed twice in the context. */
  lemma FormattedDistinct(docs: seq<Document>, storageAccount: string, container: string)
    ensures var keys := KeysOf(Formatted(docs, storageAccount, container));
      forall i, j :: 0 <= i < j < |keys| ==> keys[i] != keys[j]
  {
    FormattedOrder(docs, storageAccount, container);
    FirstOccurrencesDistinct(DocUrls(docs, storageAccount, container));
  }

  /** The keys of the context are exactly the documents' urls. */
  lemma {:induction false} FormattedKeys(docs: seq<Document>, storageAccount: string, container: string)
    ensures AsMap(Formatted(docs, storageAccount, container)).Keys == UrlsOf(docs, storageAccount, container)
  {
    if docs != [] {
      FormattedKeys(docs[..|docs| - 1], storageAccount, container);
      UrlsOfSnoc(docs, storageAccount, container);
    }
  }

  /**
   * Last write wins: a document's content is what its url maps to, unless a later
   * document has the same url.
   */
  lemma {:induction false} FormattedLastWins(docs: seq<Document>, i: nat, storageAccount: string, container: string)
    requires i < |docs|
    requires forall j :: i < j < |docs| ==>
      SourceUrl(docs[j], storageAccount, container) != SourceUrl(docs[i], storageAccount, container)
    ensures SourceUrl(docs[i], storageAccount, container) in AsMap(Formatted(docs, storageAccount, container))
    ensures AsMap(Formatted(docs, storageAccount, container))[SourceUrl(docs[i], storageAccount, container)]
            == docs[i].pageContent
  {
    if i < |docs| - 1 {
      var init := docs[..|docs| - 1];
      assert init[i] == docs[i];
      forall j | i < j < |init|
        ensures SourceUrl(init[j], storageAccount, container) != SourceUrl(init[i], storageAccount, container)
      {
        assert init[j] == docs[j];
      }
      FormattedLastWins(init, i, storageAccount, container);
    }
  }

  /** Two documents under one url: one entry, holding the later one's content. */
  lemma SameUrlLaterWins(d1: Document, d2: Document, storageAccount: string, container: string)
    requires SourceUrl(d1, storageAccount, container) == SourceUrl(d2, storageAccount, container)
    ensures Formatted([d1, d2], storageAccount, container)
            == [Entry(SourceUrl(d2, storageAccount, container), d2.pageContent)]
  {
    assert [d1, d2][..1] == [d1];
    assert [d1][..0] == [];
    assert Formatted([d1], storageAccount, container) == [Entry(SourceUrl(d1, storageAccount, container), d1.pageContent)];
  }

  /** The context never has more entries than there are documents. */
  lemma {:induction false} FormattedSize(docs: seq<Document>, storageAccount: string, container: string)
    ensures |Formatted(docs, storageAccount, container)| <= |docs|
  {
    if docs != [] {
      FormattedSize(docs[..|docs| - 1], storageAccount, container);
    }
  }

  // ---------------------------------------------------------------------------
  // Conversation memory

  datatype Turn = Turn(question: string, answer: string)

  /** The conversation buffer: the turns saved so far, oldest first. */
  class ConversationMemory {
    var turns: seq<Turn>

    constructor ()
      ensures turns == []
    {
      turns := [];
    }

    /** `save_context`: appends one turn. */
    method SaveContext(question: string, answer: string)
      modifies this
      ensures turns == old(turns) + [Turn(question, answer)]
    {
      turns := turns + [Turn(question, answer)];
    }
  }

  // ---------------------------------------------------------------------------
  // The pipeline

  /**
   * The language model behind the two prompts: condensing the follow-up question
   * against the history, and answering a question from the context. Each returns
   * the model's raw text or fails.
   */
  datatype Llm = Llm(
    condense: (seq<Turn>, string) -> Result<string, PyError>,
    answer: (string, Context) -> Result<string, PyError>)

  /** The collaborator calls a request makes, in order. */
  datatype Call = Retrieve | Condense | Answer

  /**
   * The second stage of `conversational_llm_response_with_memory`: condense the
   * question against the saved turns, answer it from the context, save the turn and
   * decode the answer. A failure of either model call gives the fixed retry-later
   * message and saves nothing.
   */
  method AnswerWithMemory(userQuery: string, memory: ConversationMemory, llm: Llm, decode: Decoder,
                          context: Context)
    returns (out: Json, calls: seq<Call>)
    modifies memory
    ensures var standalone := llm.condense(old(memory.turns), userQuery);
      && (standalone.Failure? ==>
            out == JStr(ChainErrorMessage) && calls == [Condense] && memory.turns == old(memory.turns))
      && (standalone.Success? && llm.answer(standalone.value, context).Failure? ==>
            out == JStr(ChainErrorMessage) && calls == [Condense, Answer]
            && memory.turns == old(memory.turns))
      && (standalone.Success? && llm.answer(standalone.value, context).Success? ==>
            var raw := llm.answer(standalone.value, context).value;
            && calls == [Condense, Answer]
            && memory.turns == old(memory.turns) + [Turn(userQuery, raw)]
            && out == ExtractDictionary(decode, raw))
  {
    calls := [Condense];
    var standalone := llm.condense(memory.turns, userQuery);
    if standalone.Failure? {
      return JStr(ChainErrorMessage), calls;
    }
    calls := calls + [Answer];
    var raw := llm.answer(standalone.value, context);
    if raw.Failure? {
      return JStr(ChainErrorMessage), calls;
    }
    memory.SaveContext(userQuery, raw.value);
    out := ExtractDictionary(decode, raw.value);
  }

  /**
   * `conversational_llm_response_with_memory`: empty input is refused before any
   * call; a retrieval failure and a failure of either model call each end with a
   * fixed message and leave the memory alone; on success the question and the
   * model's raw text are saved, and the decoded raw text is returned.
   */
  method ConversationalResponseWithMemory(
    userQuery: string, memory: ConversationMemory, retriever: AzureAISearchClient,
    llm: Llm, decode: Decoder, storageAccount: string, container: string)
    returns (out: Json, calls: seq<Call>)
    modifies memory
    ensures userQuery == "" ==>
      out == JStr(EmptyQueryMessage) && calls == [] && memory.turns == old(memory.turns)
    ensures userQuery != "" && retriever.RunResult(userQuery, RunContext).Failure? ==>
      out == JStr(RetrievalErrorMessage) && calls == [Retrieve] && memory.turns == old(memory.turns)
    ensures userQuery != "" && retriever.RunResult(userQuery, RunContext).Success? ==>
      var context := Formatted(retriever.RunResult(userQuery, RunContext).value, storageAccount, container);
      var standalone := llm.condense(old(memory.turns), userQuery);
      && (standalone.Failure? ==>
            out == JStr(ChainErrorMessage) && calls == [Retrieve, Condense]
            && memory.turns == old(memory.turns))
      && (standalone.Success? && llm.answer(standalone.value, context).Failure? ==>
            out == JStr(ChainErrorMessage) && calls == [Retrieve, Condense, Answer]
            && memory.turns == old(memory.turns))
      && (standalone.Success? && llm.answer(standalone.value, context).Success? ==>
            var raw := llm.answer(standalone.value, context).value;
            && calls == [Retrieve, Condense, Answer]
            && memory.turns == old(memory.turns) + [Turn(userQuery, raw)]
            && out == ExtractDictionary(decode, raw))
  {
    if |userQuery| == 0 {
      return JStr(EmptyQueryMessage), [];
    }
    var documents := retriever.Run(userQuery, RunContext);
    if documents.Failure? {
      return JStr(RetrievalErrorMessage), [Retrieve];
    }
    var context := FormatDocs(documents.value, storageAccount, container);
    var chainCalls;
    out, chainCalls := AnswerWithMemory(userQuery, memory, llm, decode, context);
    calls := [Retrieve] + chainCalls;
  }

  /**
   * `llm_response`: the same pipeline without memory; the user's question goes to the
   * answer prompt as it is, with no condensing step.
   */
  method LlmResponse(userQuery: string, retriever: AzureAISearchClient, llm: Llm, decode: Decoder,
                     storageAccount: string, container: string)
    returns (out: Json, calls: seq<Call>)
    ensures userQuery == "" ==> out == JStr(EmptyQueryMessage) && calls == []
    ensures userQuery != "" && retriever.RunResult(userQuery, RunContext).Failure? ==>
      out == JStr(RetrievalErrorMessage) && calls == [Retrieve]
    ensures userQuery != "" && retriever.RunResult(userQuery, RunContext).Success? ==>
      var context := Formatted(retriever.RunResult(userQuery, RunContext).value, storageAccount, container);
      && calls == [Retrieve, Answer]
      && (llm.answer(userQuery, context).Failure? ==> out == JStr(ChainErrorMessage))
      && (llm.answer(userQuery, context).Success? ==>
            out == ExtractDictionary(decode, llm.answer(userQuery, context).value))
  {
    calls := [];
    if |userQuery| == 0 {
      return JStr(EmptyQueryMessage), calls;
    }
    calls := calls + [Retrieve];
    var documents := retriever.Run(userQuery, RunContext);
    if documents.Failure? {
      return JStr(RetrievalErrorMessage), calls;
    }
    var context := FormatDocs(documents.value, storageAccount, container);

    calls := calls + [Answer];
    var result := llm.answer(userQuery, context);
    if result.Failure? {
      return JStr(ChainErrorMessage), calls;
    }
    out := ExtractDictionary(decode, result.value);
  }
}
