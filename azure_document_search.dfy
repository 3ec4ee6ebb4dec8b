/**
 * Retrieval request planning for the Azure AI Search backend: the retrieval flags
 * derived from the overrides, the category filter, the vector query, the choice
 * between a semantic and a plain search, and the 1:1 mapping of the backend's hits
 * into documents. The search and embedding services are collaborators given to the
 * client; only what is sent to them and what is made of their replies is modelled.
 */
module AzureDocumentSearch {
  import opened PyValues
  import opened PyStrings

  // ---------------------------------------------------------------------------
  // nonewlines

  /** `nonewlines`: every line feed and carriage return becomes a space. */
  function NoNewlines(s: string): (r: string)
    ensures |r| == |s|
    ensures '\n' !in r && '\r' !in r
    ensures forall i :: 0 <= i < |s| && s[i] != '\n' && s[i] != '\r' ==> r[i] == s[i]
    ensures forall i :: 0 <= i < |s| && (s[i] == '\n' || s[i] == '\r') ==> r[i] == ' '
  {
    var r := ReplaceChar(ReplaceChar(s, '\n', ' '), '\r', ' ');
    assert forall i :: 0 <= i < |r| ==> r[i] != '\n' && r[i] != '\r';
    r
  }

  /** Applying `nonewlines` twice changes nothing more; strings without line breaks are kept. */
  lemma NoNewlinesIdempotent(s: string)
    ensures NoNewlines(NoNewlines(s)) == NoNewlines(s)
    ensures '\n' !in s && '\r' !in s ==> NoNewlines(s) == s
  {
  }

  // ---------------------------------------------------------------------------
  // Documents

  /** An embedding vector; its floating-point contents are never reasoned about. */
  type Vector = seq<real>

  /** `SourceDocument`: the six fields read from one search hit (None where the hit has none). */
  datatype SourceDocument = SourceDocument(
    id: Option<string>,
    content: Option<string>,
    embedding: Option<Vector>,
    category: Option<string>,
    sourcepage: Option<string>,
    sourcefile: Option<string>)

  datatype Metadata = Metadata(
    source: Option<string>,
    sourcepage: Option<string>,
    category: Option<string>,
    embeddings: Option<Vector>)

  /** The document type the rest of the pipeline consumes. */
  datatype Document = Document(pageContent: Option<string>, metadata: Metadata)

  /** `SourceDocument.document_store`. */
  function DocumentStore(d: SourceDocument): Document {
    Document(d.content, Metadata(d.sourcefile, d.sourcepage, d.category, d.embedding))
  }

  /** One document per hit, in the hits' order, with the hit's fields carried over. */
  function StoreAll(hits: seq<SourceDocument>): (docs: seq<Document>)
    ensures |docs| == |hits|
    ensures forall i :: 0 <= i < |hits| ==>
      && docs[i].pageContent == hits[i].content
      && docs[i].metadata.source == hits[i].sourcefile
      && docs[i].metadata.sourcepage == hits[i].sourcepage
      && docs[i].metadata.category == hits[i].category
      && docs[i].metadata.embeddings == hits[i].embedding
  {
    seq(|hits|, i requires 0 <= i < |hits| => DocumentStore(hits[i]))
  }

  lemma StoreAllSnoc(hits: seq<SourceDocument>, h: SourceDocument)
    ensures StoreAll(hits + [h]) == StoreAll(hits) + [DocumentStore(h)]
  {
  }

  /** The hits of all pages, page after page. */
  function Flatten(pages: seq<seq<SourceDocument>>): seq<SourceDocument> {
    if pages == [] then [] else Flatten(pages[..|pages| - 1]) + pages[|pages| - 1]
  }

  // ---------------------------------------------------------------------------
  // build_filter

  /** `replace("'", "''")`: every single quote doubled. */
  function EscapeQuotes(s: string): (r: string)
    ensures |r| == |s| + Count(s, '\'')
  {
    if s == [] then []
    else if s[0] == '\'' then "''" + EscapeQuotes(s[1..])
    else [s[0]] + EscapeQuotes(s[1..])
  }

  /**
   * Reads the body of an OData string literal: `''` stands for one quote and a lone
   * quote is not allowed (OData Version 4.01 Part 2, URL Conventions, string literals).
   */
  function UnescapeQuotes(body: string): Option<string> {
    if body == [] then Some([])
    else if body[0] == '\'' then
      if |body| >= 2 && body[1] == '\'' then
        match UnescapeQuotes(body[2..])
        case Some(rest) => Some("'" + rest)
        case None => None
      else None
    else
      match UnescapeQuotes(body[1..])
      case Some(rest) => Some([body[0]] + rest)
      case None => None
  }

  /** The escaped text is a well-formed literal body that reads back as the original. */
  lemma {:induction false} UnescapeEscape(s: string)
    ensures UnescapeQuotes(EscapeQuotes(s)) == Some(s)
  {
    if s != [] {
      UnescapeEscape(s[1..]);
      var e := EscapeQuotes(s);
      if s[0] == '\'' {
        assert e[2..] == EscapeQuotes(s[1..]);
      } else {
        assert e[1..] == EscapeQuotes(s[1..]);
      }
      assert s == [s[0]] + s[1..];
    }
  }

  const CategoryClausePrefix := "category ne '"

  /** The one clause `build_filter` can produce for an excluded category. */
  function ExcludeCategoryClause(category: string): string {
    CategoryClausePrefix + EscapeQuotes(category) + "'"
  }

  /** Reads a clause `category ne '<literal>'` back into the category it excludes. */
  function ParseExcludeCategory(filter: string): Option<string> {
    var n := |CategoryClausePrefix|;
    if |filter| >= n + 1 && filter[..n] == CategoryClausePrefix && filter[|filter| - 1] == '\''
    then UnescapeQuotes(filter[n..|filter| - 1])
    else None
  }

  /**
   * `build_filter`: None when "exclude_category" is absent or falsy, otherwise the
   * clauses joined by " and ". A truthy non-string category has no `.replace`.
   */
  function BuildFilter(overrides: map<string, Json>): (r: Result<Option<string>, PyError>)
    ensures r == Success(None) <==> !Truthy(Get(overrides, "exclude_category"))
    ensures r.Failure? <==> Truthy(Get(overrides, "exclude_category")) && !Get(overrides, "exclude_category").JStr?
    ensures r.Success? && r.value.Some? ==>
      var category := Get(overrides, "exclude_category").s;
      && category != ""
      && r.value.value == "category ne '" + EscapeQuotes(category) + "'"
      && ParseExcludeCategory(r.value.value) == Some(category)
  {
    var excludeCategory := Get(overrides, "exclude_category");
    var filters: Result<seq<string>, PyError> :=
      if !Truthy(excludeCategory) then Success([])
      else if excludeCategory.JStr? then Success([ExcludeCategoryClause(excludeCategory.s)])
      else Failure(AttributeError);
    match filters
    case Failure(e) => Failure(e)
    case Success(clauses) =>
      if |clauses| == 0 then Success(None)
      else
        var filter := Join(clauses, " and ");
        ParseClause(excludeCategory.s);
        Success(Some(filter))
  }

  lemma ParseClause(category: string)
    ensures ParseExcludeCategory(ExcludeCategoryClause(category)) == Some(category)
  {
    var f := ExcludeCategoryClause(category);
    var n := |CategoryClausePrefix|;
    assert f[..n] == CategoryClausePrefix;
    assert f[n..|f| - 1] == EscapeQuotes(category);
    UnescapeEscape(category);
  }

  // ---------------------------------------------------------------------------
  // run: the flags

  /** What `run` derives from the overrides before it queries the backend. */
  datatype RetrievalFlags = RetrievalFlags(
    hasText: bool,
    hasVector: bool,
    useSemanticRanker: bool,
    useSemanticCaptions: bool,
    top: Json)

  /** Whether `overrides.get("retrieval_mode")` is one of the given values. */
  predicate ModeIn(overrides: map<string, Json>, modes: seq<Json>) {
    Get(overrides, "retrieval_mode") in modes
  }

  /** The overrides set the retrieval mode to the given name. */
  predicate NamesMode(overrides: map<string, Json>, name: string) {
    "retrieval_mode" in overrides && overrides["retrieval_mode"] == JStr(name)
  }

  /** An absent (or None) retrieval mode, which enables both kinds of search. */
  predicate DefaultMode(overrides: map<string, Json>) {
    "retrieval_mode" !in overrides || overrides["retrieval_mode"] == JNull
  }

  /** The flag derivation at the start of `run`. */
  function Flags(overrides: map<string, Json>): (f: RetrievalFlags)
    ensures f.hasText <==> NamesMode(overrides, "text") || NamesMode(overrides, "hybrid") || DefaultMode(overrides)
    ensures f.hasVector <==> NamesMode(overrides, "vectors") || NamesMode(overrides, "hybrid") || DefaultMode(overrides)
    ensures f.useSemanticRanker <==> f.hasText && Truthy(Get(overrides, "semantic_ranker"))
    ensures f.useSemanticCaptions <==> f.hasText && Truthy(Get(overrides, "semantic_captions"))
    ensures "top" !in overrides ==> f.top == JNum(3.0)
    ensures "top" in overrides ==> f.top == overrides["top"]
  {
    var hasText := ModeIn(overrides, [JStr("text"), JStr("hybrid"), JNull]);
    var hasVector := ModeIn(overrides, [JStr("vectors"), JStr("hybrid"), JNull]);
    RetrievalFlags(
      hasText,
      hasVector,
      Truthy(Get(overrides, "semantic_ranker")) && hasText,
      Truthy(Get(overrides, "semantic_captions")) && hasText,
      GetOr(overrides, "top", JNum(3.0)))
  }

  /** A retrieval mode outside text, vectors and hybrid turns both kinds of search off. */
  lemma UnknownModeSearchesNothing(overrides: map<string, Json>)
    requires "retrieval_mode" in overrides && overrides["retrieval_mode"] != JNull
    requires !NamesMode(overrides, "text") && !NamesMode(overrides, "vectors") && !NamesMode(overrides, "hybrid")
    ensures !Flags(overrides).hasText && !Flags(overrides).hasVector
    ensures !Flags(overrides).useSemanticRanker && !Flags(overrides).useSemanticCaptions
  {
  }

  /** `context.get("overrides", {})`, which must be a dict for `.get` to work on it. */
  function OverridesOf(context: map<string, Json>): (r: Result<map<string, Json>, PyError>)
    ensures "overrides" !in context ==> r == Success(map[])
    ensures "overrides" in context ==> (r.Success? <==> context["overrides"].JObj?)
    ensures r.Success? && "overrides" in context ==> r.value == context["overrides"].fields
  {
    match GetOr(context, "overrides", JObj(map[]))
    case JObj(overrides) => Success(overrides)
    case _ => Failure(AttributeError)
  }

  // ---------------------------------------------------------------------------
  // Requests to the services

  /** A nearest-neighbour query on a vector field. */
  datatype VectorQuery = VectorQuery(vector: Vector, kNearestNeighbors: nat, fields: string)

  /** A call of the embeddings service: the model (or deployment) and the input text. */
  datatype EmbeddingRequest = EmbeddingRequest(model: string, input: string)

  /** The options that only the semantic branch of `search` sends. */
  datatype SemanticOptions = SemanticOptions(configurationName: string, queryCaption: Option<string>)

  /** A call of the search service, with the keyword arguments `search` passes. */
  datatype SearchRequest = SearchRequest(
    searchText: string,
    filter: Option<string>,
    semantic: Option<SemanticOptions>,
    top: Json,
    vectorQueries: seq<VectorQuery>)

  const SemanticConfiguration := "default"
  const ExtractiveCaption := "extractive|highlight-false"

  /** The branch choice at the head of `search`. */
  function SearchRequestFor(top: Json, queryText: Option<string>, filter: Option<string>,
                            vectors: seq<VectorQuery>, useSemanticRanker: bool,
                            useSemanticCaptions: bool): (req: SearchRequest)
    // semantic ranking exactly when requested and there is a non-empty text query
    ensures req.semantic.Some? <==> useSemanticRanker && queryText.Some? && queryText.value != ""
    ensures req.semantic.Some? ==> req.semantic.value.configurationName == "default"
    // captions only in the semantic branch, and there only when requested
    ensures req.semantic.Some? ==>
      req.semantic.value.queryCaption == (if useSemanticCaptions then Some("extractive|highlight-false") else None)
    // the text sent is the query, or "" when there is none
    ensures req.searchText == (if queryText.Some? then queryText.value else "")
    ensures req.filter == filter && req.top == top && req.vectorQueries == vectors
  {
    if useSemanticRanker && queryText.Some? && queryText.value != "" then
      SearchRequest(queryText.value, filter,
                    Some(SemanticOptions(SemanticConfiguration,
                                         if useSemanticCaptions then Some(ExtractiveCaption) else None)),
                    top, vectors)
    else
      SearchRequest(if queryText.Some? then queryText.value else "", filter, None, top, vectors)
  }

  /** Everything `run` settles before it calls `search`. */
  datatype RunPlan = RunPlan(
    flags: RetrievalFlags,
    filter: Option<string>,
    vectors: seq<VectorQuery>,
    queryText: Option<string>)

  /** The search request a plan leads to. */
  function RequestOf(plan: RunPlan): SearchRequest {
    SearchRequestFor(plan.flags.top, plan.queryText, plan.filter, plan.vectors,
                     plan.flags.useSemanticRanker, plan.flags.useSemanticCaptions)
  }

  /** Pages of hits, as the search service returns them for one request. */
  type Pages = seq<seq<SourceDocument>>

  // ---------------------------------------------------------------------------
  // The client

  /** `AzureAISearchClient`: the two service clients and the embedding configuration. */
  class AzureAISearchClient {
    const searchClient: SearchRequest -> Result<Pages, PyError>
    const openaiClient: EmbeddingRequest -> Result<seq<Vector>, PyError>
    const embeddingDeployment: Option<string>
    const embeddingModel: string
    const openaiHost: string

    constructor (searchClient: SearchRequest -> Result<Pages, PyError>,
                 openaiClient: EmbeddingRequest -> Result<seq<Vector>, PyError>,
                 embeddingDeployment: Option<string>, embeddingModel: string, openaiHost: string)
      ensures this.searchClient == searchClient && this.openaiClient == openaiClient
      ensures this.embeddingDeployment == embeddingDeployment && this.embeddingModel == embeddingModel
      ensures this.openaiHost == openaiHost
    {
      this.searchClient := searchClient;
      this.openaiClient := openaiClient;
      this.embeddingDeployment := embeddingDeployment;
      this.embeddingModel := embeddingModel;
      this.openaiHost := openaiHost;
    }

    /** The model named in the embeddings call: the deployment if one is set, else the model. */
    function EmbeddingModelName(): (name: string)
      ensures embeddingDeployment.Some? && embeddingDeployment.value != "" ==> name == embeddingDeployment.value
      ensures embeddingDeployment.None? || embeddingDeployment.value == "" ==> name == embeddingModel
    {
      if embeddingDeployment.Some? && embeddingDeployment.value != "" then embeddingDeployment.value
      else embeddingModel
    }

    /**
     * `compute_text_embedding`: the first embedding returned for the text, as a
     * 50-nearest-neighbour query on the "embedding" field.
     */
    function TextEmbeddingQuery(q: string): (r: Result<VectorQuery, PyError>)
      ensures var reply := openaiClient(EmbeddingRequest(EmbeddingModelName(), q));
        && (r.Success? <==> reply.Success? && |reply.value| > 0)
        && (reply.Success? && |reply.value| == 0 ==> r == Failure(IndexError))
        && (r.Success? ==> r.value == VectorQuery(reply.value[0], 50, "embedding"))
    {
      match openaiClient(EmbeddingRequest(EmbeddingModelName(), q))
      case Failure(e) => Failure(e)
      case Success(data) =>
        if |data| == 0 then Failure(IndexError) else Success(VectorQuery(data[0], 50, "embedding"))
    }

    /** What `search` returns for a request: one document per hit, over all pages. */
    function SearchResult(req: SearchRequest): Result<seq<Document>, PyError> {
      match searchClient(req)
      case Failure(e) => Failure(e)
      case Success(pages) => Success(StoreAll(Flatten(pages)))
    }

    /** `search`: sends the request of the chosen branch and collects the hits page by page. */
    method Search(top: Json, queryText: Option<string>, filter: Option<string>, vectors: seq<VectorQuery>,
                  useSemanticRanker: bool, useSemanticCaptions: bool)
      returns (r: Result<seq<Document>, PyError>)
      ensures r == SearchResult(SearchRequestFor(top, queryText, filter, vectors, useSemanticRanker, useSemanticCaptions))
    {
      var request := SearchRequestFor(top, queryText, filter, vectors, useSemanticRanker, useSemanticCaptions);
      var results := searchClient(request);
      if results.Failure? {
        return Failure(results.error);
      }
      var pages := results.value;
      var documents: seq<Document> := [];
      for p := 0 to |pages|
        invariant documents == StoreAll(Flatten(pages[..p]))
      {
        var page := pages[p];
        for i := 0 to |page|
          invariant documents == StoreAll(Flatten(pages[..p]) + page[..i])
        {
          StoreAllSnoc(Flatten(pages[..p]) + page[..i], page[i]);
          assert page[..i + 1] == page[..i] + [page[i]];
          documents := documents + [DocumentStore(page[i])];
        }
        assert pages[..p + 1][..p] == pages[..p];
        assert page[..|page|] == page;
      }
      assert pages[..|pages|] == pages;
      r := Success(documents);
    }

    /** Everything `run` computes before the search, or the exception it stops at. */
    function PlanRun(message: string, context: map<string, Json>): (r: Result<RunPlan, PyError>)
      // the stages that can fail: overrides that are not a dict, the filter, the embedding
      ensures r.Success? <==>
        && OverridesOf(context).Success?
        && BuildFilter(OverridesOf(context).value).Success?
        && (Flags(OverridesOf(context).value).hasVector ==> TextEmbeddingQuery(message).Success?)
      ensures r.Success? ==>
        var overrides := OverridesOf(context).value;
        && r.value.flags == Flags(overrides)
        && r.value.filter == BuildFilter(overrides).value
        // exactly one vector query, the message's embedding, iff vector search is on
        && |r.value.vectors| == (if r.value.flags.hasVector then 1 else 0)
        && (r.value.flags.hasVector ==> r.value.vectors[0] == TextEmbeddingQuery(message).value)
        // the message is the text query iff text search is on
        && r.value.queryText == (if r.value.flags.hasText then Some(message) else None)
    {
      match OverridesOf(context)
      case Failure(e) => Failure(e)
      case Success(overrides) =>
        var flags := Flags(overrides);
        match BuildFilter(overrides)
        case Failure(e) => Failure(e)
        case Success(filter) =>
          var queryText := if flags.hasText then Some(message) else None;
          if flags.hasVector then
            match TextEmbeddingQuery(message)
            case Failure(e) => Failure(e)
            case Success(q) => Success(RunPlan(flags, filter, [q], queryText))
          else Success(RunPlan(flags, filter, [], queryText))
    }

    /** What `run` returns. */
    function RunResult(message: string, context: map<string, Json>): Result<seq<Document>, PyError> {
      match PlanRun(message, context)
      case Failure(e) => Failure(e)
      case Success(plan) => SearchResult(RequestOf(plan))
    }

    /** `run`: derives the flags and the filter, adds the vector query if any, and searches. */
    method Run(message: string, context: map<string, Json>) returns (r: Result<seq<Document>, PyError>)
      ensures r == RunResult(message, context)
    {
      var found := OverridesOf(context);
      if found.Failure? {
        return Failure(found.error);
      }
      var overrides := found.value;
      var flags := Flags(overrides);
      var filter := BuildFilter(overrides);
      if filter.Failure? {
        return Failure(filter.error);
      }
      var vectors: seq<VectorQuery> := [];
      if flags.hasVector {
        var query := TextEmbeddingQuery(message);
        if query.Failure? {
          return Failure(query.error);
        }
        vectors := vectors + [query.value];
        assert vectors == [query.value];
      }
      var queryText := if flags.hasText then Some(message) else None;
      assert PlanRun(message, context) == Success(RunPlan(flags, filter.value, vectors, queryText));
      r := Search(flags.top, queryText, filter.value, vectors, flags.useSemanticRanker, flags.useSemanticCaptions);
    }
  }
}
