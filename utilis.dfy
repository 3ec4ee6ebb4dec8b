/**
 * Result extraction: turns the pipeline's output (a decoded dict, or any other
 * value such as a plain string) into the reply shown to the user and its list of
 * source urls.
 */
module Utilis {
  import opened PyValues
  import opened PyStrings

  const NoInformationFound := "No information found"
  const UnableToProcess := "I am unable to process any information right now. Please rephrase."

  /** The pair `(reply, urls)` that `response_handler` returns. */
  datatype Reply = Reply(reply: Json, urls: seq<string>)

  /**
   * `response_handler`. A dict yields its "answer" (defaulted, and replaced when
   * empty) and its "sources" split on commas; any other value is the reply itself.
   * `len()` of an answer without a length and `.split` of a non-string "sources"
   * raise, and nothing in `response_handler` catches them.
   */
  function ResponseHandler(genResponse: Json): (r: Result<Reply, PyError>)
    // a value that is not a dict is returned unchanged, with no urls
    ensures !genResponse.JObj? ==> r == Success(Reply(genResponse, []))
    // the only failures: an answer without a length, or sources that are not a string
    ensures genResponse.JObj? ==>
      var d := genResponse.fields;
      (r.Failure? <==> ("answer" in d && PyLen(d["answer"]).None?)
                       || ("sources" in d && !d["sources"].JStr?))
    // the reply of a dict
    ensures genResponse.JObj? && r.Success? ==>
      var d := genResponse.fields;
      && ("answer" !in d ==> r.value.reply == JStr(NoInformationFound))
      && ("answer" in d && PyLen(d["answer"]) == Some(0) ==> r.value.reply == JStr(UnableToProcess))
      && ("answer" in d && PyLen(d["answer"]) != Some(0) ==> r.value.reply == d["answer"])
    // a dict whose answer is absent or a string never yields an empty reply
    ensures genResponse.JObj? && r.Success? &&
            ("answer" in genResponse.fields ==> genResponse.fields["answer"].JStr?) ==>
      r.value.reply.JStr? && r.value.reply.s != ""
    // the urls of a dict: none without sources; otherwise the comma-separated
    // pieces, which join back to the sources and number one more than its commas
    ensures genResponse.JObj? && r.Success? && "sources" !in genResponse.fields ==> r.value.urls == []
    ensures genResponse.JObj? && r.Success? && "sources" in genResponse.fields ==>
      var sources := genResponse.fields["sources"].s;
      && Join(r.value.urls, ",") == sources
      && |r.value.urls| == Count(sources, ',') + 1
      && (forall i :: 0 <= i < |r.value.urls| ==> ',' !in r.value.urls[i])
      && (sources == "" ==> r.value.urls == [""])
  {
    match genResponse
    case JObj(d) =>
      var answer := GetOr(d, "answer", JStr(NoInformationFound));
      var answerLength := PyLen(answer);
      if answerLength.None? then Failure(TypeError)
      else
        var reply := if answerLength.value == 0 then JStr(UnableToProcess) else answer;
        if "sources" in d then
          match d["sources"]
          case JStr(sources) =>
            var pieces := Split(sources, ',');
            JoinSplit(sources, ',');
            SplitLength(sources, ',');
            SplitPiecesFree(sources, ',');
            // the length test always passes: a split is never empty
            Success(Reply(reply, if |pieces| > 0 then pieces else []))
          case _ => Failure(AttributeError)
        else Success(Reply(reply, []))
    case _ => Success(Reply(genResponse, []))
  }

  /** The example of a well-formed answer: its reply and its three sources. */
  lemma WellFormedAnswer()
    ensures ResponseHandler(JObj(map["answer" := JStr("X"), "sources" := JStr("a,b,c")]))
            == Success(Reply(JStr("X"), ["a", "b", "c"]))
  {
    SplitJoin(["a", "b", "c"], ',');
    assert Join(["a", "b", "c"], [',']) == "a,b,c";
  }
}
