/**
 * The OSHA chatbot's query classifier (`osha-chatbot` and `osha-chatbot-v2`
 * hold identical copies): the Bedrock `converse` call and the extraction of
 * its text, the three-way classification, and the response for each
 * category.
 *
 * The Bedrock client is opaque: a `Converse` value is what one call returns
 * or the text of what it raises. Formatting the prompts from their templates
 * is folded into the call: `complete` maps the template variables to the
 * outcome of the call on the prompt they format.
 */
module OshaClassifier {
  import opened Outcomes
  import opened Classification
  import opened RiskTools

  datatype QueryCategory = Osha | RiskAssessment | OutOfScope

  /** The enum's string values. */
  function Value(c: QueryCategory): string {
    match c
    case Osha => "OSHA"
    case RiskAssessment => "risk_assessment"
    case OutOfScope => "out_of_scope"
  }

  /** `QueryCategory(value)`, with `None` for the `ValueError` any other string raises. */
  function CategoryOf(value: string): (r: Option<QueryCategory>)
    ensures r.Some? <==> value == "OSHA" || value == "risk_assessment" || value == "out_of_scope"
    ensures r.Some? ==> Value(r.value) == value
  {
    if value == "OSHA" then Some(Osha)
    else if value == "risk_assessment" then Some(RiskAssessment)
    else if value == "out_of_scope" then Some(OutOfScope)
    else None
  }

  /** Each category is recovered from its own value. */
  lemma CategoryRoundTrip(c: QueryCategory)
    ensures CategoryOf(Value(c)) == Some(c)
  {
  }

  const OutOfScopeText := "I'm trained to help with OSHA-related questions and risk assessment inquiries. How can I assist you with either of these topics?"
  const BedrockPrefix := "Bedrock API error: "
  /** `str(e)` of the `IndexError` that indexing an empty list raises. */
  const IndexErrorText := "list index out of range"

  // ---------------------------------------------------------------------------
  // `_call_bedrock`
  // ---------------------------------------------------------------------------

  datatype ContentBlock = ContentBlock(text: Option<string>)
  datatype BedrockMessage = BedrockMessage(content: Option<seq<ContentBlock>>)
  datatype BedrockOutput = BedrockOutput(message: Option<BedrockMessage>)
  /** The response dictionary; a missing key is `None`. */
  datatype ConverseResponse = ConverseResponse(output: Option<BedrockOutput>)
  datatype Converse = Answered(response: ConverseResponse) | Failed(detail: string)

  /** The content list `.get("output", {}).get("message", {}).get("content", [{}])` reaches. */
  function Blocks(r: ConverseResponse): seq<ContentBlock> {
    var message := if r.output.Some? then r.output.value.message else None;
    if message.Some? && message.value.content.Some? then message.value.content.value else [ContentBlock(None)]
  }

  /**
   * The text of the first content block, with "" for every missing key; an
   * empty content list and a raising client both become `BedrockError`.
   */
  function CallBedrock(c: Converse): (r: Result<string, ClassifierError>)
    ensures r.Err? ==> r.error.ApiError? && |r.error.detail| >= |BedrockPrefix| && r.error.detail[..|BedrockPrefix|] == BedrockPrefix
    ensures r.Ok? <==> c.Answered? && |Blocks(c.response)| > 0
  {
    match c
    case Failed(detail) => Err(ApiError(BedrockPrefix + detail))
    case Answered(response) =>
      var blocks := Blocks(response);
      if |blocks| == 0 then Err(ApiError(BedrockPrefix + IndexErrorText))
      else Ok(blocks[0].text.GetOr(""))
  }

  /** A response missing the output, the message or the content yields the empty text, not an error. */
  lemma MissingKeysGiveEmptyText(r: ConverseResponse)
    requires r.output.None? || r.output.value.message.None? || r.output.value.message.value.content.None?
    ensures CallBedrock(Answered(r)) == Ok("")
  {
  }

  /** A first block with text yields exactly that text. */
  lemma FirstBlockText(r: ConverseResponse, text: string)
    requires r.output.Some? && r.output.value.message.Some? && r.output.value.message.value.content.Some?
    requires var blocks := r.output.value.message.value.content.value; |blocks| > 0 && blocks[0].text == Some(text)
    ensures CallBedrock(Answered(r)) == Ok(text)
  {
  }

  // ---------------------------------------------------------------------------
  // `classify_query` and `get_response`
  // ---------------------------------------------------------------------------

  /**
   * `classify_query`: the reply to the classification prompt, cleaned and
   * parsed, mapped to a category with its confidence.
   */
  function ClassifyQuery(call: Converse, parse: string -> Option<QueryType>): (r: Result<(QueryCategory, real), ClassifierError>)
    ensures r.Ok? <==> CallBedrock(call).Ok? && parse(CleanedText(CallBedrock(call).value)).Some? &&
                       CategoryOf(parse(CleanedText(CallBedrock(call).value)).value.category).Some?
    ensures r.Ok? ==> parse(CleanedText(CallBedrock(call).value)) == Some(QueryType(Value(r.value.0), r.value.1))
  {
    var text := CallBedrock(call);
    if text.Err? then Err(text.error)
    else
      var q := ParseClassification(text.value, parse);
      if q.Err? then Err(q.error)
      else
        var c := CategoryOf(q.value.category);
        if c.None? then Err(InvalidCategory(q.value.category))
        else Ok((c.value, q.value.confidence))
  }

  /** A parsed category other than the three values raises. */
  lemma UnknownCategoryRaises(call: Converse, parse: string -> Option<QueryType>, q: QueryType)
    requires CallBedrock(call).Ok? && parse(CleanedText(CallBedrock(call).value)) == Some(q)
    requires q.category != "OSHA" && q.category != "risk_assessment" && q.category != "out_of_scope"
    ensures ClassifyQuery(call, parse) == Err(InvalidCategory(q.category))
  {
  }

  /**
   * `get_response`: OSHA questions are answered from the retrieved nodes
   * (`retrieved` is `None` when retrieval raises), which are all returned as
   * sources; risk questions run the tool named "calculate_risk_score"
   * (`runTool` is what calling a tool returns); anything else gets the fixed
   * out-of-scope text.
   */
  method GetResponse(query: string, category: QueryCategory, retrieved: Option<seq<Node>>,
                     complete: map<string, string> -> Converse, runTool: Tool -> string) returns (r: Result<Response, ClassifierError>)
    ensures category == Osha && retrieved.None? ==> r == Err(RetrieveFailed)
    ensures category == Osha && retrieved.Some? ==>
      var text := CallBedrock(complete(TemplateVars(query, retrieved.value)));
      if text.Err? then r == Err(text.error) else r == Ok(Response(text.value, retrieved.value))
    ensures category == RiskAssessment ==> r == Ok(Response(runTool(GetAllTools()[0]), []))
    ensures category == OutOfScope ==> r == Ok(Response(OutOfScopeText, []))
  {
    match category
    case Osha =>
      if retrieved.None? {
        return Err(RetrieveFailed);
      }
      var nodes := retrieved.value;
      var vars := FillTemplateVars(query, nodes);
      var text := CallBedrock(complete(vars));
      if text.Err? {
        return Err(text.error);
      }
      return Ok(Response(text.value, nodes));
    case RiskAssessment =>
      RiskToolFound();
      var tool := FindTool(GetAllTools(), CalculateRiskScore).value;
      return Ok(Response(runTool(tool), []));
    case OutOfScope =>
      return Ok(Response(OutOfScopeText, []));
  }
}
