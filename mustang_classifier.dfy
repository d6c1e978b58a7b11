/**
 * The Mustang manual bot's query classifier: the OpenAI chat completion call,
 * the two-way classification, and the response for each category.
 *
 * The OpenAI client is opaque: a `Completion` is what one call returns or the
 * text of what it raises, and `complete` maps the template variables to the
 * outcome of the call on the prompt they format.
 */
module MustangClassifier {
  import opened Outcomes
  import opened Classification

  datatype QueryCategory = FordMustang | OutOfScope

  function Value(c: QueryCategory): string {
    match c
    case FordMustang => "ford_mustang"
    case OutOfScope => "out_of_scope"
  }

  /** `QueryCategory(value)`, with `None` for the `ValueError` any other string raises. */
  function CategoryOf(value: string): (r: Option<QueryCategory>)
    ensures r.Some? <==> value == "ford_mustang" || value == "out_of_scope"
    ensures r.Some? ==> Value(r.value) == value
  {
    if value == "ford_mustang" then Some(FordMustang)
    else if value == "out_of_scope" then Some(OutOfScope)
    else None
  }

  lemma CategoryRoundTrip(c: QueryCategory)
    ensures CategoryOf(Value(c)) == Some(c)
  {
  }

  const OutOfScopeText := "I'm trained to help with questions about Ford's Mustang manuals. How can I assist you with this topic?"
  const OpenAIPrefix := "OpenAI API error: "
  const IndexErrorText := "list index out of range"

  /** The message contents of the returned choices, in order. */
  datatype Completion = Completed(choices: seq<string>) | Failed(detail: string)

  /** `_call_openai`: the first choice's content; an empty choice list and a raising client become `OpenAIError`. */
  function CallOpenAI(c: Completion): (r: Result<string, ClassifierError>)
    ensures r.Err? ==> r.error.ApiError? && |r.error.detail| >= |OpenAIPrefix| && r.error.detail[..|OpenAIPrefix|] == OpenAIPrefix
    ensures r.Ok? <==> c.Completed? && |c.choices| > 0
    ensures r.Ok? ==> r.value == c.choices[0]
  {
    match c
    case Failed(detail) => Err(ApiError(OpenAIPrefix + detail))
    case Completed(choices) =>
      if |choices| == 0 then Err(ApiError(OpenAIPrefix + IndexErrorText)) else Ok(choices[0])
  }

  /** `classify_query` */
  function ClassifyQuery(call: Completion, parse: string -> Option<QueryType>): (r: Result<(QueryCategory, real), ClassifierError>)
    ensures r.Ok? <==> CallOpenAI(call).Ok? && parse(CleanedText(CallOpenAI(call).value)).Some? &&
                       CategoryOf(parse(CleanedText(CallOpenAI(call).value)).value.category).Some?
    ensures r.Ok? ==> parse(CleanedText(CallOpenAI(call).value)) == Some(QueryType(Value(r.value.0), r.value.1))
  {
    var text := CallOpenAI(call);
    if text.Err? then Err(text.error)
    else
      var q := ParseClassification(text.value, parse);
      if q.Err? then Err(q.error)
      else
        var c := CategoryOf(q.value.category);
        if c.None? then Err(InvalidCategory(q.value.category))
        else Ok((c.value, q.value.confidence))
  }

  /** Only the two values are accepted: "OSHA" or "risk_assessment" from a misrouted prompt raise here. */
  lemma UnknownCategoryRaises(call: Completion, parse: string -> Option<QueryType>, q: QueryType)
    requires CallOpenAI(call).Ok? && parse(CleanedText(CallOpenAI(call).value)) == Some(q)
    requires q.category != "ford_mustang" && q.category != "out_of_scope"
    ensures ClassifyQuery(call, parse) == Err(InvalidCategory(q.category))
  {
  }

  /**
   * `get_response`: manual questions are answered from the retrieved nodes,
   * all returned as sources; anything else gets the fixed out-of-scope text.
   */
  method GetResponse(query: string, category: QueryCategory, retrieved: Option<seq<Node>>,
                     complete: map<string, string> -> Completion) returns (r: Result<Response, ClassifierError>)
    ensures category == FordMustang && retrieved.None? ==> r == Err(RetrieveFailed)
    ensures category == FordMustang && retrieved.Some? ==>
      var text := CallOpenAI(complete(TemplateVars(query, retrieved.value)));
      if text.Err? then r == Err(text.error) else r == Ok(Response(text.value, retrieved.value))
    ensures category == OutOfScope ==> r == Ok(Response(OutOfScopeText, []))
  {
    match category
    case FordMustang =>
      if retrieved.None? {
        return Err(RetrieveFailed);
      }
      var nodes := retrieved.value;
      var vars := FillTemplateVars(query, nodes);
      var text := CallOpenAI(complete(vars));
      if text.Err? {
        return Err(text.error);
      }
      return Ok(Response(text.value, nodes));
    case OutOfScope =>
      return Ok(Response(OutOfScopeText, []));
  }
}
