/** frontend/api.py's `make_agent_api_call`: the same endpoint table and
    request as the chat page, but the reply is post-processed by mode:
    web-search results are formatted, anything else is passed through. */
module Api {
  import opened Optional
  import opened Papers
  import opened Routing
  import opened Chat

  /** What the call gives back. */
  datatype ApiReply =
    | Markdown(text: string)     // web-search results run through the formatter
    | Passthrough(json: Json)    // the decoded JSON, unchanged
    | ErrorString(text: string)  // the message returned after a request failure
    | FormatterRaised            // in web-search mode a JSON value that is not an array
                                 // makes the formatter raise, and nothing catches it

  /** The reply for a mode and the outcome of its request: an error string
      exactly when the request failed, carrying the exception text; the JSON
      unchanged exactly when it succeeded outside web search; and Markdown
      exactly for an array in web search, empty only for an empty array. */
  function ApiReplyFor(mode: AgentMode, outcome: HttpOutcome): (r: ApiReply)
    ensures r.ErrorString? <==> outcome.Failure?
    ensures outcome.Failure? ==> ErrorMessageOf(r.text) == Some(outcome.message)
    ensures r.Passthrough? <==> outcome.Ok? && mode != WebSearch
    ensures r.Markdown? <==> outcome.Ok? && mode == WebSearch && outcome.json.PaperArray?
    ensures r.Markdown? ==> (r.text == "" <==> outcome.json.papers == [])
  {
    match outcome
    case Failure(message) => ErrorString(ErrorReplyText(message))
    case Ok(json) =>
      if mode == WebSearch then
        (match json
         case PaperArray(papers) => Markdown(FormattedResults(papers))
         case OtherValue(_) => FormatterRaised)
      else Passthrough(json)
  }

  /** A successful response is passed through unchanged exactly when the
      mode is not web search; in web search an array of results comes back
      formatted. */
  lemma ModeSwitch(mode: AgentMode, json: Json)
    ensures ApiReplyFor(mode, Ok(json)) == Passthrough(json) <==> mode != WebSearch
    ensures mode == WebSearch && json.PaperArray? ==>
      ApiReplyFor(mode, Ok(json)) == Markdown(FormattedResults(json.papers))
  {
  }

  /** A failed request gives the same error string in every mode, and the
      exception text can be read back from it. */
  lemma FailureReply(mode: AgentMode, message: string)
    ensures ApiReplyFor(mode, Failure(message)) == ErrorString(ErrorReplyText(message))
    ensures ErrorMessageOf(ApiReplyFor(mode, Failure(message)).text) == Some(message)
  {
  }

  /** In web-search mode this module and the chat page show the same text
      for a failure and for a non-empty array of results; for an empty
      array this module gives "" where the chat page shows "[]". */
  lemma AgreesWithChatPage(outcome: HttpOutcome)
    ensures outcome.Failure? ==>
      ApiReplyFor(WebSearch, outcome) == ErrorString(DisplayText(ChatReply(outcome)))
    ensures outcome.Ok? && outcome.json.PaperArray? && outcome.json.papers != [] ==>
      ApiReplyFor(WebSearch, outcome) == Markdown(DisplayText(ChatReply(outcome)))
    ensures outcome == Ok(PaperArray([])) ==>
      ApiReplyFor(WebSearch, outcome) == Markdown("") && DisplayText(ChatReply(outcome)) == "[]"
  {
  }

  /** `make_agent_api_call`, with the HTTP call as a parameter and the
      session whose `api_error` a failure sets. */
  method MakeAgentApiCall(session: Session, mode: AgentMode, prompt: string,
                          post: Request -> HttpOutcome)
    returns (reply: ApiReply)
    modifies session`apiError
    ensures reply == ApiReplyFor(mode, post(BuildRequest(mode, prompt)))
    ensures session.apiError == ErrorAfterCall(old(session.apiError), post(BuildRequest(mode, prompt)))
  {
    var endpoint := Endpoint(mode);
    var outcome := post(Request(API_BASE_URL + endpoint, RequestBody(prompt, MAX_RESULTS)));
    match outcome
    case Failure(message) =>
      session.apiError := Present(Some(ApiErrorText(message)));
      reply := ErrorString(ErrorReplyText(message));
    case Ok(jsonResponse) =>
      if mode == WebSearch {
        match jsonResponse
        case PaperArray(papers) =>
          var formatted := FormatArxivResults(papers);
          reply := Markdown(formatted);
        case OtherValue(_) =>
          reply := FormatterRaised;
      } else {
        reply := Passthrough(jsonResponse);
      }
  }
}
