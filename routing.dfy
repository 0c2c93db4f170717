/** The agent modes, the table that sends each mode to its backend
    endpoint, the request posted there, and the texts built from a failed
    request (frontend/main.py and frontend/api.py define all of these the
    same way). */
module Routing {
  import opened Optional
  import opened Papers

  /** `AgentMode`. */
  datatype AgentMode = AutoAgent | WebSearch | DbQuery | QaMode | FutureAnalysis

  /** The mode a shown label stands for, if it stands for one. */
  function ModeOfLabel(value: string): Option<AgentMode>
  {
    if value == "Auto Agent" then Some(AutoAgent)
    else if value == "Web Search" then Some(WebSearch)
    else if value == "DB Query" then Some(DbQuery)
    else if value == "QA Mode" then Some(QaMode)
    else if value == "Future works/analysis" then Some(FutureAnalysis)
    else None
  }

  /** The enum member's value: the text the sidebar radio shows for the
      mode (its `format_func`) and the mode named in each caption. The mode
      is found again from it. */
  function Label(mode: AgentMode): (r: string)
    ensures ModeOfLabel(r) == Some(mode)
  {
    match mode
    case AutoAgent => "Auto Agent"
    case WebSearch =>
      assert "Web Search"[0] != "Auto Agent"[0];
      "Web Search"
    case DbQuery => "DB Query"
    case QaMode => "QA Mode"
    case FutureAnalysis => "Future works/analysis"
  }

  /** Two modes share a label only when they are the same mode, so the
      radio and the captions never show two modes under the same text. */
  lemma LabelsDistinct(m1: AgentMode, m2: AgentMode)
    ensures Label(m1) == Label(m2) <==> m1 == m2
  {
    if Label(m1) == Label(m2) {
      assert Some(m1) == ModeOfLabel(Label(m2));
    }
  }

  const API_BASE_URL := "http://localhost:8000"

  /** The endpoint table of `make_agent_api_call`. */
  const ENDPOINTS: map<AgentMode, string> := map[
    AutoAgent := "/api/auto-agent",
    WebSearch := "/api/web-search",
    DbQuery := "/api/db-query",
    QaMode := "/api/qa",
    FutureAnalysis := "/api/future-analysis"]

  /** `endpoints[mode]`: every mode has an entry, so the lookup never fails. */
  function Endpoint(mode: AgentMode): (path: string)
    ensures path in ENDPOINTS.Values
  {
    assert mode.AutoAgent? || mode.WebSearch? || mode.DbQuery? || mode.QaMode? || mode.FutureAnalysis?;
    ENDPOINTS[mode]
  }

  /** The mode an endpoint path serves, if any. */
  function ModeOfEndpoint(path: string): Option<AgentMode>
  {
    if path == "/api/auto-agent" then Some(AutoAgent)
    else if path == "/api/web-search" then Some(WebSearch)
    else if path == "/api/db-query" then Some(DbQuery)
    else if path == "/api/qa" then Some(QaMode)
    else if path == "/api/future-analysis" then Some(FutureAnalysis)
    else None
  }

  /** Every mode's endpoint leads back to that mode. */
  lemma EndpointRoundTrip(mode: AgentMode)
    ensures ModeOfEndpoint(Endpoint(mode)) == Some(mode)
  {
    match mode
    case AutoAgent =>
    case WebSearch =>
      assert "/api/web-search"[5] != "/api/auto-agent"[5];
    case DbQuery =>
    case QaMode =>
    case FutureAnalysis =>
  }

  /** The table is total over the five modes and no two modes share an
      endpoint. */
  lemma EndpointsTotalAndDistinct()
    ensures forall mode: AgentMode :: mode in ENDPOINTS
    ensures forall m1: AgentMode, m2: AgentMode :: ENDPOINTS[m1] == ENDPOINTS[m2] ==> m1 == m2
  {
    forall mode: AgentMode ensures mode in ENDPOINTS {
      assert mode.AutoAgent? || mode.WebSearch? || mode.DbQuery? || mode.QaMode? || mode.FutureAnalysis?;
    }
    forall m1: AgentMode, m2: AgentMode | ENDPOINTS[m1] == ENDPOINTS[m2] ensures m1 == m2 {
      EndpointRoundTrip(m1);
      EndpointRoundTrip(m2);
    }
  }

  /** The JSON body of every request: the prompt and `max_results`. */
  datatype RequestBody = RequestBody(prompt: string, maxResults: int)

  datatype Request = Request(url: string, body: RequestBody)

  const MAX_RESULTS := 5

  /** The POST `make_agent_api_call` sends for a mode and a prompt: to the
      base URL followed by an endpoint that leads back to the mode, with the
      prompt verbatim and `max_results` 5 whatever the mode. */
  function BuildRequest(mode: AgentMode, prompt: string): (r: Request)
    ensures API_BASE_URL <= r.url
    ensures ModeOfEndpoint(r.url[|API_BASE_URL|..]) == Some(mode)
    ensures r.body == RequestBody(prompt, 5)
  {
    EndpointRoundTrip(mode);
    assert (API_BASE_URL + Endpoint(mode))[|API_BASE_URL|..] == Endpoint(mode);
    Request(API_BASE_URL + Endpoint(mode), RequestBody(prompt, MAX_RESULTS))
  }

  /** The request identifies the mode and the prompt: different modes or
      prompts give different requests. */
  lemma RequestDeterminesModeAndPrompt(m1: AgentMode, p1: string, m2: AgentMode, p2: string)
    ensures BuildRequest(m1, p1) == BuildRequest(m2, p2) <==> m1 == m2 && p1 == p2
  {
    if BuildRequest(m1, p1) == BuildRequest(m2, p2) {
      assert Some(m1) == ModeOfEndpoint(BuildRequest(m1, p1).url[|API_BASE_URL|..]);
      assert p1 == BuildRequest(m1, p1).body.prompt;
    }
  }

  /** What the HTTP call gives back: the decoded JSON of a successful
      response, or the text of the request exception. */
  datatype HttpOutcome = Ok(json: Json) | Failure(message: string)

  const API_ERROR_PREFIX := "API Error: "

  /** The value stored in `api_error` after a failed request: the prefix
      followed by the whole exception text. */
  function ApiErrorText(message: string): (r: string)
    ensures API_ERROR_PREFIX <= r && r[|API_ERROR_PREFIX|..] == message
  {
    assert (API_ERROR_PREFIX + message)[|API_ERROR_PREFIX|..] == message;
    API_ERROR_PREFIX + message
  }

  const ERROR_PREFIX := "Error processing request. Please try again later. ("

  /** The string `make_agent_api_call` returns after a failed request. It
      keeps the whole exception text: it can be read back. */
  function ErrorReplyText(message: string): (r: string)
    ensures ERROR_PREFIX <= r
    ensures ErrorMessageOf(r) == Some(message)
  {
    var r := ERROR_PREFIX + message + ")";
    assert r[|ERROR_PREFIX|..|r| - 1] == message;
    r
  }

  /** The exception text inside an error reply, if the text is one. */
  function ErrorMessageOf(reply: string): Option<string>
  {
    if |reply| >= |ERROR_PREFIX| + 1 && ERROR_PREFIX <= reply && reply[|reply| - 1] == ')'
    then Some(reply[|ERROR_PREFIX|..|reply| - 1])
    else None
  }
}
