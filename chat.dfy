/** The chat session of frontend/main.py: the session-state keys
    `messages`, `mode` and `api_error`, and the transitions that
    initialise, extend and clear them. */
module Chat {
  import opened Optional
  import opened Papers
  import opened Routing

  datatype Role = User | Assistant

  /** A chat history entry with its metadata (the mode and timestamp). */
  datatype Message = Message(role: Role, content: string, mode: AgentMode, timestamp: string)

  /** A session-state key: not set yet, or set to a value. */
  datatype Entry<T> = Absent | Present(value: T)

  /** The session-state keys this page uses. */
  datatype State = State(
    messages: Entry<seq<Message>>,
    mode: Entry<AgentMode>,
    apiError: Entry<Option<string>>)

  /** The session state of a new browser session: no key is set. */
  const FRESH := State(Absent, Absent, Absent)

  /** `initialize_session_state`: each key that is not set gets its
      default; a key already set keeps its value. */
  function Initialized(s: State): (r: State)
    ensures r.messages.Present? && r.mode.Present? && r.apiError.Present?
    ensures s.messages.Present? ==> r.messages == s.messages
    ensures s.mode.Present? ==> r.mode == s.mode
    ensures s.apiError.Present? ==> r.apiError == s.apiError
  {
    State(
      if s.messages.Absent? then Present([]) else s.messages,
      if s.mode.Absent? then Present(WebSearch) else s.mode,
      if s.apiError.Absent? then Present(None) else s.apiError)
  }

  /** Initialising twice is the same as initialising once. */
  lemma InitializeTwice(s: State)
    ensures Initialized(Initialized(s)) == Initialized(s)
  {
  }

  /** A new session starts with no messages, in web-search mode, with no
      error. */
  lemma InitializeFresh()
    ensures Initialized(FRESH) == State(Present([]), Present(WebSearch), Present(None))
  {
  }

  /** The "Clear Chat History" button: no messages and no error; the
      mode stays as it was. */
  function Cleared(s: State): (r: State)
    ensures r.messages == Present([]) && r.apiError == Present(None) && r.mode == s.mode
  {
    State(Present([]), s.mode, Present(None))
  }

  /** The value frontend/main.py's `make_agent_api_call` returns: the
      decoded JSON as it is, or, after a failed request, a string from which
      the exception text can be read back. */
  function ChatReply(outcome: HttpOutcome): (r: Json)
    ensures outcome.Ok? ==> r == outcome.json
    ensures outcome.Failure? ==> r.OtherValue? && ErrorMessageOf(r.text) == Some(outcome.message)
  {
    match outcome
    case Ok(json) => json
    case Failure(message) => OtherValue(ErrorReplyText(message))
  }

  /** `api_error` after the call: set from the exception text on a
      failure, untouched otherwise. */
  function ErrorAfterCall(apiError: Entry<Option<string>>, outcome: HttpOutcome): (r: Entry<Option<string>>)
    ensures outcome.Ok? ==> r == apiError
    ensures outcome.Failure? ==>
      && r.Present? && r.value.Some?
      && API_ERROR_PREFIX <= r.value.value
      && r.value.value[|API_ERROR_PREFIX|..] == outcome.message
  {
    match outcome
    case Ok(_) => apiError
    case Failure(message) => Present(Some(ApiErrorText(message)))
  }

  /** `str(response)` for every response that is not a non-empty array. */
  function Str(response: Json): (r: string)
    requires !(response.PaperArray? && response.papers != [])
    ensures response.PaperArray? ==> r == "[]"
    ensures response.OtherValue? ==> r == response.text
    ensures r == "" <==> response == OtherValue("")
  {
    match response
    case PaperArray(_) => "[]"
    case OtherValue(text) => text
  }

  /** The assistant's message text: the formatted results for a non-empty
      array, otherwise `str(response)`. It is empty only for an empty string
      response, and a non-empty array shows its first paper as item 1. */
  function DisplayText(response: Json): (r: string)
    ensures r == "" <==> response == OtherValue("")
    ensures response.PaperArray? && response.papers != [] ==> FormatItem(1, response.papers[0]) <= r
  {
    if response.PaperArray? && response.papers != [] then FormattedResults(response.papers)
    else Str(response)
  }

  /** The formatting step of `handle_user_input`: a non-empty array goes
      through the formatter's loop, anything else through `str`. */
  method FormatResponse(response: Json) returns (formatted: string)
    ensures formatted == DisplayText(response)
  {
    if response.PaperArray? && response.papers != [] {
      formatted := FormatArxivResults(response.papers);
    } else {
      formatted := Str(response);
    }
  }

  /** The assistant's text for each kind of outcome. */
  lemma AssistantTextCases(outcome: HttpOutcome)
    ensures outcome.Ok? && outcome.json.PaperArray? && outcome.json.papers != [] ==>
      DisplayText(ChatReply(outcome)) == FormattedResults(outcome.json.papers)
    ensures outcome == Ok(PaperArray([])) ==> DisplayText(ChatReply(outcome)) == "[]"
    ensures outcome.Ok? && outcome.json.OtherValue? ==>
      DisplayText(ChatReply(outcome)) == outcome.json.text
    ensures outcome.Failure? ==>
      ErrorMessageOf(DisplayText(ChatReply(outcome))) == Some(outcome.message)
  {
  }

  /** `handle_user_input` for one submitted prompt: an empty prompt (or
      none) changes nothing; otherwise the user message with the prompt,
      then the assistant message, both with the current mode and the same
      timestamp, and `api_error` as the call left it. */
  function AfterPrompt(s: State, prompt: string, timestamp: string, outcome: HttpOutcome): (r: State)
    requires s.messages.Present? && s.mode.Present?
    ensures r.messages.Present? && r.mode == s.mode
  {
    if prompt == "" then s
    else
      var mode := s.mode.value;
      var user := Message(User, prompt, mode, timestamp);
      var assistant := Message(Assistant, DisplayText(ChatReply(outcome)), mode, timestamp);
      State(Present(s.messages.value + [user, assistant]), s.mode, ErrorAfterCall(s.apiError, outcome))
  }

  /** A submitted prompt appends exactly two messages and leaves the
      earlier ones as they were. */
  lemma PromptAppendsTwoMessages(s: State, prompt: string, timestamp: string, outcome: HttpOutcome)
    requires s.messages.Present? && s.mode.Present?
    requires prompt != ""
    ensures var before := s.messages.value;
      var after := AfterPrompt(s, prompt, timestamp, outcome).messages.value;
      && |after| == |before| + 2
      && after[..|before|] == before
      && after[|before|] == Message(User, prompt, s.mode.value, timestamp)
      && after[|before| + 1].role == Assistant
      && after[|before| + 1].content == DisplayText(ChatReply(outcome))
      && after[|before| + 1].mode == s.mode.value
      && after[|before| + 1].timestamp == timestamp
  {
  }

  /** A failed request records its exception text in `api_error`; a
      successful one leaves `api_error` alone. */
  lemma PromptErrorRecorded(s: State, prompt: string, timestamp: string, outcome: HttpOutcome)
    requires s.messages.Present? && s.mode.Present?
    requires prompt != ""
    ensures var r := AfterPrompt(s, prompt, timestamp, outcome);
      && (outcome.Failure? ==> r.apiError == Present(Some("API Error: " + outcome.message)))
      && (outcome.Ok? ==> r.apiError == s.apiError)
  {
  }

  /** The history is a sequence of pairs: a user message, then an
      assistant message with the same mode and timestamp. */
  predicate WellPaired(msgs: seq<Message>)
    decreases |msgs|
  {
    |msgs| == 0 ||
    (&& |msgs| >= 2
     && msgs[0].role == User && msgs[1].role == Assistant
     && msgs[0].mode == msgs[1].mode && msgs[0].timestamp == msgs[1].timestamp
     && WellPaired(msgs[2..]))
  }

  lemma {:induction false} WellPairedAppend(msgs: seq<Message>, user: Message, assistant: Message)
    requires WellPaired(msgs)
    requires user.role == User && assistant.role == Assistant
    requires user.mode == assistant.mode && user.timestamp == assistant.timestamp
    ensures WellPaired(msgs + [user, assistant])
    decreases |msgs|
  {
    var xs := msgs + [user, assistant];
    if |msgs| == 0 {
      assert xs == [user, assistant];
      assert xs[2..] == [];
    } else {
      assert xs[0] == msgs[0] && xs[1] == msgs[1];
      assert xs[2..] == msgs[2..] + [user, assistant];
      WellPairedAppend(msgs[2..], user, assistant);
    }
  }

  /** The prompts the user sent, in the order of the history. */
  function Prompts(msgs: seq<Message>): seq<string>
  {
    if |msgs| == 0 then []
    else (if msgs[0].role == User then [msgs[0].content] else []) + Prompts(msgs[1..])
  }

  lemma {:induction false} PromptsAppend(xs: seq<Message>, ys: seq<Message>)
    ensures Prompts(xs + ys) == Prompts(xs) + Prompts(ys)
  {
    if |xs| == 0 {
      assert xs + ys == ys;
    } else {
      assert (xs + ys)[0] == xs[0];
      assert (xs + ys)[1..] == xs[1..] + ys;
      PromptsAppend(xs[1..], ys);
    }
  }

  /** A user message and an assistant reply add exactly the user's text to
      the prompts. */
  lemma {:induction false} PromptsAppendPair(msgs: seq<Message>, user: Message, assistant: Message)
    requires user.role == User && assistant.role == Assistant
    ensures Prompts(msgs + [user, assistant]) == Prompts(msgs) + [user.content]
  {
    PromptsAppend(msgs, [user, assistant]);
    assert [user, assistant][1..] == [assistant];
    assert Prompts([assistant]) == [] by {
      assert [assistant][1..] == [];
    }
  }

  /** One run of `handle_user_input`: what the chat input returned, the
      time, and what the backend answered. */
  datatype Turn = Turn(prompt: string, timestamp: string, outcome: HttpOutcome)

  /** The session state after a series of runs. */
  function Converse(s: State, turns: seq<Turn>): (r: State)
    requires s.messages.Present? && s.mode.Present?
    ensures r.messages.Present? && r.mode == s.mode
    decreases |turns|
  {
    if |turns| == 0 then s
    else Converse(AfterPrompt(s, turns[0].prompt, turns[0].timestamp, turns[0].outcome), turns[1..])
  }

  /** The prompts that were actually submitted (not empty). */
  function Submitted(turns: seq<Turn>): seq<string>
  {
    if |turns| == 0 then []
    else (if turns[0].prompt != "" then [turns[0].prompt] else []) + Submitted(turns[1..])
  }

  /** Over any series of runs the history stays in user/assistant pairs,
      grows by two messages per submitted prompt, and records the submitted
      prompts verbatim and in order after the earlier ones. */
  lemma {:induction false} ConversationHistory(s: State, turns: seq<Turn>)
    requires s.messages.Present? && s.mode.Present?
    requires WellPaired(s.messages.value)
    ensures var r := Converse(s, turns).messages.value;
      && WellPaired(r)
      && |r| == |s.messages.value| + 2 * |Submitted(turns)|
      && Prompts(r) == Prompts(s.messages.value) + Submitted(turns)
    decreases |turns|
  {
    if |turns| > 0 {
      var t := turns[0];
      var s1 := AfterPrompt(s, t.prompt, t.timestamp, t.outcome);
      if t.prompt != "" {
        var mode := s.mode.value;
        var user := Message(User, t.prompt, mode, t.timestamp);
        var assistant := Message(Assistant, DisplayText(ChatReply(t.outcome)), mode, t.timestamp);
        assert s1.messages.value == s.messages.value + [user, assistant];
        WellPairedAppend(s.messages.value, user, assistant);
        PromptsAppendPair(s.messages.value, user, assistant);
      }
      ConversationHistory(s1, turns[1..]);
    }
  }

  /** Clearing leaves a well-paired (empty) history. */
  lemma ClearedIsWellPaired(s: State)
    ensures WellPaired(Cleared(s).messages.value) && Prompts(Cleared(s).messages.value) == []
  {
  }

  /** `st.session_state` for one browser session. */
  class Session {
    var messages: Entry<seq<Message>>
    var mode: Entry<AgentMode>
    var apiError: Entry<Option<string>>

    function Snapshot(): State
      reads this
    {
      State(messages, mode, apiError)
    }

    constructor ()
      ensures Snapshot() == FRESH
    {
      messages, mode, apiError := Absent, Absent, Absent;
    }

    /** `initialize_session_state`. */
    method InitializeSessionState()
      modifies this
      ensures Snapshot() == Initialized(old(Snapshot()))
    {
      if messages.Absent? {
        messages := Present([]);
      }
      if mode.Absent? {
        mode := Present(WebSearch);
      }
      if apiError.Absent? {
        apiError := Present(None);
      }
    }

    /** The sidebar's mode selector stores the chosen mode. */
    method SelectMode(choice: AgentMode)
      modifies this`mode
      ensures mode == Present(choice)
    {
      mode := Present(choice);
    }

    /** The "Clear Chat History" button. */
    method ClearChatHistory()
      modifies this
      ensures Snapshot() == Cleared(old(Snapshot()))
    {
      messages := Present([]);
      apiError := Present(None);
    }

    /** The "Clear Error" button. */
    method ClearError()
      modifies this`apiError
      ensures apiError == Present(None)
    {
      apiError := Present(None);
    }

    /** frontend/main.py's `make_agent_api_call`: look the endpoint up,
        post the prompt, and return the decoded JSON, or on a request
        failure record the error and return the error string. */
    method MakeAgentApiCall(m: AgentMode, prompt: string, post: Request -> HttpOutcome)
      returns (response: Json)
      modifies this`apiError
      ensures response == ChatReply(post(BuildRequest(m, prompt)))
      ensures apiError == ErrorAfterCall(old(apiError), post(BuildRequest(m, prompt)))
    {
      var endpoint := Endpoint(m);
      var outcome := post(Request(API_BASE_URL + endpoint, RequestBody(prompt, MAX_RESULTS)));
      match outcome
      case Ok(json) =>
        response := json;
      case Failure(message) =>
        apiError := Present(Some(ApiErrorText(message)));
        response := OtherValue(ErrorReplyText(message));
    }

    /** `handle_user_input`, with the chat input's text, the clock and the
        backend as parameters. */
    method HandleUserInput(prompt: string, timestamp: string, post: Request -> HttpOutcome)
      requires messages.Present? && mode.Present?
      modifies this
      ensures Snapshot() == AfterPrompt(old(Snapshot()), prompt, timestamp,
                                        post(BuildRequest(old(mode).value, prompt)))
    {
      if prompt == "" {
        return;
      }
      ghost var earlier := messages.value;
      var user := Message(User, prompt, mode.value, timestamp);
      messages := Present(messages.value + [user]);
      var response := MakeAgentApiCall(mode.value, prompt, post);
      var formattedResponse := FormatResponse(response);
      var assistant := Message(Assistant, formattedResponse, mode.value, timestamp);
      messages := Present(messages.value + [assistant]);
      assert messages.value == earlier + [user, assistant];
    }
  }
}
