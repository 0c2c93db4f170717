# Multi-agent chat front end: a Dafny model

This project models the logic of the chat front end of a small research
assistant. A user types a prompt. The page sends it to a backend endpoint
chosen by the selected agent mode and shows the answer in a chat history.
For web search, that means rendering the returned arXiv paper records as a
Markdown list.

The model covers three pieces:

- **The search-result serialiser `format_arxiv_results`.** It turns a list of
  paper records (dictionaries whose keys may be missing) into one Markdown
  string. Each item is numbered from 1 and has a fixed details template.
  Missing keys get defaults ("Untitled", "N/A", "#", ""). The summary is
  flattened onto one line. The function appears word for word in both
  `frontend/main.py` and `frontend/api.py`, so it is modelled once (module
  `Papers`). It is specified by the function `FormattedResults`, and the
  loop that appends items to a list is the method `FormatArxivResults`,
  proved equal to it. The helpers `Join` (Python's `sep.join`),
  `ReplaceNewlines` (`s.replace("\n", " ")`) and `NatToDecimal` (`str(n)`)
  live in module `Text`. So does `SplitOn`, Python's `s.split(c)`, which is
  used as the inverse of joining to state what the output's lines are.
- **Mode routing (module `Routing`, and `Api` for `frontend/api.py`).** This
  covers the five-member `AgentMode` enum, the endpoint table, the request
  body `{prompt, max_results: 5}`, and the texts built from a failed request.
  It also covers `frontend/api.py`'s rule that a web-search response is
  formatted and every other response is passed through unchanged. The HTTP
  call is a parameter `post: Request -> HttpOutcome`. Its answer is either
  the decoded JSON or the text of the request exception.
- **The chat session state of `frontend/main.py` (module `Chat`).** This
  covers the keys `messages`, `mode` and `api_error`. Module-level functions
  on a `State` value give the meaning of each transition: initialise-if-absent,
  one prompt, and clear. The class `Chat.Session` holds the keys as fields,
  and its methods are proved to move the state exactly as those functions say.
  Lemmas show two invariants, for every response the formatter accepts:
  the history is a sequence of user/assistant pairs, and the submitted
  prompts appear verbatim and in order.

The front end does no `max_results` validation or clamping: `max_results`
is always 5. It has no "not implemented" error for the three unbuilt modes:
their requests are posted like any other. It does no timeout
classification: every request exception becomes one error string.

The two front-end files also differ from each other on an empty search
result. For an empty array, `frontend/api.py` formats it to `""`, while
`frontend/main.py` shows `str([])`, which is `"[]"`. `Api.AgreesWithChatPage`
states both behaviours.

## Model

| member | source | states |
|---|---|---|
| Text.Join | frontend/main.py:84-86 | `sep.join`: joining nothing gives "", and otherwise the result begins with the first element (it is also used for the categories at frontend/main.py:93 and the output at frontend/main.py:104) |
| Text.JoinSnoc | frontend/main.py:84-86 | appending one element to a joined list appends the separator and then that element, so joining keeps the input order |
| Text.SplitOnJoinRoundTrip | frontend/main.py:104 | splitting a newline-join at its newlines gives back exactly the joined items when none holds a newline |
| Text.ReplaceNewlines | frontend/main.py:87 | every newline of the summary becomes a space, every other character stays in place, the length is kept and no newline remains |
| Text.ReplaceNewlinesIsOneLine | frontend/api.py:30 | the summary with its newlines replaced is a single line |
| Text.ReplaceNewlinesKeepsSingleLine | frontend/api.py:30 | a summary without newlines is rendered unchanged |
| Text.NatToDecimal | frontend/main.py:101 | the item number is written as decimal digits with no leading zero |
| Text.DecimalRoundTrip | frontend/api.py:44 | reading the item number's digits back gives the number |
| Text.NatToDecimalInjective | frontend/main.py:81 | different item numbers are written differently |
| Papers.Title | frontend/main.py:83 | `paper.get("title", "Untitled")`: the title when the key is present, "Untitled" when it is missing |
| Papers.Link | frontend/main.py:94-95 | a link is "[N/A](#)" when the key is missing; otherwise the URL is both the bracketed label and the parenthesised target |
| Papers.Details | frontend/main.py:90-99 | the details f-string is the newline-join of its ten lines: an empty line, the authors, published, categories, paper URL and PDF URL lines, an empty line, "**Abstract:**", the abstract, and an empty line |
| Papers.FormatItem | frontend/main.py:101 | item idx opens with its header line "idx. **title**" and a newline, and ends in a newline |
| Papers.Items | frontend/main.py:81 | `enumerate(results, 1)` gives one item per result, in input order, the item at position k opening with the number k + 1 and the title of result k |
| Papers.FormattedResults | frontend/main.py:79-104 | the output is empty exactly when there are no results, and otherwise begins with item 1 for the first result |
| Papers.FormatArxivResults | frontend/main.py:75-104 | the loop over results numbered from 1, appending each item and joining the list with newlines, computes FormattedResults |
| Papers.FormattedSnoc | frontend/api.py:24-47 | one more result appends a newline and its item, numbered one past the earlier results: items are numbered 1..n in input order |
| Papers.OutputLines | frontend/main.py:104 | the output's lines are the lines of item 1, then of item 2, and so on, one item per result |
| Papers.ItemIsJoinOfLines | frontend/main.py:90-101 | an item is the newline-join of its twelve template lines: header, blank, authors, published, categories, paper URL, PDF URL, blank, "**Abstract:**", abstract, blank, blank |
| Papers.ItemLinesWhenSingleLine | frontend/api.py:33-44 | when no field holds a newline, the item's lines are exactly those twelve template lines |
| Papers.AbstractIsOneLine | frontend/main.py:87-99 | whatever the fields hold, an item's last four lines are the "**Abstract:**" label, the whole abstract on one line, and two empty lines |
| Papers.MissingKeyDefaults | frontend/main.py:83-95 | a missing title renders "Untitled"; missing authors and categories render empty; a missing published date renders "N/A"; a missing entry_id or pdf_url renders "[N/A](#)"; a missing summary renders an empty abstract |
| Papers.BarePaperLines | frontend/api.py:26-41 | a record with every key missing renders as the twelve lines of the template filled with the defaults |
| Papers.AuthorsInOrder | frontend/main.py:84-86 | authors are listed in input order, separated by ", ", with a nameless author contributing "" |
| Routing.Label | frontend/main.py:11-16 | the enum value of a mode, the text the sidebar radio (frontend/main.py:161) and the captions (frontend/main.py:122 and 149) show, from which the mode is found again |
| Routing.LabelsDistinct | frontend/main.py:11-16 | two modes have the same label exactly when they are the same mode, so no two of the five modes are shown under the same text |
| Routing.Endpoint | frontend/main.py:41 | the endpoint lookup always finds an entry of the table |
| Routing.EndpointRoundTrip | frontend/api.py:55-63 | each mode is recovered from its endpoint path |
| Routing.EndpointsTotalAndDistinct | frontend/main.py:33-39 | every one of the five modes has an endpoint and no two modes share one |
| Routing.BuildRequest | frontend/main.py:44-46 | the request goes to the base URL followed by an endpoint that leads back to the mode, and carries the prompt verbatim with max_results 5 for every mode |
| Routing.RequestDeterminesModeAndPrompt | frontend/api.py:66-68 | two requests are equal exactly when they are for the same mode and the same prompt |
| Routing.ApiErrorText | frontend/main.py:54 | the stored api_error is "API Error: " followed by the whole exception text |
| Routing.ErrorReplyText | frontend/api.py:84 | the error string returned after a failure begins with the fixed message, and the whole exception text can be read back from it |
| Chat.Initialized | frontend/main.py:19-25 | after initialisation all three keys are set, and every key that was already set keeps its value |
| Chat.InitializeTwice | frontend/main.py:19-25 | initialising twice changes nothing beyond initialising once |
| Chat.InitializeFresh | frontend/main.py:20-25 | a new session gets no messages, web-search mode and no error |
| Chat.Cleared | frontend/main.py:166-168 | clearing empties the messages and resets the error, keeping the mode |
| Chat.ClearedIsWellPaired | frontend/main.py:167 | a cleared history is (trivially) well paired and holds no prompts |
| Chat.ChatReply | frontend/main.py:52-55 | the chat page's call returns the decoded JSON unchanged, or after a failure a string from which the whole exception text can be read back |
| Chat.ErrorAfterCall | frontend/main.py:53-54 | api_error is untouched by a successful call, and after a failure holds "API Error: " followed by the whole exception text |
| Chat.Str | frontend/main.py:135 | `str()` of the response: "[]" for an empty array, the value's text otherwise, empty only for an empty string |
| Chat.DisplayText | frontend/main.py:132-135 | the assistant text is empty only for an empty string response, and a non-empty array shows its first paper as item 1 |
| Chat.FormatResponse | frontend/main.py:132-135 | the branch that formats a non-empty array with the formatter's loop and applies `str` to anything else computes DisplayText |
| Chat.AssistantTextCases | frontend/main.py:132-135 | the assistant text is the formatted list for a non-empty array, "[]" for an empty one, the value's text for anything else, and the error string holding the exception text after a failure |
| Chat.AfterPrompt | frontend/main.py:107-144 | handling a prompt keeps the mode and leaves the messages set |
| Chat.PromptAppendsTwoMessages | frontend/main.py:111-144 | a submitted prompt appends exactly two messages, the user message with the prompt verbatim and then the assistant message, both with the current mode and the same timestamp, and leaves the earlier messages unchanged |
| Chat.PromptErrorRecorded | frontend/main.py:53-55 | a failed request sets api_error to "API Error: " followed by the exception text; a successful one leaves api_error alone |
| Chat.WellPairedAppend | frontend/main.py:111-144 | appending a user message and an assistant message with the same mode and timestamp keeps the history in pairs |
| Chat.ConversationHistory | frontend/main.py:107-144 | over any series of prompts whose responses the formatter accepts, the history stays in user/assistant pairs, grows by two messages per submitted prompt, and records the submitted prompts verbatim and in order after the earlier ones |
| Chat.Session.InitializeSessionState | frontend/main.py:19-25 | the session's keys become Initialized of their old values |
| Chat.Session.SelectMode | frontend/main.py:157-163 | the chosen mode is stored and nothing else changes |
| Chat.Session.ClearChatHistory | frontend/main.py:166-168 | the session's keys become Cleared of their old values |
| Chat.Session.ClearError | frontend/main.py:62-63 | the error is reset and nothing else changes |
| Chat.Session.MakeAgentApiCall | frontend/main.py:28-55 | the request for the mode and prompt is posted; the result is the decoded JSON, or on failure the error string, with api_error set to "API Error: " and the exception text |
| Chat.Session.HandleUserInput | frontend/main.py:107-144 | the session's keys become AfterPrompt of their old values, for the outcome of the request built from the current mode and the prompt |
| Api.ApiReplyFor | frontend/api.py:76-84 | the reply is an error string exactly when the request failed, and the exception text can be read back from it; the JSON unchanged exactly for a success outside web search; Markdown exactly for an array in web search, empty only for an empty array |
| Api.ModeSwitch | frontend/api.py:76-80 | a successful response is passed through unchanged exactly when the mode is not web search; in web search an array of results is returned formatted |
| Api.FailureReply | frontend/api.py:82-84 | a failed request returns the same error string in every mode, and the exception text can be read back from it |
| Api.AgreesWithChatPage | frontend/api.py:77-78 | in web search this file and the chat page show the same text for a failure and for a non-empty result list; for an empty one this file gives "" and the chat page "[]" |
| Api.MakeAgentApiCall | frontend/api.py:50-84 | the request for the mode and prompt is posted and the reply is formatted, passed through or replaced by the error string as ApiReplyFor says; a failure sets the session's api_error |

## Left out

- Streamlit rendering and widgets are not modelled: `st.chat_message`, `st.markdown`, `st.caption`, `st.spinner`, `st.error`, `st.title`, the sidebar text, `st.rerun` and `main`. They are presentation. Only the session-state transitions are kept, and the sidebar radio is kept only as the assignment of the chosen mode.
- The network call is a parameter. `requests.post`, its JSON headers, the 30-second timeout and `raise_for_status` are not modelled. Every request exception is the single `Failure(message)`, where `message` is `str(e)`.
- `datetime.now()` is left out: the timestamp is a parameter. The text from `st.chat_input` is a parameter too, and an empty string stands for "nothing submitted".
- The `print` logging is left out.
- The backend (`main.py`, `backend/main.py`, `agents/search_agent.py`) and the language-model agent (`agents/future_agent.py`) are not part of this model. They are calls into the arXiv client, FastAPI and the Groq model, with no local logic beyond re-raising and one string concatenation.
- JSON values are modelled only as far as the front end looks at them. An array is an array of paper records. Every other value is kept as the text `str()` gives it. Record fields hold strings.
- A `null` in a record is modelled only where the formatter prints it: in `title`, `published`, `entry_id` and `pdf_url` it renders as the text "None", which the model holds as a present string. A `null` in `summary`, `authors`, `categories` or an author's `name` makes the formatter raise (frontend/main.py:84-87 and 93); the model has no value for that case. An array whose items are not records, which also makes the formatter raise, is not modelled either.
- Chat.ConversationHistory: the pairing and the count of two messages per submitted prompt are proved only for responses the formatter accepts. `handle_user_input` stores the user message (frontend/main.py:111) before it formats the response (frontend/main.py:133). A response that makes the formatter raise (see the `null` line above) stops the run after the user message is stored, leaving a user message with no reply. A Json value cannot represent such a response, so the model has no run of that kind.
- Chat.Str: `str()` of a non-empty array is not modelled. The page never calls it, because a non-empty array is formatted instead.
- Api.ApiReplyFor: in web-search mode every non-array JSON value is taken to make the formatter raise. In Python an empty JSON object or an empty string iterates as nothing and formats to `""`.
