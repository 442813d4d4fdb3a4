# Legal document assistant: intent routing and session store

This project models the two decision procedures of a conversational assistant
for legal documents, and proves properties about them:

- **The client's intent router** (`chatbot.py`). For each user query, the client asks a
  hosted model to choose one of five tools: `qa`, `simplify`,
  `analyze_complications`, `validate_document` or `extract_key_dates`. The model's
  choice is used only if its first `tool_use` block names one of those five literals.
  Otherwise a keyword classifier decides. It lower-cases the query and tries four
  keyword groups in a fixed order: risk words, plain-language words,
  contract-identification phrases, then date words. The default is `qa`. The chosen
  tool is then sent to the server endpoint of the same name, and the client reads the
  tool's own field from the reply.
- **The server's session store** (`mcp_tools.py`). This is a map from session id to
  {document, message history}. `init_session` creates or overwrites a session whose
  history holds one seed message. `qa`, `simplify`, `validate_document` and
  `extract_key_dates` go through `ask_claude`. It rejects unknown ids, appends the user
  prompt, calls the model, and then appends the reply. `analyze_complications` checks
  the id and sends a one-message conversation of its own, so the history stays as it
  was. `reset_session` deletes the session or reports that it was not found.

Modules:

- `Wrappers` (wrappers.dfy) defines `Option` and `Result`.
- `Text` (text.dfy) defines ASCII lower-casing and the substring test.
- `Intent` (intent.dfy) defines the `Tool` enum and `ClassifyIntent`.
- `Router` (router.dfy) models the client side of `chat_with_bot`.
- `Sessions` (sessions.dfy) models the store and its endpoints as pure transitions.
  Each transition takes the store before a request and returns the store after it,
  with the reply or the raised error.
- `Conversation` (conversation.dfy) composes one client turn with the server.

The hosted model is not modelled, so it appears only as inputs:

- The server's model is a function parameter `Sessions.Model`. It receives the
  messages sent and the token budget (1024, or 2000 for key dates and complications).
  It returns text or a failure. The text is taken to be already stripped.
- The client's model reply is a `Result` input: a list of content blocks, or the
  failure the call raised.
- The server, seen from the client, is a function from calls to JSON bodies in
  `Router.ChatWithBot`. In `Conversation.Turn` it is the `Sessions` model itself.

Prompts are modelled by kind and by the data they embed, as the `Sessions.Prompt`
datatype. For example, `Complications(document)` stands for the complications prompt,
which contains the stored document. The prompt wording is not modelled.

A failing model call on the client does not fall back to the classifier. The outer
`except` (chatbot.py:154-156) returns an error string instead, and `Router.PlanTurn`
models this.

## Model

| member | source | states |
|---|---|---|
| Text.Lower | chatbot.py:65 | The lowered query has the same length, holds no ASCII capital, and each character is the lowered original character. |
| Text.LowerIdempotent | chatbot.py:65 | Lowering an already lowered query changes nothing. |
| Text.Contains | chatbot.py:66 | `w in q` is true exactly when `w` occurs at some index of `q`; the empty word occurs everywhere. |
| Intent.Parse | chatbot.py:132 | A string is accepted as a tool exactly when it is one of the five enum literals, and it names the tool it parses to. |
| Intent.ParseName | chatbot.py:115 | Every tool's wire name is an enum literal and parses back to that tool. |
| Intent.NameInjective | chatbot.py:115 | Different tools have different wire names. |
| Intent.ClassifyIntent | chatbot.py:61-75 | The result is a tool whose keyword group occurs in the lowered query, or `qa`, and no group ranked earlier occurs. |
| Intent.ClassifyIntentUnique | chatbot.py:66-75 | The classifier's contract determines its answer: any tool meeting the first-match-in-priority-order condition is the one returned. |
| Intent.ClassifyIntentIgnoresCase | chatbot.py:65 | Classifying the lowered query gives the same tool as classifying the query. |
| Intent.ClassifyIntentSameLetters | chatbot.py:65 | Two queries that differ only in letter case are routed to the same tool. |
| Intent.RiskWordWins | chatbot.py:66-67 | If any risk word occurs in the lowered query, the result is `analyze_complications`, whatever else occurs. |
| Intent.ClassifyIntentPriority | chatbot.py:66-73 | `simplify` only when no risk word occurs; `validate_document` only when no risk or plain-language word occurs; `extract_key_dates` only when no earlier group occurs. |
| Intent.ClassifyIntentDefault | chatbot.py:74-75 | The result is `qa` exactly when no keyword of any group occurs in the lowered query. |
| Intent.SubstringNotWord | chatbot.py:72-73 | "update" is routed to `extract_key_dates`: keywords match as substrings, not words. |
| Intent.RiskBeatsExplain | chatbot.py:65-69 | "EXPLAIN RISK" is routed to `analyze_complications`: upper-case keywords match, and risk words beat plain-language words. |
| Router.FirstToolInput | chatbot.py:125-129 | The result is the input of the first `tool_use` block, or nothing exactly when no block is a tool use. |
| Router.SelectTool | chatbot.py:131-137 | The tool name dispatched on is always an enum literal: the model's pick when the first tool-use input names a literal, otherwise the classifier's answer. |
| Router.Dispatch | chatbot.py:140-152 | Exactly the enum literals are dispatched. Each goes to the endpoint of the same name with the session id, and only `qa` also sends the question. |
| Router.DispatchFields | chatbot.py:140-149 | The field read back is `answer`, `simplified_document`, `analysis`, `validation` or `key_dates`, according to the tool. |
| Router.PlanTurn | chatbot.py:104-156 | When the model call fails, the turn ends with that error and no fallback. Once the model has replied, the call sent is the dispatch of the selected tool name. |
| Router.ReadReply | chatbot.py:140-149 | The user gets an answer exactly when the server replied and the reply holds the tool's field, and the answer is that field's value. |
| Router.ChatWithBot | chatbot.py:77-156 | The "Unrecognized tool" branch is unreachable, whatever the model and the server return. A failed model call ends the turn with an error. Otherwise the reply is the dispatched call's field, read from the server's answer to that call. |
| Router.CallFollowsChoice | chatbot.py:125-137 | When the first tool-use block names an enum literal, the call goes to that tool's endpoint. |
| Router.NoToolUseFallsBack | chatbot.py:131-135 | When the reply holds no tool-use block, the call goes to the classifier's tool. |
| Router.UnknownToolFallsBack | chatbot.py:132-135 | When the first tool-use block names a string outside the enum, the call goes to the classifier's tool. |
| Sessions.AskClaude | mcp_tools.py:37-54 | An unknown id fails as not initialized and changes nothing. Otherwise the session's history grows by the prompt, and by the reply when the model answers (the returned text is the stored one). A failed call leaves the prompt appended. No other session changes. |
| Sessions.InitSession | mcp_tools.py:56-65 | The id maps to the given document and a history of exactly the seed message. Any previous entry is replaced. Other ids are untouched. |
| Sessions.AnswerQuestion | mcp_tools.py:67-71 | Unknown id: nothing changes. Known id: the model is sent the history plus the question prompt with 1024 tokens. Its text is returned in `answer` and its failure is raised. The history grows by the prompt, then by the answer if there is one. |
| Sessions.SimplifyDocument | mcp_tools.py:73-77 | Unknown id: nothing changes. Known id: the model is sent the history plus the plain-language prompt with 1024 tokens. Its text is returned in `simplified_document` and its failure is raised. The history grows by the prompt, then by the answer if there is one. |
| Sessions.AnalyzeComplications | mcp_tools.py:79-133 | The store never changes. An unknown id fails as not initialized. Otherwise the model is sent only the complications prompt holding the stored document, with 2000 tokens. Its text is returned in `analysis` and its failure is raised. |
| Sessions.ValidateDocument | mcp_tools.py:135-166 | Unknown id: nothing changes. Known id: the model is sent the history plus the validation prompt holding the document, with 1024 tokens. Its text is returned in `validation` and its failure is raised. The history grows by the prompt, then by the answer if there is one. |
| Sessions.ExtractKeyDates | mcp_tools.py:171-210 | Unknown id: nothing changes. Known id: the model is sent the history plus the key-dates prompt holding the document, with 2000 tokens. Its text is returned in `key_dates` and its failure is raised. The history grows by the prompt, then by the answer if there is one. |
| Sessions.ResetSession | mcp_tools.py:212-217 | The store loses exactly that id. The reply says "cleared" when the id was present and "not found" otherwise. |
| Sessions.Handle | mcp_tools.py:56-217 | Every tool endpoint fails on an unknown id with the not-initialized error and leaves the store unchanged. Every success answers in the endpoint's own field. |
| Sessions.ToolRequestEffect | mcp_tools.py:67-210 | On a known id, the four history endpoints send the history plus their prompt and extend the history. `analyze_complications` sends its prompt alone and leaves the store as it was. Either way the outcome is the model's reply, in the endpoint's field, with the endpoint's token budget. |
| Sessions.ToolRequestServed | mcp_tools.py:37-54 | On a known id, every tool endpoint succeeds when the model answers. |
| Sessions.InitThenServed | mcp_tools.py:56-65 | After `init_session` for an id, every tool request on it succeeds when the model answers. |
| Sessions.ResetThenRejected | mcp_tools.py:212-217 | After `reset_session` for an id, every tool request on it fails as not initialized. |
| Sessions.OnlyInitRewrites | mcp_tools.py:59-60 | No request except `init_session` adds a session, changes a document, or rewrites a history; histories only grow. |
| Sessions.HandleKeepsSeeded | mcp_tools.py:59-63 | Every request keeps, at the head of every history, the seed message holding that session's document. |
| Sessions.StepKeepsSession | mcp_tools.py:37-217 | A request that neither re-initializes nor resets a session keeps it, with the same document and a history that extends the old one. |
| Sessions.RunKeepsSession | mcp_tools.py:37-217 | Over any sequence of requests that never re-initializes or resets a session, that session survives, its document is unchanged and its history is append-only. |
| Sessions.RunKeepsSeeded | mcp_tools.py:59-63 | Over any sequence of requests every history still opens with its seed message. |
| Conversation.Route | mcp_tools.py:56-210 | An unknown endpoint is not found. A call carrying every required body field is accepted as the request of the endpoint at that path, with the body's session id, document and question. A call missing a required field is unprocessable. |
| Conversation.Serve | chatbot.py:37-47 | A refused call changes nothing. A handled call answers with the endpoint's single field. Any error the server raises reaches the client only as the `500 Server Error` status line for that URL. |
| Conversation.DispatchMeetsRoute | chatbot.py:140-149 | The client's call for each tool reaches that tool's server endpoint for the client's session, and the client reads the field that endpoint answers in. Only `analyze_complications` bypasses the history. |
| Conversation.Turn | chatbot.py:77-156 | A full turn never ends in "Unrecognized tool", and a failed model call changes nothing on the server. |
| Conversation.TurnIsChat | chatbot.py:77-156 | A turn through the modelled server gives the same reply as the client with the server seen as an oracle serving each call against the store. |
| Conversation.PlannedCall | chatbot.py:137-149 | The call a turn sends is the dispatch of the chosen tool. |
| Conversation.TurnOnUnknownSession | mcp_tools.py:38-39 | On an id the server does not know, a turn changes nothing. The user sees the 500 status line of the chosen endpoint, not the server's not-initialized text. |
| Conversation.TurnWhenModelFails | mcp_tools.py:43-50 | On a known id with a failing model, the user sees the 500 status line. The document is unchanged and the old history is a prefix of the new one, which is still one user message longer, except with `analyze_complications`, which leaves the store unchanged. |
| Conversation.TurnOnKnownSession | mcp_tools.py:43-54 | On a known id with an answering model, a turn yields an answer. The history grows by two and ends in that answer, except that `analyze_complications` leaves it unchanged. |

## Left out

- The hosted model calls (the Anthropic SDK) are a foreign, nondeterministic service. They are the inputs described above. Their prompt wording, the JSON schemas inside the prompts, the model name, the temperature and `.strip()` are not modelled.
- HTTP is not modelled: FastAPI's server, `requests.post`, status codes, and how exceptions become HTTP 500 responses. `Conversation.Route` keeps only the route table and the required body fields. `Conversation.Serve` keeps only the status line that a failed call shows the client.
- Environment and configuration loading, the API-key checks, logging, `uuid` generation, reading the document file and the interactive `__main__` loop are not modelled. They are setup and I/O. The client's session id and document are parameters.
- The client's `init_session` wrapper (chatbot.py:49-57) only forwards to the server's `init_session`, which is modelled.
- Concurrent requests on one session share its message list with no locking. The model serves requests one at a time.
- Text.Lower: only ASCII capitals are lowered, while Python's `str.lower` handles all of Unicode. The classifier's result can therefore differ for non-ASCII characters that lower to ASCII letters. For example, U+212A KELVIN SIGN lowers to `k` in Python, so `"RIS\u212A"` is routed to `analyze_complications` by the source and to `qa` by the model.
- Router.ReadReply, Router.PlanTurn, Router.ChatWithBot: an error is reported with the text of the exception alone, whether the model call or the HTTP call failed. The client puts `Error in chat_with_bot:` in front of every error (chatbot.py:156) and `Error calling MCP tool <endpoint>:` in front of a failed HTTP call (chatbot.py:47). Neither prefix is modelled.
- Conversation.Route: only the endpoints with a JSON body are routed. `reset_session` takes its id from the path and is never called by the client, so it is reached directly through `Sessions.Handle`.
