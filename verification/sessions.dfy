/** The server's in-memory session store and its endpoints. Each endpoint is a
    pure transition from the store before the request to the store after it,
    together with the endpoint's reply or the error it raises. The hosted model
    is a parameter: it is given the messages sent and the token budget, and
    either answers with text or fails. */
module Sessions {
  import opened Wrappers

  /** The instruction a user message carries: which kind of prompt it is and the
      data the prompt embeds. The wording of the prompts is not modelled. */
  datatype Prompt =
    | Seed(document: string)
    | Question(question: string)
    | PlainLanguage
    | Complications(document: string)
    | Validation(document: string)
    | KeyDates(document: string)

  /** One entry of a conversation history. */
  datatype Message = UserMessage(prompt: Prompt) | AssistantMessage(text: string)

  /** The state kept per session id. */
  datatype Session = Session(document: string, messages: seq<Message>)

  type Store = map<string, Session>

  /** What the model call produces: the reply text, or the failure it raised. */
  datatype Reply = Text(text: string) | CallFailed(reason: string)

  /** The hosted model, as a function of the messages sent and the token budget. */
  type Model = (seq<Message>, nat) -> Reply

  /** The errors an endpoint raises. */
  datatype Error = NotInitialized(sessionId: string) | ModelFailed(reason: string)

  /** A JSON reply with a single field. */
  datatype Response = Response(field: string, text: string)

  /** The store after a request, and the request's outcome. */
  datatype Step<+T> = Step(store: Store, result: Result<T, Error>)

  // Token budgets passed to the model.
  const DefaultMaxTokens: nat := 1024
  const LongMaxTokens: nat := 2000

  /** The requests the server accepts, one per endpoint. */
  datatype Request =
    | InitSession(document: string, sessionId: string)
    | AnswerQuestion(question: string, sessionId: string)
    | SimplifyDocument(sessionId: string)
    | AnalyzeComplications(sessionId: string)
    | ValidateDocument(sessionId: string)
    | ExtractKeyDates(sessionId: string)
    | ResetSession(sessionId: string)

  /** Every session other than `id` is the same in both stores. */
  predicate OthersUnchanged(before: Store, after: Store, id: string)
  {
    && before.Keys - {id} == after.Keys - {id}
    && forall other :: other in before && other != id ==> other in after && after[other] == before[other]
  }

  /** Session `id` is kept with its document, every other session is untouched, and
      the history has grown by the user prompt, followed by the model's text when
      the call answered (`reply` is `Some`). */
  predicate Extended(before: Store, after: Store, id: string, prompt: Prompt, reply: Option<string>)
  {
    && id in before && id in after
    && after.Keys == before.Keys
    && OthersUnchanged(before, after, id)
    && after[id].document == before[id].document
    && after[id].messages == before[id].messages + [UserMessage(prompt)]
                             + (if reply.Some? then [AssistantMessage(reply.value)] else [])
  }

  /** The text an outcome carries, if it succeeded. */
  function TextOf(r: Result<Response, Error>): Option<string>
  {
    if r.Success? then Some(r.value.text) else None
  }

  /** The endpoint's outcome is the model's reply: its text in `field` when the model
      answered, the model's failure when it did not. */
  predicate Answered(r: Result<Response, Error>, field: string, reply: Reply)
  {
    match reply
    case Text(text) => r == Success(Response(field, text))
    case CallFailed(reason) => r == Failure(ModelFailed(reason))
  }

  /** Sends `prompt` in session `id`: the prompt joins the history before the model
      is called, and the model's text joins it after. */
  function AskClaude(store: Store, id: string, prompt: Prompt, maxTokens: nat, model: Model): (s: Step<string>)
    ensures id !in store ==> s == Step(store, Failure(NotInitialized(id)))
    ensures id in store ==>
              Extended(store, s.store, id, prompt, if s.result.Success? then Some(s.result.value) else None)
    ensures id in store ==>
              match model(store[id].messages + [UserMessage(prompt)], maxTokens)
              case Text(text) => s.result == Success(text)
              case CallFailed(reason) => s.result == Failure(ModelFailed(reason))
  {
    if id !in store then Step(store, Failure(NotInitialized(id)))
    else
      var sent := store[id].messages + [UserMessage(prompt)];
      match model(sent, maxTokens)
      case CallFailed(reason) =>
        Step(store[id := Session(store[id].document, sent)], Failure(ModelFailed(reason)))
      case Text(text) =>
        Step(store[id := Session(store[id].document, sent + [AssistantMessage(text)])], Success(text))
  }

  /** Creates or replaces session `id`, whose history is just the seed message. */
  function InitSession(store: Store, document: string, id: string): (s: Step<Response>)
    ensures s.store.Keys == store.Keys + {id}
    ensures s.store[id] == Session(document, [UserMessage(Seed(document))])
    ensures OthersUnchanged(store, s.store, id)
    ensures s.result == Success(Response("message", "Session " + id + " initialized with document."))
  {
    Step(store[id := Session(document, [UserMessage(Seed(document))])],
         Success(Response("message", "Session " + id + " initialized with document.")))
  }

  /** Answers a question through the session's history. */
  function AnswerQuestion(store: Store, question: string, id: string, model: Model): (s: Step<Response>)
    ensures id !in store ==> s == Step(store, Failure(NotInitialized(id)))
    ensures id in store ==> Extended(store, s.store, id, Question(question), TextOf(s.result))
    ensures id in store ==>
              Answered(s.result, "answer",
                       model(store[id].messages + [UserMessage(Question(question))], DefaultMaxTokens))
  {
    var s := AskClaude(store, id, Question(question), DefaultMaxTokens, model);
    Step(s.store, Wrap("answer", s.result))
  }

  /** Asks for a plain-language rewrite through the session's history. */
  function SimplifyDocument(store: Store, id: string, model: Model): (s: Step<Response>)
    ensures id !in store ==> s == Step(store, Failure(NotInitialized(id)))
    ensures id in store ==> Extended(store, s.store, id, PlainLanguage, TextOf(s.result))
    ensures id in store ==>
              Answered(s.result, "simplified_document",
                       model(store[id].messages + [UserMessage(PlainLanguage)], DefaultMaxTokens))
  {
    var s := AskClaude(store, id, PlainLanguage, DefaultMaxTokens, model);
    Step(s.store, Wrap("simplified_document", s.result))
  }

  /** Asks for a risk analysis of the stored document in a one-message conversation
      of its own: the session's history is neither sent nor extended. */
  function AnalyzeComplications(store: Store, id: string, model: Model): (s: Step<Response>)
    ensures s.store == store
    ensures id !in store ==> s.result == Failure(NotInitialized(id))
    ensures id in store ==>
              Answered(s.result, "analysis", model([UserMessage(Complications(store[id].document))], LongMaxTokens))
  {
    if id !in store then Step(store, Failure(NotInitialized(id)))
    else
      match model([UserMessage(Complications(store[id].document))], LongMaxTokens)
      case CallFailed(reason) => Step(store, Failure(ModelFailed(reason)))
      case Text(text) => Step(store, Success(Response("analysis", text)))
  }

  /** Asks whether the stored document is a legal document, through the history. */
  function ValidateDocument(store: Store, id: string, model: Model): (s: Step<Response>)
    ensures id !in store ==> s == Step(store, Failure(NotInitialized(id)))
    ensures id in store ==> Extended(store, s.store, id, Validation(store[id].document), TextOf(s.result))
    ensures id in store ==>
              Answered(s.result, "validation",
                       model(store[id].messages + [UserMessage(Validation(store[id].document))], DefaultMaxTokens))
  {
    if id !in store then Step(store, Failure(NotInitialized(id)))
    else
      var s := AskClaude(store, id, Validation(store[id].document), DefaultMaxTokens, model);
      Step(s.store, Wrap("validation", s.result))
  }

  /** Asks for the stored document's key dates, through the history, with the long budget. */
  function ExtractKeyDates(store: Store, id: string, model: Model): (s: Step<Response>)
    ensures id !in store ==> s == Step(store, Failure(NotInitialized(id)))
    ensures id in store ==> Extended(store, s.store, id, KeyDates(store[id].document), TextOf(s.result))
    ensures id in store ==>
              Answered(s.result, "key_dates",
                       model(store[id].messages + [UserMessage(KeyDates(store[id].document))], LongMaxTokens))
  {
    if id !in store then Step(store, Failure(NotInitialized(id)))
    else
      var s := AskClaude(store, id, KeyDates(store[id].document), LongMaxTokens, model);
      Step(s.store, Wrap("key_dates", s.result))
  }

  /** Deletes session `id` if it exists; either way the reply says what happened. */
  function ResetSession(store: Store, id: string): (s: Step<Response>)
    ensures s.store == store - {id}
    ensures s.result.Success?
    ensures s.result.value.field == "message"
    ensures id in store ==> s.result.value.text == "Session " + id + " cleared."
    ensures id !in store ==> s.result.value.text == "Session " + id + " not found."
  {
    if id in store then
      Step(store - {id}, Success(Response("message", "Session " + id + " cleared.")))
    else
      Step(store, Success(Response("message", "Session " + id + " not found.")))
  }

  /** Puts a reply text into the endpoint's JSON field; errors pass through. */
  function Wrap(field: string, r: Result<string, Error>): Result<Response, Error>
  {
    match r
    case Success(text) => Success(Response(field, text))
    case Failure(e) => Failure(e)
  }

  /** The handler of each endpoint. A tool request on an unknown session fails as
      "not initialized" and changes nothing; a success answers in the endpoint's field. */
  function Handle(store: Store, req: Request, model: Model): (s: Step<Response>)
    ensures !req.InitSession? && !req.ResetSession? && req.sessionId !in store ==>
              s == Step(store, Failure(NotInitialized(req.sessionId)))
    ensures s.result.Success? ==> s.result.value.field == FieldOf(req)
  {
    match req
    case InitSession(document, id) => InitSession(store, document, id)
    case AnswerQuestion(question, id) => AnswerQuestion(store, question, id, model)
    case SimplifyDocument(id) => SimplifyDocument(store, id, model)
    case AnalyzeComplications(id) => AnalyzeComplications(store, id, model)
    case ValidateDocument(id) => ValidateDocument(store, id, model)
    case ExtractKeyDates(id) => ExtractKeyDates(store, id, model)
    case ResetSession(id) => ResetSession(store, id)
  }

  /** The requests that go through the session's conversation history. */
  predicate UsesHistory(req: Request)
  {
    req.AnswerQuestion? || req.SimplifyDocument? || req.ValidateDocument? || req.ExtractKeyDates?
  }

  /** The path each request is posted to. */
  function Path(req: Request): string
  {
    match req
    case InitSession(_, _) => "init_session"
    case AnswerQuestion(_, _) => "qa"
    case SimplifyDocument(_) => "simplify"
    case AnalyzeComplications(_) => "analyze_complications"
    case ValidateDocument(_) => "validate_document"
    case ExtractKeyDates(_) => "extract_key_dates"
    case ResetSession(id) => "reset_session/" + id
  }

  /** The JSON field each tool endpoint answers in. */
  function FieldOf(req: Request): string
  {
    match req
    case InitSession(_, _) => "message"
    case AnswerQuestion(_, _) => "answer"
    case SimplifyDocument(_) => "simplified_document"
    case AnalyzeComplications(_) => "analysis"
    case ValidateDocument(_) => "validation"
    case ExtractKeyDates(_) => "key_dates"
    case ResetSession(_) => "message"
  }

  /** The prompt a history-using request sends. */
  function PromptOf(store: Store, req: Request): Prompt
    requires UsesHistory(req) && req.sessionId in store
  {
    match req
    case AnswerQuestion(question, _) => Question(question)
    case SimplifyDocument(_) => PlainLanguage
    case ValidateDocument(id) => Validation(store[id].document)
    case ExtractKeyDates(id) => KeyDates(store[id].document)
  }

  /** The token budget each tool request asks the model for. */
  function BudgetOf(req: Request): nat
  {
    if req.ExtractKeyDates? || req.AnalyzeComplications? then LongMaxTokens else DefaultMaxTokens
  }

  /** Every session's history opens with the seed message that holds its own document. */
  predicate Seeded(store: Store)
  {
    forall id :: id in store ==>
      |store[id].messages| >= 1 && store[id].messages[0] == UserMessage(Seed(store[id].document))
  }

  /** What a tool request does to a known session: the four history endpoints send
      the history with their prompt appended and extend the history by that prompt
      (and the reply, if any); the complications endpoint sends its prompt alone and
      leaves the store exactly as it was. Either way the outcome is the model's reply. */
  lemma ToolRequestEffect(store: Store, req: Request, model: Model)
    requires !req.InitSession? && !req.ResetSession?
    requires req.sessionId in store
    ensures var s := Handle(store, req, model);
            && (UsesHistory(req) ==> Extended(store, s.store, req.sessionId, PromptOf(store, req), TextOf(s.result)))
            && (UsesHistory(req) ==>
                  Answered(s.result, FieldOf(req),
                           model(store[req.sessionId].messages + [UserMessage(PromptOf(store, req))], BudgetOf(req))))
            && (!UsesHistory(req) ==> s.store == store)
            && (!UsesHistory(req) ==>
                  Answered(s.result, FieldOf(req),
                           model([UserMessage(Complications(store[req.sessionId].document))], BudgetOf(req))))
  {
  }

  /** On a known session every tool request succeeds when the model answers. */
  lemma ToolRequestServed(store: Store, req: Request, model: Model)
    requires !req.InitSession? && !req.ResetSession?
    requires req.sessionId in store
    requires forall h, n :: model(h, n).Text?
    ensures Handle(store, req, model).result.Success?
  {
  }

  /** After init_session, a tool request on that id succeeds whenever the model answers. */
  lemma InitThenServed(store: Store, document: string, req: Request, model: Model)
    requires !req.InitSession? && !req.ResetSession?
    requires forall h, n :: model(h, n).Text?
    ensures Handle(InitSession(store, document, req.sessionId).store, req, model).result.Success?
  {
    ToolRequestServed(InitSession(store, document, req.sessionId).store, req, model);
  }

  /** After reset_session, every tool request on that id fails as "not initialized". */
  lemma ResetThenRejected(store: Store, req: Request, model: Model)
    requires !req.InitSession? && !req.ResetSession?
    ensures Handle(ResetSession(store, req.sessionId).store, req, model).result
            == Failure(NotInitialized(req.sessionId))
  {
  }

  /** No request other than init_session adds a session or changes a document, and
      none other than init_session rewrites a history: histories only grow. */
  lemma OnlyInitRewrites(store: Store, req: Request, model: Model)
    requires !req.InitSession?
    ensures var after := Handle(store, req, model).store;
            && after.Keys <= store.Keys
            && forall id :: id in after ==>
                 id in store && after[id].document == store[id].document
                 && store[id].messages <= after[id].messages
  {
    var after := Handle(store, req, model).store;
    if req.ResetSession? || req.sessionId !in store || !UsesHistory(req) {
    } else {
      ToolRequestEffect(store, req, model);
    }
  }

  /** Every request keeps the seed message at the head of every history. */
  lemma HandleKeepsSeeded(store: Store, req: Request, model: Model)
    requires Seeded(store)
    ensures Seeded(Handle(store, req, model).store)
  {
    var after := Handle(store, req, model).store;
    if !req.InitSession? {
      OnlyInitRewrites(store, req, model);
      forall id | id in after
        ensures |after[id].messages| >= 1 && after[id].messages[0] == UserMessage(Seed(after[id].document))
      {
        assert store[id].messages <= after[id].messages;
      }
    }
  }

  /** The store after serving `reqs` in order. */
  function Run(store: Store, reqs: seq<Request>, model: Model): Store
    decreases |reqs|
  {
    if reqs == [] then store else Run(Handle(store, reqs[0], model).store, reqs[1..], model)
  }

  /** The request re-initializes or resets session `id`. */
  predicate Restarts(req: Request, id: string)
  {
    (req.InitSession? || req.ResetSession?) && req.sessionId == id
  }

  /** One request that does not restart session `id` keeps it, with its document,
      and only appends to its history. */
  lemma StepKeepsSession(store: Store, req: Request, model: Model, id: string)
    requires id in store
    requires !Restarts(req, id)
    ensures var after := Handle(store, req, model).store;
            id in after && after[id].document == store[id].document && store[id].messages <= after[id].messages
  {
    if !req.InitSession? {
      OnlyInitRewrites(store, req, model);
    }
  }

  /** Across any run of requests that never restarts session `id`, the session stays,
      its document never changes, and its history is only ever appended to. */
  lemma {:induction false} RunKeepsSession(store: Store, reqs: seq<Request>, model: Model, id: string)
    requires id in store
    requires forall k :: 0 <= k < |reqs| ==> !Restarts(reqs[k], id)
    ensures var after := Run(store, reqs, model);
            id in after && after[id].document == store[id].document && store[id].messages <= after[id].messages
    decreases |reqs|
  {
    if reqs != [] {
      var next := Handle(store, reqs[0], model).store;
      StepKeepsSession(store, reqs[0], model, id);
      assert forall k :: 0 <= k < |reqs[1..]| ==> !Restarts(reqs[1..][k], id) by {
        forall k | 0 <= k < |reqs[1..]| ensures !Restarts(reqs[1..][k], id) {
          assert reqs[1..][k] == reqs[k + 1];
        }
      }
      RunKeepsSession(next, reqs[1..], model, id);
    }
  }

  /** Every run keeps the seed message at the head of every history. */
  lemma {:induction false} RunKeepsSeeded(store: Store, reqs: seq<Request>, model: Model)
    requires Seeded(store)
    ensures Seeded(Run(store, reqs, model))
    decreases |reqs|
  {
    if reqs != [] {
      HandleKeepsSeeded(store, reqs[0], model);
      RunKeepsSeeded(Handle(store, reqs[0], model).store, reqs[1..], model);
    }
  }
}
