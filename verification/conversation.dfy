/** One user turn end to end: the client plans a call, the server routes it to an
    endpoint and updates the session store, and the client reads the answer. */
module Conversation {
  import opened Wrappers
  import opened Intent
  import opened Router
  import Sessions

  /** The HTTP error statuses a call can come back with. */
  datatype Status = NotFound | Unprocessable | InternalError

  /** The address the client sends its calls to. */
  const ServerUrl: string := "http://127.0.0.1:9000"

  /** The text of the HTTP error the client raises for a failed call: the status line
      and the URL, never the error the server raised while handling it. */
  function StatusLine(status: Status, endpoint: string): string
  {
    var url := " for url: " + ServerUrl + "/" + endpoint;
    match status
    case NotFound => "404 Client Error: Not Found" + url
    case Unprocessable => "422 Client Error: Unprocessable Entity" + url
    case InternalError => "500 Server Error: Internal Server Error" + url
  }

  /** The endpoints that take a JSON body. */
  const BodyEndpoints: seq<string> :=
    ["init_session", "qa", "simplify", "analyze_complications", "validate_document", "extract_key_dates"]

  /** The server's route table and request-body validation for JSON calls: an unknown
      endpoint is not found, a body without a required field is unprocessable, and
      anything else becomes the request of that endpoint for the body's session. */
  function Route(call: Call): (r: Result<Sessions.Request, Status>)
    ensures r.Failure? && r.error == NotFound <==> call.endpoint !in BodyEndpoints
    ensures r.Failure? ==> r.error != InternalError
    ensures r.Success? ==>
              && Sessions.Path(r.value) == call.endpoint
              && "session_id" in call.payload && r.value.sessionId == call.payload["session_id"]
    ensures (&& call.endpoint in BodyEndpoints
             && "session_id" in call.payload
             && (call.endpoint == "init_session" ==> "document" in call.payload)
             && (call.endpoint == "qa" ==> "question" in call.payload)) ==> r.Success?
    ensures r.Success? && r.value.InitSession? ==>
              "document" in call.payload && r.value.document == call.payload["document"]
    ensures r.Success? && r.value.AnswerQuestion? ==>
              "question" in call.payload && r.value.question == call.payload["question"]
  {
    var p := call.payload;
    if call.endpoint !in BodyEndpoints then Failure(NotFound)
    else if "session_id" !in p then Failure(Unprocessable)
    else
      var id := p["session_id"];
      if call.endpoint == "init_session" then
        if "document" in p then Success(Sessions.InitSession(p["document"], id)) else Failure(Unprocessable)
      else if call.endpoint == "qa" then
        if "question" in p then Success(Sessions.AnswerQuestion(p["question"], id)) else Failure(Unprocessable)
      else if call.endpoint == "simplify" then Success(Sessions.SimplifyDocument(id))
      else if call.endpoint == "analyze_complications" then Success(Sessions.AnalyzeComplications(id))
      else if call.endpoint == "validate_document" then Success(Sessions.ValidateDocument(id))
      else Success(Sessions.ExtractKeyDates(id))
  }

  /** The server's answer to a call: the store afterwards and the JSON body, or the
      text of the HTTP error the client raises. */
  datatype Served = Served(store: Sessions.Store, body: Result<map<string, string>, string>)

  /** Serves one call against the store. A refused call changes nothing; a handled
      call answers with the endpoint's single field, and any error the handler raises
      reaches the client only as the 500 status line. */
  function Serve(store: Sessions.Store, call: Call, model: Sessions.Model): (served: Served)
    ensures Route(call).Failure? ==>
              served == Served(store, Failure(StatusLine(Route(call).error, call.endpoint)))
    ensures Route(call).Success? ==>
              var s := Sessions.Handle(store, Route(call).value, model);
              && served.store == s.store
              && (s.result.Success? ==>
                    served.body == Success(map[Sessions.FieldOf(Route(call).value) := s.result.value.text]))
              && (s.result.Failure? ==> served.body == Failure(StatusLine(InternalError, call.endpoint)))
  {
    match Route(call)
    case Failure(status) => Served(store, Failure(StatusLine(status, call.endpoint)))
    case Success(req) =>
      var s := Sessions.Handle(store, req, model);
      match s.result
      case Success(resp) => Served(s.store, Success(map[resp.field := resp.text]))
      case Failure(_) => Served(s.store, Failure(StatusLine(InternalError, call.endpoint)))
  }

  /** The server request the client's call for tool `t` turns into. */
  function RequestFor(t: Tool, query: string, sessionId: string): Sessions.Request
  {
    match t
    case QA => Sessions.AnswerQuestion(query, sessionId)
    case Simplify => Sessions.SimplifyDocument(sessionId)
    case AnalyzeComplications => Sessions.AnalyzeComplications(sessionId)
    case ValidateDocument => Sessions.ValidateDocument(sessionId)
    case ExtractKeyDates => Sessions.ExtractKeyDates(sessionId)
  }

  /** Client and server agree: the call for every tool reaches the endpoint of that
      tool for the client's session, carries the query only to "qa", and the client
      reads the very field that endpoint answers in. */
  lemma DispatchMeetsRoute(t: Tool, query: string, sessionId: string)
    ensures Dispatch(Name(t), query, sessionId).Some?
    ensures Route(Dispatch(Name(t), query, sessionId).value) == Success(RequestFor(t, query, sessionId))
    ensures Sessions.FieldOf(RequestFor(t, query, sessionId)) == Dispatch(Name(t), query, sessionId).value.field
    ensures Sessions.UsesHistory(RequestFor(t, query, sessionId)) <==> t != AnalyzeComplications
  {
  }

  /** The store and the user-visible reply after one turn. */
  datatype Exchange = Exchange(store: Sessions.Store, reply: ChatReply)

  /** One query from the client through the server. */
  function Turn(store: Sessions.Store, sessionId: string, query: string,
                modelReply: Result<seq<Block>, string>, model: Sessions.Model): (x: Exchange)
    ensures !x.reply.Unrecognized?
    ensures modelReply.Failure? ==> x == Exchange(store, Error(modelReply.error))
  {
    match PlanTurn(query, modelReply, sessionId)
    case Settled(r) => Exchange(store, r)
    case Send(call) =>
      var served := Serve(store, call, model);
      Exchange(served.store, ReadReply(call, served.body))
  }

  /** A turn through the modelled server replies exactly as the client does when the
      server is seen as an oracle that serves each call against the store. */
  lemma TurnIsChat(store: Sessions.Store, sessionId: string, query: string,
                   modelReply: Result<seq<Block>, string>, model: Sessions.Model)
    ensures Turn(store, sessionId, query, modelReply, model).reply
            == ChatWithBot(query, modelReply, sessionId, c => Serve(store, c, model).body)
  {
  }

  /** The tool a turn ends up calling, once the model has replied. */
  function ChosenTool(query: string, content: seq<Block>): Tool
  {
    Parse(SelectTool(query, content)).value
  }

  /** The call a turn sends is the one for the chosen tool. */
  lemma PlannedCall(query: string, content: seq<Block>, sessionId: string)
    ensures PlanTurn(query, Success(content), sessionId)
            == Send(Dispatch(Name(ChosenTool(query, content)), query, sessionId).value)
  {
    var name := SelectTool(query, content);
    assert Name(ChosenTool(query, content)) == name;
  }

  /** On a session the server does not know, a turn changes nothing, and the user
      sees the 500 status line of the chosen tool's endpoint. */
  lemma TurnOnUnknownSession(store: Sessions.Store, sessionId: string, query: string,
                             content: seq<Block>, model: Sessions.Model)
    requires sessionId !in store
    ensures Turn(store, sessionId, query, Success(content), model)
            == Exchange(store, Error(StatusLine(InternalError, Name(ChosenTool(query, content)))))
  {
    var t := ChosenTool(query, content);
    PlannedCall(query, content, sessionId);
    DispatchMeetsRoute(t, query, sessionId);
  }

  /** On a known session whose model call fails, the user sees the 500 status line,
      yet the history keeps the prompt that was sent (one entry longer), except for
      the complications analysis, which leaves the store as it was. */
  lemma TurnWhenModelFails(store: Sessions.Store, sessionId: string, query: string,
                           content: seq<Block>, model: Sessions.Model)
    requires sessionId in store
    requires forall h, n :: model(h, n).CallFailed?
    ensures var x := Turn(store, sessionId, query, Success(content), model);
            && x.reply == Error(StatusLine(InternalError, Name(ChosenTool(query, content))))
            && sessionId in x.store
            && x.store[sessionId].document == store[sessionId].document
            && store[sessionId].messages <= x.store[sessionId].messages
            && (ChosenTool(query, content) == AnalyzeComplications ==> x.store == store)
            && (ChosenTool(query, content) != AnalyzeComplications ==>
                  && |x.store[sessionId].messages| == |store[sessionId].messages| + 1
                  && x.store[sessionId].messages[|store[sessionId].messages|].UserMessage?)
  {
    var t := ChosenTool(query, content);
    var req := RequestFor(t, query, sessionId);
    PlannedCall(query, content, sessionId);
    DispatchMeetsRoute(t, query, sessionId);
    Sessions.ToolRequestEffect(store, req, model);
  }

  /** On a known session whose model answers, a turn returns an answer. The history
      grows by the prompt and that very answer, except for the complications
      analysis, which leaves the history as it was. */
  lemma TurnOnKnownSession(store: Sessions.Store, sessionId: string, query: string,
                           content: seq<Block>, model: Sessions.Model)
    requires sessionId in store
    requires forall h, n :: model(h, n).Text?
    ensures var x := Turn(store, sessionId, query, Success(content), model);
            && x.reply.Answer?
            && sessionId in x.store
            && x.store[sessionId].document == store[sessionId].document
            && (ChosenTool(query, content) == AnalyzeComplications ==> x.store == store)
            && (ChosenTool(query, content) != AnalyzeComplications ==>
                  && |x.store[sessionId].messages| == |store[sessionId].messages| + 2
                  && x.store[sessionId].messages[|store[sessionId].messages| + 1]
                     == Sessions.AssistantMessage(x.reply.text))
  {
    var t := ChosenTool(query, content);
    var req := RequestFor(t, query, sessionId);
    PlannedCall(query, content, sessionId);
    DispatchMeetsRoute(t, query, sessionId);
    Sessions.ToolRequestEffect(store, req, model);
    Sessions.ToolRequestServed(store, req, model);
  }
}
