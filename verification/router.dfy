/** The client's routing of one user query: read the model's tool choice, fall
    back to the keyword classifier, call the matching server endpoint and pick
    the answer out of its reply. The model and the server are inputs. */
module Router {
  import opened Wrappers
  import opened Intent

  /** A JSON value in a tool-use input; only strings can name a tool. */
  datatype Value = Str(s: string) | NonString

  /** One content block of the model's reply. */
  datatype Block = ToolUse(input: map<string, Value>) | OtherBlock

  /** An HTTP call to the server: endpoint, JSON payload, and the reply field read back. */
  datatype Call = Call(endpoint: string, payload: map<string, string>, field: string)

  /** What `chat_with_bot` hands back to the user. */
  datatype ChatReply = Answer(text: string) | Unrecognized(tool: string) | Error(reason: string)

  /** Either the call the client is about to make, or a reply it settles on without one. */
  datatype Plan = Send(call: Call) | Settled(reply: ChatReply)

  /** The input of the first tool-use block of the reply, if there is one. */
  function FirstToolInput(content: seq<Block>): (r: Option<map<string, Value>>)
    ensures r.None? <==> forall i :: 0 <= i < |content| ==> !content[i].ToolUse?
    ensures r.Some? ==> exists i :: 0 <= i < |content| && content[i] == ToolUse(r.value)
                                    && forall j :: 0 <= j < i ==> !content[j].ToolUse?
  {
    if content == [] then None
    else if content[0].ToolUse? then Some(content[0].input)
    else
      var r := FirstToolInput(content[1..]);
      assert r.Some? ==> exists i :: 0 <= i < |content| && content[i] == ToolUse(r.value)
                                     && forall j :: 0 <= j < i ==> !content[j].ToolUse? by {
        if r.Some? {
          var i :| 0 <= i < |content[1..]| && content[1..][i] == ToolUse(r.value)
                   && forall j :: 0 <= j < i ==> !content[1..][j].ToolUse?;
          assert content[i + 1] == ToolUse(r.value);
          assert forall j :: 0 <= j < i + 1 ==> !content[j].ToolUse? by {
            forall j | 0 <= j < i + 1 ensures !content[j].ToolUse? {
              if j > 0 { assert content[j] == content[1..][j - 1]; }
            }
          }
        }
      }
      assert r.None? ==> forall i :: 0 <= i < |content| ==> !content[i].ToolUse? by {
        if r.None? {
          forall i | 0 <= i < |content| ensures !content[i].ToolUse? {
            if i > 0 { assert content[i] == content[1..][i - 1]; }
          }
        }
      }
      r
  }

  /** The model's choice is usable: a non-empty tool-use input whose "tool" is an enum literal. */
  predicate Usable(toolUse: Option<map<string, Value>>)
  {
    && toolUse.Some?
    && |toolUse.value| != 0
    && "tool" in toolUse.value
    && toolUse.value["tool"].Str?
    && toolUse.value["tool"].s in ToolNames
  }

  /** The tool name the client dispatches on: the model's pick when usable,
      otherwise the keyword classifier's answer. */
  function SelectTool(query: string, content: seq<Block>): (name: string)
    ensures name in ToolNames
    ensures Usable(FirstToolInput(content)) ==> name == FirstToolInput(content).value["tool"].s
    ensures !Usable(FirstToolInput(content)) ==> name == Name(ClassifyIntent(query))
  {
    var toolUse := FirstToolInput(content);
    if !Usable(toolUse) then
      ParseName(ClassifyIntent(query));
      Name(ClassifyIntent(query))
    else
      toolUse.value["tool"].s
  }

  /** The endpoint call for a tool name; `None` is the "unrecognized tool" branch.
      Exactly the enum literals are dispatched, each to the endpoint of the same name,
      always with the session id, and with the question only for "qa". */
  function Dispatch(name: string, query: string, sessionId: string): (r: Option<Call>)
    ensures r.Some? <==> name in ToolNames
    ensures r.Some? ==>
              && r.value.endpoint == name
              && "session_id" in r.value.payload && r.value.payload["session_id"] == sessionId
              && (name == "qa" ==> r.value.payload == map["question" := query, "session_id" := sessionId])
              && (name != "qa" ==> r.value.payload.Keys == {"session_id"})
  {
    if name == "qa" then Some(Call("qa", map["question" := query, "session_id" := sessionId], "answer"))
    else if name == "simplify" then Some(Call("simplify", map["session_id" := sessionId], "simplified_document"))
    else if name == "analyze_complications" then
      Some(Call("analyze_complications", map["session_id" := sessionId], "analysis"))
    else if name == "validate_document" then
      Some(Call("validate_document", map["session_id" := sessionId], "validation"))
    else if name == "extract_key_dates" then
      Some(Call("extract_key_dates", map["session_id" := sessionId], "key_dates"))
    else None
  }

  /** The reply field read for each tool. */
  lemma DispatchFields(query: string, sessionId: string)
    ensures Dispatch(Name(QA), query, sessionId).value.field == "answer"
    ensures Dispatch(Name(Simplify), query, sessionId).value.field == "simplified_document"
    ensures Dispatch(Name(AnalyzeComplications), query, sessionId).value.field == "analysis"
    ensures Dispatch(Name(ValidateDocument), query, sessionId).value.field == "validation"
    ensures Dispatch(Name(ExtractKeyDates), query, sessionId).value.field == "key_dates"
  {
  }

  /** Everything `chat_with_bot` does before its HTTP call. A failed model call is
      caught by the outer handler and reported; it does not fall back. */
  function PlanTurn(query: string, modelReply: Result<seq<Block>, string>, sessionId: string): (p: Plan)
    ensures modelReply.Failure? ==> p == Settled(Error(modelReply.error))
    ensures modelReply.Success? ==>
              p == Send(Dispatch(SelectTool(query, modelReply.value), query, sessionId).value)
  {
    match modelReply
    case Failure(e) => Settled(Error(e))
    case Success(content) =>
      var name := SelectTool(query, content);
      match Dispatch(name, query, sessionId)
      case None => Settled(Unrecognized(name))
      case Some(call) => Send(call)
  }

  /** Reads the expected field out of the server's JSON reply; a failed request is
      reported with its error text, and a missing field as the quoted field name. */
  function ReadReply(call: Call, body: Result<map<string, string>, string>): (r: ChatReply)
    ensures r.Answer? <==> body.Success? && call.field in body.value
    ensures r.Answer? ==> r.text == body.value[call.field]
    ensures !r.Unrecognized?
  {
    match body
    case Failure(e) => Error(e)
    case Success(fields) => if call.field in fields then Answer(fields[call.field]) else Error("'" + call.field + "'")
  }

  /** One query through the client, with the server as an oracle from calls to replies.
      The "unrecognized tool" branch is unreachable: after the fallback the name is
      always an enum literal. */
  function ChatWithBot(query: string, modelReply: Result<seq<Block>, string>, sessionId: string,
                       serve: Call -> Result<map<string, string>, string>): (r: ChatReply)
    ensures !r.Unrecognized?
    ensures modelReply.Failure? ==> r == Error(modelReply.error)
    ensures modelReply.Success? ==>
              var call := Dispatch(SelectTool(query, modelReply.value), query, sessionId).value;
              r == ReadReply(call, serve(call))
  {
    match PlanTurn(query, modelReply, sessionId)
    case Settled(r) => r
    case Send(call) => ReadReply(call, serve(call))
  }

  /** The tool the client calls is the model's pick exactly when the first tool-use
      block names an enum literal; otherwise it is the classifier's answer. */
  lemma CallFollowsChoice(query: string, content: seq<Block>, sessionId: string, i: nat, t: Tool)
    requires i < |content| && content[i].ToolUse?
    requires forall j :: 0 <= j < i ==> !content[j].ToolUse?
    requires "tool" in content[i].input && content[i].input["tool"] == Str(Name(t))
    ensures PlanTurn(query, Success(content), sessionId).call.endpoint == Name(t)
  {
    assert content[i] == ToolUse(FirstToolInput(content).value);
    ParseName(t);
  }

  /** Without any tool-use block the classifier decides the endpoint. */
  lemma NoToolUseFallsBack(query: string, content: seq<Block>, sessionId: string)
    requires forall i :: 0 <= i < |content| ==> content[i] == OtherBlock
    ensures PlanTurn(query, Success(content), sessionId).call.endpoint == Name(ClassifyIntent(query))
  {
  }

  /** A tool name outside the enum is ignored in favour of the classifier. */
  lemma UnknownToolFallsBack(query: string, content: seq<Block>, sessionId: string, i: nat, name: string)
    requires i < |content| && content[i].ToolUse?
    requires forall j :: 0 <= j < i ==> !content[j].ToolUse?
    requires "tool" in content[i].input && content[i].input["tool"] == Str(name)
    requires name !in ToolNames
    ensures PlanTurn(query, Success(content), sessionId).call.endpoint == Name(ClassifyIntent(query))
  {
    assert content[i] == ToolUse(FirstToolInput(content).value);
  }
}
