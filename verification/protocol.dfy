/** What crosses the two service boundaries during one query: content
    blocks of a model reply, conversation turns, requests to either
    service, and the services themselves as oracles. */
module Protocol {

  import opened Wrappers
  import opened Values
  import opened Registry

  /** One content block of a model reply. Blocks of any other type
      (neither "text" nor "tool_use") are `OtherBlock`. */
  datatype Block =
    | TextBlock(text: string)
    | ToolUseBlock(name: string, input: Json)
    | OtherBlock

  datatype Role = User | Assistant

  /** A turn carries either plain text or a tool's result content, which
      the client forwards without looking at it. */
  datatype Content = Plain(text: string) | ToolOutput(payload: Json)

  datatype Message = Message(role: Role, content: Content)

  /** A request to the model service; `tools` is absent on follow-ups. */
  datatype Request = Request(messages: seq<Message>, tools: Option<seq<ModelTool>>)

  /** A request to the tool server: tool name and arguments. */
  datatype ToolRequest = ToolRequest(name: string, arguments: Json)

  /** One outgoing call, in the order the client makes them. */
  datatype Call = ModelCall(request: Request) | ToolCall(invocation: ToolRequest)

  /** The external collaborators: the model service (reply blocks or a
      fault message), the tool server (result content or a fault message)
      and the JSON serialiser used for the trace line. */
  datatype Services = Services(
    model: Request -> Result<seq<Block>, string>,
    callTool: ToolRequest -> Result<Json, string>,
    stringify: Json -> string)

  /** Why a query is abandoned. `EmptyFollowUp` is the failure of reading
      the first block of a follow-up reply that has none. */
  datatype Failure =
    | ModelServiceError(message: string)
    | ToolInvocationError(message: string)
    | EmptyFollowUp

  function UserTurn(query: string): Message
  {
    Message(User, Plain(query))
  }

  function ToolTurn(payload: Json): Message
  {
    Message(User, ToolOutput(payload))
  }

  /** The model requests among the calls, in order. */
  function ModelRequests(calls: seq<Call>): seq<Request>
  {
    if calls == [] then []
    else (if calls[0].ModelCall? then [calls[0].request] else []) + ModelRequests(calls[1..])
  }

  /** The tool requests among the calls, in order. */
  function ToolRequests(calls: seq<Call>): seq<ToolRequest>
  {
    if calls == [] then []
    else (if calls[0].ToolCall? then [calls[0].invocation] else []) + ToolRequests(calls[1..])
  }

  lemma {:induction false} ModelRequestsAppend(a: seq<Call>, b: seq<Call>)
    ensures ModelRequests(a + b) == ModelRequests(a) + ModelRequests(b)
  {
    if a == [] {
      assert a + b == b;
    } else {
      var head := if a[0].ModelCall? then [a[0].request] else [];
      assert (a + b)[0] == a[0];
      assert (a + b)[1..] == a[1..] + b;
      ModelRequestsAppend(a[1..], b);
      calc {
        ModelRequests(a + b);
        head + ModelRequests(a[1..] + b);
        head + (ModelRequests(a[1..]) + ModelRequests(b));
        (head + ModelRequests(a[1..])) + ModelRequests(b);
      }
    }
  }

  lemma {:induction false} ToolRequestsAppend(a: seq<Call>, b: seq<Call>)
    ensures ToolRequests(a + b) == ToolRequests(a) + ToolRequests(b)
  {
    if a == [] {
      assert a + b == b;
    } else {
      var head := if a[0].ToolCall? then [a[0].invocation] else [];
      assert (a + b)[0] == a[0];
      assert (a + b)[1..] == a[1..] + b;
      ToolRequestsAppend(a[1..], b);
      calc {
        ToolRequests(a + b);
        head + ToolRequests(a[1..] + b);
        head + (ToolRequests(a[1..]) + ToolRequests(b));
        (head + ToolRequests(a[1..])) + ToolRequests(b);
      }
    }
  }

  lemma ModelRequestsPrefix(a: seq<Call>, b: seq<Call>)
    requires a <= b
    ensures ModelRequests(a) <= ModelRequests(b)
  {
    assert b == a + b[|a|..];
    ModelRequestsAppend(a, b[|a|..]);
  }
}
