/** The client object (MCPClient): its tool list and transport are fields
    that connecting sets; answering a query and running the session read
    them. */
module Client {

  import opened Wrappers
  import opened Text
  import opened Launch
  import opened Registry
  import opened Protocol
  import opened Negotiation
  import opened Session

  /** The launch description handed to the stdio transport. */
  datatype Transport = Transport(command: string, args: seq<string>)

  /** Why connecting failed. */
  datatype ConnectError =
    | ScriptPathNotSet
    | LaunchRefused(message: string)
    | ListToolsFailed(message: string)

  /** A script path counts as set when it is present and not empty. */
  predicate IsSet(scriptPath: Option<string>)
  {
    scriptPath.Some? && scriptPath.value != ""
  }

  /** The answer to one query, as the session sees it. */
  function Responder(tools: seq<ModelTool>, svc: Services): string -> Result<string, Failure>
  {
    query => Answer(Negotiate(query, tools, svc))
  }

  /** A transcript with the given queries and answers in front. */
  function Prefixed(queries: seq<string>, shown: seq<string>, t: Transcript): Transcript
  {
    Transcript(queries + t.queries, shown + t.shown, t.end)
  }

  lemma PrefixedTwice(queries: seq<string>, shown: seq<string>, query: string, answer: string, t: Transcript)
    ensures Prefixed(queries, shown, Transcript([query] + t.queries, [answer] + t.shown, t.end))
         == Prefixed(queries + [query], shown + [answer], t)
  {
    assert queries + ([query] + t.queries) == (queries + [query]) + t.queries;
    assert shown + ([answer] + t.shown) == (shown + [answer]) + t.shown;
  }

  /** One line of the session loop, seen from the transcript so far: the
      sentinel ends it, a failing query ends it with that failure, and an
      answered query moves both to the transcript so far. */
  lemma ChatAdvance(inputs: seq<string>, i: nat, respond: string -> Result<string, Failure>,
                    queries: seq<string>, shown: seq<string>)
    requires i < |inputs|
    ensures var t := Prefixed(queries, shown, Chat(inputs[i..], respond));
      && (IsQuit(inputs[i]) ==> t == Transcript(queries, shown, Quit))
      && (!IsQuit(inputs[i]) && respond(inputs[i]).Err? ==>
            t == Transcript(queries + [inputs[i]], shown, Aborted(respond(inputs[i]).error)))
      && (!IsQuit(inputs[i]) && respond(inputs[i]).Ok? ==>
            t == Prefixed(queries + [inputs[i]], shown + [respond(inputs[i]).value], Chat(inputs[i + 1..], respond)))
  {
    assert inputs[i..][0] == inputs[i] && inputs[i..][1..] == inputs[i + 1..];
    ChatNext(inputs[i..], respond);
    assert queries + [] == queries;
    if !IsQuit(inputs[i]) && respond(inputs[i]).Ok? {
      PrefixedTwice(queries, shown, inputs[i], respond(inputs[i]).value, Chat(inputs[i + 1..], respond));
    }
  }

  class McpClient {
    var transport: Option<Transport>
    var tools: seq<ModelTool>

    constructor ()
      ensures transport == None && tools == []
    {
      transport := None;
      tools := [];
    }

    /** Connects to the tool server at `scriptPath` and caches its tools.
        `listed` is what the server's tool listing returns; `platform` and
        `execPath` are those of the running process. */
    method ConnectToServer(scriptPath: Option<string>, platform: string, execPath: string,
                           listed: Result<seq<McpTool>, string>)
      returns (r: Result<(), ConnectError>)
      modifies this
      ensures !IsSet(scriptPath) ==> r == Err(ScriptPathNotSet)
      ensures IsSet(scriptPath) && CreateCommand(scriptPath.value, platform, execPath).Err? ==>
                r == Err(LaunchRefused(UnsupportedScript))
      ensures IsSet(scriptPath) && CreateCommand(scriptPath.value, platform, execPath).Ok? ==>
                && transport == Some(Transport(CreateCommand(scriptPath.value, platform, execPath).value, [scriptPath.value]))
                && r == (if listed.Ok? then Ok(()) else Err(ListToolsFailed(listed.error)))
      ensures !(IsSet(scriptPath) && CreateCommand(scriptPath.value, platform, execPath).Ok?) ==>
                transport == old(transport)
      ensures r.Ok? ==> tools == Project(listed.value)
      ensures r.Err? ==> tools == old(tools)
    {
      if !IsSet(scriptPath) {
        return Err(ScriptPathNotSet);
      }
      var path := scriptPath.value;
      var command := CreateCommand(path, platform, execPath);
      if command.Err? {
        return Err(LaunchRefused(command.error));
      }
      transport := Some(Transport(command.value, [path]));
      if listed.Err? {
        return Err(ListToolsFailed(listed.error));
      }
      tools := Project(listed.value);
      r := Ok(());
    }

    /** Negotiates one query against the cached tools. Besides the answer
        it yields the conversation as it stands at the end and the calls
        made to the two services, in order. */
    method ProcessQuery(query: string, svc: Services)
      returns (answer: Result<string, Failure>, conversation: seq<Message>, calls: seq<Call>)
      ensures var r := Negotiate(query, tools, svc);
        && answer == Answer(r)
        && conversation == r.conversation
        && calls == r.calls
    {
      conversation := [UserTurn(query)];
      var first := Request(conversation, Some(tools));
      calls := [ModelCall(first)];
      var content: seq<Block>;
      match svc.model(first) {
        case Err(e) =>
          return Err(ModelServiceError(e)), conversation, calls;
        case Ok(blocks) =>
          content := blocks;
      }
      var finalText: seq<string> := [];
      assert Negotiate(query, tools, svc) == Walk(Run(finalText, conversation, calls, None), content[0..], svc);
      for i := 0 to |content|
        invariant Walk(Run(finalText, conversation, calls, None), content[i..], svc) == Negotiate(query, tools, svc)
      {
        assert content[i..][0] == content[i] && content[i..][1..] == content[i + 1..];
        match content[i]
        case TextBlock(text) =>
          finalText := finalText + [text];
        case OtherBlock =>
        case ToolUseBlock(name, input) =>
          var req := ToolRequest(name, input);
          var result := svc.callTool(req);
          calls := calls + [ToolCall(req)];
          match result {
            case Err(e) =>
              return Err(ToolInvocationError(e)), conversation, calls;
            case Ok(payload) =>
              finalText := finalText + [TraceLine(req, svc.stringify)];
              conversation := conversation + [ToolTurn(payload)];
          }
          var followUp := Request(conversation, None);
          var reply := svc.model(followUp);
          calls := calls + [ModelCall(followUp)];
          match reply {
            case Err(e) =>
              return Err(ModelServiceError(e)), conversation, calls;
            case Ok(blocks) =>
              if blocks == [] {
                return Err(EmptyFollowUp), conversation, calls;
              }
              finalText := finalText + [FollowUpText(blocks)];
          }
      }
      assert content[|content|..] == [];
      answer := Ok(Join(finalText, "\n"));
    }

    /** Runs the session over the lines the user types, in order. */
    method ChatLoop(inputs: seq<string>, svc: Services) returns (t: Transcript)
      ensures t == Chat(inputs, Responder(tools, svc))
    {
      ghost var respond := Responder(tools, svc);
      var queries: seq<string> := [];
      var shown: seq<string> := [];
      for i := 0 to |inputs|
        invariant Chat(inputs, respond) == Prefixed(queries, shown, Chat(inputs[i..], respond))
      {
        var input := inputs[i];
        if IsQuit(input) {
          ChatAdvance(inputs, i, respond, queries, shown);
          return Transcript(queries, shown, Quit);
        }
        var answer, _, _ := ProcessQuery(input, svc);
        ChatAdvance(inputs, i, respond, queries, shown);
        assert respond(input) == answer;
        if answer.Err? {
          return Transcript(queries + [input], shown, Aborted(answer.error));
        }
        queries := queries + [input];
        shown := shown + [answer.value];
      }
      assert inputs[|inputs|..] == [];
      t := Transcript(queries, shown, InputClosed);
    }
  }
}
