/** One query's negotiation (processQuery), as a specification: the first
    model call with the tool list, then a walk over the reply's blocks in
    which every text block is copied to the output and every tool-use
    block costs one tool call, one user turn and one follow-up model call.
    The method that runs it in place is McpClient.ProcessQuery. */
module Negotiation {

  import opened Wrappers
  import opened Values
  import opened Registry
  import opened Protocol
  import opened Text

  /** The state of a negotiation: the output fragments (`finalText`), the
      conversation (`queryMessages`), every call made so far, and the
      failure that ended it early, if any. */
  datatype Run = Run(fragments: seq<string>, conversation: seq<Message>, calls: seq<Call>, failure: Option<Failure>)

  /** The first request: the query as the only user turn, with the tools. */
  function FirstRequest(query: string, tools: seq<ModelTool>): Request
  {
    Request([UserTurn(query)], Some(tools))
  }

  /** The trace fragment for a tool call: the tool's name at a fixed place
      after the opening words, the serialised arguments after it, and a
      closing bracket. */
  function TraceLine(req: ToolRequest, stringify: Json -> string): (r: string)
    ensures |r| == 26 + |req.name| + |stringify(req.arguments)|
    ensures r[..14] == "[Calling tool " && r[14..14 + |req.name|] == req.name
    ensures r[14 + |req.name|..25 + |req.name|] == " with args "
    ensures r[|r| - 1 - |stringify(req.arguments)|..|r| - 1] == stringify(req.arguments) && r[|r| - 1] == ']'
  {
    "[Calling tool " + req.name + " with args " + stringify(req.arguments) + "]"
  }

  /** What a follow-up reply adds to the output: its first block's text
      if that block is text, the empty string otherwise. */
  function FollowUpText(reply: seq<Block>): string
    requires reply != []
  {
    if reply[0].TextBlock? then reply[0].text else ""
  }

  /** One pass of the block loop. The trace line is added only once the
      tool call has returned; the tool's result becomes a user turn; the
      follow-up is sent the whole conversation without the tool list. */
  function Step(st: Run, b: Block, svc: Services): (r: Run)
    requires st.failure.None?
    ensures st.fragments <= r.fragments && st.conversation <= r.conversation && st.calls <= r.calls
    ensures |r.calls| <= |st.calls| + 2
  {
    match b
    case TextBlock(t) => st.(fragments := st.fragments + [t])
    case OtherBlock => st
    case ToolUseBlock(name, input) =>
      var req := ToolRequest(name, input);
      var called := st.calls + [ToolCall(req)];
      match svc.callTool(req)
      case Err(e) => st.(calls := called, failure := Some(ToolInvocationError(e)))
      case Ok(payload) =>
        var fragments := st.fragments + [TraceLine(req, svc.stringify)];
        var conversation := st.conversation + [ToolTurn(payload)];
        var followUp := Request(conversation, None);
        var calls := called + [ModelCall(followUp)];
        match svc.model(followUp)
        case Err(e) => Run(fragments, conversation, calls, Some(ModelServiceError(e)))
        case Ok(reply) =>
          if reply == [] then Run(fragments, conversation, calls, Some(EmptyFollowUp))
          else Run(fragments + [FollowUpText(reply)], conversation, calls, None)
  }

  /** The block loop from state `st`; a failure abandons the rest. */
  function Walk(st: Run, blocks: seq<Block>, svc: Services): (r: Run)
    ensures |r.calls| <= |st.calls| + 2 * |blocks|
    decreases |blocks|
  {
    if st.failure.Some? || blocks == [] then st
    else Walk(Step(st, blocks[0], svc), blocks[1..], svc)
  }

  /** The negotiation of one query against the given tool list. */
  function Negotiate(query: string, tools: seq<ModelTool>, svc: Services): (r: Run)
    ensures r.calls != [] && r.calls[0] == ModelCall(FirstRequest(query, tools))
    ensures r.conversation != [] && r.conversation[0] == UserTurn(query)
    ensures forall i :: 0 <= i < |r.conversation| ==> r.conversation[i].role == User
  {
    var first := FirstRequest(query, tools);
    var start := Run([], first.messages, [ModelCall(first)], None);
    match svc.model(first)
    case Err(e) => start.(failure := Some(ModelServiceError(e)))
    case Ok(content) =>
      WalkAppendOnly(start, content, svc);
      Walk(start, content, svc)
  }

  /** The value processQuery returns or the failure it raises: the
      fragments joined with newlines. */
  function Answer(run: Run): (r: Result<string, Failure>)
    ensures r.Err? <==> run.failure.Some?
    ensures r.Err? ==> r.error == run.failure.value
    ensures r.Ok? && run.fragments != [] ==> run.fragments[0] <= r.value
  {
    if run.failure.Some? then Err(run.failure.value) else Ok(Join(run.fragments, "\n"))
  }

  function TextOf(b: Block): seq<string>
  {
    if b.TextBlock? then [b.text] else []
  }

  function ToolUseOf(b: Block): seq<ToolRequest>
  {
    if b.ToolUseBlock? then [ToolRequest(b.name, b.input)] else []
  }

  /** The texts of the text blocks, in order. */
  function Texts(blocks: seq<Block>): seq<string>
  {
    if blocks == [] then [] else TextOf(blocks[0]) + Texts(blocks[1..])
  }

  /** The tool requests of the tool-use blocks, in order. */
  function ToolUses(blocks: seq<Block>): seq<ToolRequest>
  {
    if blocks == [] then [] else ToolUseOf(blocks[0]) + ToolUses(blocks[1..])
  }

  /** A call that explains a failure: the query stops right after it. */
  predicate FailedAt(c: Call, f: Failure, svc: Services)
  {
    match f
    case ModelServiceError(e) => c.ModelCall? && svc.model(c.request) == Err(e)
    case ToolInvocationError(e) => c.ToolCall? && svc.callTool(c.invocation) == Err(e)
    case EmptyFollowUp => c.ModelCall? && svc.model(c.request) == Ok([])
  }

  // ---------------------------------------------------------------------
  // The block loop

  /** One tool-use block that goes through: a tool call and a follow-up
      call, one user turn with the tool's result, and two fragments. */
  lemma StepToolUse(st: Run, name: string, input: Json, svc: Services)
    requires st.failure.None?
    requires Step(st, ToolUseBlock(name, input), svc).failure.None?
    ensures var req := ToolRequest(name, input);
      var r := Step(st, ToolUseBlock(name, input), svc);
      var followUp := Request(r.conversation, None);
      && svc.callTool(req).Ok?
      && r.conversation == st.conversation + [ToolTurn(svc.callTool(req).value)]
      && r.calls == st.calls + [ToolCall(req), ModelCall(followUp)]
      && ModelRequests(r.calls) == ModelRequests(st.calls) + [followUp]
      && ToolRequests(r.calls) == ToolRequests(st.calls) + [req]
      && svc.model(followUp).Ok? && svc.model(followUp).value != []
      && r.fragments == st.fragments + [TraceLine(req, svc.stringify), FollowUpText(svc.model(followUp).value)]
  {
    var req := ToolRequest(name, input);
    var r := Step(st, ToolUseBlock(name, input), svc);
    var followUp := Request(r.conversation, None);
    var round := [ToolCall(req), ModelCall(followUp)];
    assert round[1..] == [ModelCall(followUp)] && round[1..][1..] == [];
    assert ModelRequests(round[1..]) == [followUp];
    assert ModelRequests(round) == [followUp];
    assert ToolRequests(round[1..]) == [];
    assert ToolRequests(round) == [req];
    ModelRequestsAppend(st.calls, round);
    ToolRequestsAppend(st.calls, round);
  }

  /** What a follow-up reply adds to the output is the first of its texts
      when it opens with a text block, and the empty string otherwise: the
      text blocks after the first are not looked at. */
  lemma FollowUpFragment(reply: seq<Block>)
    requires reply != []
    ensures reply[0].TextBlock? ==> Texts(reply) != [] && FollowUpText(reply) == Texts(reply)[0]
    ensures !reply[0].TextBlock? ==> FollowUpText(reply) == ""
  {
  }

  /** A block that is not a tool use leaves conversation and calls alone. */
  lemma StepPlain(st: Run, b: Block, svc: Services)
    requires st.failure.None?
    requires !b.ToolUseBlock?
    ensures var r := Step(st, b, svc);
      r.failure.None? && r.calls == st.calls && r.conversation == st.conversation
  {
  }

  /** Output, conversation and call log only grow; what was there is never
      changed or removed, and every turn added is a user turn. */
  lemma {:induction false} WalkAppendOnly(st: Run, blocks: seq<Block>, svc: Services)
    ensures var r := Walk(st, blocks, svc);
      && st.fragments <= r.fragments
      && st.conversation <= r.conversation
      && st.calls <= r.calls
      && forall i :: |st.conversation| <= i < |r.conversation| ==> r.conversation[i].role == User
    decreases |blocks|
  {
    if st.failure.None? && blocks != [] {
      WalkAppendOnly(Step(st, blocks[0], svc), blocks[1..], svc);
    }
  }

  /** Running the loop over `a + b` is running it over `a`, then over `b`. */
  lemma {:induction false} WalkSplit(st: Run, a: seq<Block>, b: seq<Block>, svc: Services)
    ensures Walk(st, a + b, svc) == Walk(Walk(st, a, svc), b, svc)
    decreases |a|
  {
    if st.failure.Some? {
    } else if a == [] {
      assert a + b == b;
    } else {
      assert (a + b)[0] == a[0];
      assert (a + b)[1..] == a[1..] + b;
      WalkSplit(Step(st, a[0], svc), a[1..], b, svc);
    }
  }

  /** A loop that succeeds over `before + [b] + after` went through
      `before`, then through the step for `b`, then through `after`. */
  lemma WalkAround(st: Run, before: seq<Block>, b: Block, after: seq<Block>, svc: Services)
    requires st.failure.None?
    requires Walk(st, before + [b] + after, svc).failure.None?
    ensures var mid := Walk(st, before, svc);
      && mid.failure.None?
      && Step(mid, b, svc).failure.None?
      && Walk(st, before + [b] + after, svc) == Walk(Step(mid, b, svc), after, svc)
  {
    WalkSplit(st, before + [b], after, svc);
    WalkSplit(st, before, [b], svc);
    var mid := Walk(st, before, svc);
    if mid.failure.None? {
      assert [b][0] == b && [b][1..] == [];
    }
  }

  /** Over text blocks only, the loop copies the texts in order and calls
      nothing. */
  lemma {:induction false} WalkAllText(st: Run, blocks: seq<Block>, svc: Services)
    requires st.failure.None?
    requires forall i :: 0 <= i < |blocks| ==> blocks[i].TextBlock?
    ensures Walk(st, blocks, svc) == st.(fragments := st.fragments + Texts(blocks))
    decreases |blocks|
  {
    if blocks == [] {
      assert st.fragments + Texts(blocks) == st.fragments;
    } else {
      var next := Step(st, blocks[0], svc);
      WalkAllText(next, blocks[1..], svc);
      assert next.fragments + Texts(blocks[1..]) == st.fragments + Texts(blocks);
    }
  }

  /** One block that goes through: what it adds to each part of the state,
      counted by the tool-use and text blocks it is. */
  lemma StepCounts(st: Run, b: Block, svc: Services)
    requires st.failure.None?
    requires Step(st, b, svc).failure.None?
    ensures var r := Step(st, b, svc);
      && ToolRequests(r.calls) == ToolRequests(st.calls) + ToolUseOf(b)
      && |ModelRequests(r.calls)| == |ModelRequests(st.calls)| + |ToolUseOf(b)|
      && |r.conversation| == |st.conversation| + |ToolUseOf(b)|
      && |r.fragments| == |st.fragments| + |TextOf(b)| + 2 * |ToolUseOf(b)|
  {
    if b.ToolUseBlock? {
      StepToolUse(st, b.name, b.input, svc);
    } else {
      assert ToolRequests(st.calls) + [] == ToolRequests(st.calls);
    }
  }

  /** A loop that succeeds made one tool call per tool-use block, in
      block order and with name and arguments unchanged. */
  lemma {:induction false} WalkToolCalls(st: Run, blocks: seq<Block>, svc: Services)
    requires st.failure.None?
    requires Walk(st, blocks, svc).failure.None?
    ensures ToolRequests(Walk(st, blocks, svc).calls) == ToolRequests(st.calls) + ToolUses(blocks)
    decreases |blocks|
  {
    if blocks == [] {
      assert ToolRequests(st.calls) + ToolUses(blocks) == ToolRequests(st.calls);
    } else {
      var next := Step(st, blocks[0], svc);
      StepCounts(st, blocks[0], svc);
      WalkToolCalls(next, blocks[1..], svc);
      assert ToolUses(blocks) == ToolUseOf(blocks[0]) + ToolUses(blocks[1..]);
      assert (ToolRequests(st.calls) + ToolUseOf(blocks[0])) + ToolUses(blocks[1..])
          == ToolRequests(st.calls) + ToolUses(blocks);
    }
  }

  /** A loop that succeeds made one follow-up per tool-use block, added
      one turn per tool-use block, and added two fragments per tool-use
      block besides one per text block. */
  lemma {:induction false} WalkCounts(st: Run, blocks: seq<Block>, svc: Services)
    requires st.failure.None?
    requires Walk(st, blocks, svc).failure.None?
    ensures var r := Walk(st, blocks, svc);
      && |ModelRequests(r.calls)| == |ModelRequests(st.calls)| + |ToolUses(blocks)|
      && |r.conversation| == |st.conversation| + |ToolUses(blocks)|
      && |r.fragments| == |st.fragments| + |Texts(blocks)| + 2 * |ToolUses(blocks)|
    decreases |blocks|
  {
    if blocks != [] {
      var next := Step(st, blocks[0], svc);
      assert Walk(st, blocks, svc) == Walk(next, blocks[1..], svc);
      StepCounts(st, blocks[0], svc);
      WalkCounts(next, blocks[1..], svc);
      assert |ToolUses(blocks)| == |ToolUseOf(blocks[0])| + |ToolUses(blocks[1..])|;
      assert |Texts(blocks)| == |TextOf(blocks[0])| + |Texts(blocks[1..])|;
    }
  }

  /** In a loop that succeeds, the j-th turn it adds is a user turn
      carrying exactly what the j-th tool call returned. */
  lemma {:induction false} WalkConversation(st: Run, blocks: seq<Block>, svc: Services)
    requires st.failure.None?
    requires Walk(st, blocks, svc).failure.None?
    ensures var r := Walk(st, blocks, svc);
      && |r.conversation| == |st.conversation| + |ToolUses(blocks)|
      && forall j :: 0 <= j < |ToolUses(blocks)| ==>
           && svc.callTool(ToolUses(blocks)[j]).Ok?
           && r.conversation[|st.conversation| + j] == ToolTurn(svc.callTool(ToolUses(blocks)[j]).value)
    decreases |blocks|
  {
    WalkCounts(st, blocks, svc);
    if blocks != [] {
      var next := Step(st, blocks[0], svc);
      var r := Walk(next, blocks[1..], svc);
      WalkConversation(next, blocks[1..], svc);
      WalkAppendOnly(next, blocks[1..], svc);
      if blocks[0].ToolUseBlock? {
        StepToolUse(st, blocks[0].name, blocks[0].input, svc);
        var uses := ToolUses(blocks);
        assert uses == [uses[0]] + ToolUses(blocks[1..]);
        assert r.conversation[|st.conversation|] == next.conversation[|st.conversation|];
        forall j | 0 < j < |uses|
          ensures svc.callTool(uses[j]).Ok?
          ensures r.conversation[|st.conversation| + j] == ToolTurn(svc.callTool(uses[j]).value)
        {
          assert uses[j] == ToolUses(blocks[1..])[j - 1];
          assert |st.conversation| + j == |next.conversation| + (j - 1);
        }
      }
    }
  }

  /** From model request `m` on, the requests in `calls` are follow-ups
      without tools, and the one at `i` carries `conversation` up to the
      turn `i - m` places after turn `n`. */
  predicate FollowUpsFrom(calls: seq<Call>, conversation: seq<Message>, m: nat, n: nat)
  {
    && m <= |ModelRequests(calls)|
    && |ModelRequests(calls)| - m + n == |conversation|
    && forall i :: m <= i < |ModelRequests(calls)| ==>
         ModelRequests(calls)[i] == Request(conversation[..i - m + n + 1], None)
  }

  /** A tool step puts one follow-up in front of the ones after it. */
  lemma FollowUpsExtend(st: Run, next: Run, r: Run)
    requires FollowUpsFrom(r.calls, r.conversation, |ModelRequests(next.calls)|, |next.conversation|)
    requires next.calls <= r.calls && next.conversation <= r.conversation
    requires ModelRequests(next.calls) == ModelRequests(st.calls) + [Request(next.conversation, None)]
    requires |next.conversation| == |st.conversation| + 1
    ensures FollowUpsFrom(r.calls, r.conversation, |ModelRequests(st.calls)|, |st.conversation|)
  {
    var m := |ModelRequests(st.calls)|;
    var n := |st.conversation|;
    ModelRequestsPrefix(next.calls, r.calls);
    assert ModelRequests(r.calls)[m] == ModelRequests(next.calls)[m];
    assert next.conversation == r.conversation[..n + 1];
  }

  /** In a loop that succeeds, the follow-up after the j-th tool-use block
      carries no tool list and exactly the conversation up to and including
      that tool's turn. */
  lemma {:induction false} WalkFollowUps(st: Run, blocks: seq<Block>, svc: Services)
    requires st.failure.None?
    requires Walk(st, blocks, svc).failure.None?
    ensures var r := Walk(st, blocks, svc);
      FollowUpsFrom(r.calls, r.conversation, |ModelRequests(st.calls)|, |st.conversation|)
    decreases |blocks|
  {
    if blocks != [] {
      var next := Step(st, blocks[0], svc);
      var r := Walk(next, blocks[1..], svc);
      assert Walk(st, blocks, svc) == r;
      WalkFollowUps(next, blocks[1..], svc);
      if blocks[0].ToolUseBlock? {
        StepToolUse(st, blocks[0].name, blocks[0].input, svc);
        WalkAppendOnly(next, blocks[1..], svc);
        FollowUpsExtend(st, next, r);
      } else {
        StepPlain(st, blocks[0], svc);
      }
    }
  }

  /** A loop that fails stops at the call that failed: the last call made
      is the one whose fault (or empty reply) is reported. */
  lemma {:induction false} WalkFailure(st: Run, blocks: seq<Block>, svc: Services)
    requires st.failure.None?
    requires Walk(st, blocks, svc).failure.Some?
    ensures var r := Walk(st, blocks, svc);
      r.calls != [] && FailedAt(r.calls[|r.calls| - 1], r.failure.value, svc)
    decreases |blocks|
  {
    var next := Step(st, blocks[0], svc);
    if next.failure.None? {
      WalkFailure(next, blocks[1..], svc);
    }
  }

  /** A tool call that fails adds no trace line, no turn and no follow-up. */
  lemma NoTraceForFailedTool(st: Run, name: string, input: Json, svc: Services)
    requires st.failure.None?
    requires svc.callTool(ToolRequest(name, input)).Err?
    ensures var r := Step(st, ToolUseBlock(name, input), svc);
      && r.fragments == st.fragments
      && r.conversation == st.conversation
      && r.calls == st.calls + [ToolCall(ToolRequest(name, input))]
      && r.failure == Some(ToolInvocationError(svc.callTool(ToolRequest(name, input)).error))
  {
  }

  // ---------------------------------------------------------------------
  // One query

  /** A query that succeeds got a reply to its first call and walked
      that reply's blocks from the state after that call. */
  lemma NegotiateWalks(query: string, tools: seq<ModelTool>, svc: Services)
    requires Negotiate(query, tools, svc).failure.None?
    ensures svc.model(FirstRequest(query, tools)).Ok?
    ensures var first := FirstRequest(query, tools);
      Negotiate(query, tools, svc)
        == Walk(Run([], first.messages, [ModelCall(first)], None), svc.model(first).value, svc)
  {
  }

  /** A first reply of text blocks only: one model call, no tool call, and
      the answer is those texts in order, joined with newlines. */
  lemma TextOnlyReply(query: string, tools: seq<ModelTool>, svc: Services)
    requires svc.model(FirstRequest(query, tools)).Ok?
    requires forall b :: b in svc.model(FirstRequest(query, tools)).value ==> b.TextBlock?
    ensures var r := Negotiate(query, tools, svc);
      && r.calls == [ModelCall(FirstRequest(query, tools))]
      && r.conversation == [UserTurn(query)]
      && Answer(r) == Ok(Join(Texts(svc.model(FirstRequest(query, tools)).value), "\n"))
  {
    var first := FirstRequest(query, tools);
    var content := svc.model(first).value;
    WalkAllText(Run([], first.messages, [ModelCall(first)], None), content, svc);
    assert [] + Texts(content) == Texts(content);
  }

  /** The calls of a query that succeeds: the first model call is the only
      one with the tool list; there is one tool call per tool-use block, in
      block order with name and arguments unchanged; and one follow-up per
      tool call, each carrying the conversation up to that tool's turn. */
  lemma NegotiationCalls(query: string, tools: seq<ModelTool>, svc: Services)
    requires Negotiate(query, tools, svc).failure.None?
    ensures svc.model(FirstRequest(query, tools)).Ok?
    ensures var r := Negotiate(query, tools, svc);
      var content := svc.model(FirstRequest(query, tools)).value;
      && ToolRequests(r.calls) == ToolUses(content)
      && |ModelRequests(r.calls)| == 1 + |ToolUses(content)|
      && ModelRequests(r.calls)[0] == FirstRequest(query, tools)
      && |r.conversation| == |ModelRequests(r.calls)|
      && forall i :: 1 <= i < |ModelRequests(r.calls)| ==>
           ModelRequests(r.calls)[i] == Request(r.conversation[..i + 1], None)
  {
    var first := FirstRequest(query, tools);
    var start := Run([], first.messages, [ModelCall(first)], None);
    var content := svc.model(first).value;
    NegotiateWalks(query, tools, svc);
    var r := Walk(start, content, svc);
    WalkToolCalls(start, content, svc);
    WalkCounts(start, content, svc);
    WalkFollowUps(start, content, svc);
    WalkAppendOnly(start, content, svc);
    ModelRequestsPrefix(start.calls, r.calls);
    assert [ModelCall(first)][1..] == [];
    assert ModelRequests(start.calls) == [first];
    assert ToolRequests(start.calls) == [];
  }

  /** The conversation of a query that succeeds: the query as one user
      turn, then one user turn per tool-use block carrying that tool's
      result, in block order. */
  lemma NegotiationConversation(query: string, tools: seq<ModelTool>, svc: Services)
    requires Negotiate(query, tools, svc).failure.None?
    ensures svc.model(FirstRequest(query, tools)).Ok?
    ensures var r := Negotiate(query, tools, svc);
      var uses := ToolUses(svc.model(FirstRequest(query, tools)).value);
      && |r.conversation| == 1 + |uses|
      && r.conversation[0] == UserTurn(query)
      && forall j :: 0 <= j < |uses| ==>
           svc.callTool(uses[j]).Ok? && r.conversation[j + 1] == ToolTurn(svc.callTool(uses[j]).value)
  {
    var first := FirstRequest(query, tools);
    var start := Run([], first.messages, [ModelCall(first)], None);
    WalkConversation(start, svc.model(first).value, svc);
  }

  /** Each tool-use block of the first reply puts two fragments, side by
      side, at its place in the output: the trace line, then what the
      follow-up after it contributes. Before them come one fragment per
      earlier text block and two per earlier tool-use block. */
  lemma ToolBlockFragments(query: string, tools: seq<ModelTool>, svc: Services,
                           before: seq<Block>, name: string, input: Json, after: seq<Block>)
    requires svc.model(FirstRequest(query, tools)) == Ok(before + [ToolUseBlock(name, input)] + after)
    requires Negotiate(query, tools, svc).failure.None?
    ensures var r := Negotiate(query, tools, svc);
      var i := |Texts(before)| + 2 * |ToolUses(before)|;
      var k := |ToolUses(before)|;
      && i + 1 < |r.fragments|
      && r.fragments[i] == TraceLine(ToolRequest(name, input), svc.stringify)
      && k + 1 < |ModelRequests(r.calls)|
      && svc.model(ModelRequests(r.calls)[k + 1]).Ok?
      && svc.model(ModelRequests(r.calls)[k + 1]).value != []
      && r.fragments[i + 1] == FollowUpText(svc.model(ModelRequests(r.calls)[k + 1]).value)
  {
    var first := FirstRequest(query, tools);
    var start := Run([], first.messages, [ModelCall(first)], None);
    WalkAround(start, before, ToolUseBlock(name, input), after, svc);
    var mid := Walk(start, before, svc);
    var next := Step(mid, ToolUseBlock(name, input), svc);
    assert [ModelCall(first)][1..] == [];
    assert ModelRequests(start.calls) == [first];
    WalkCounts(start, before, svc);
    WalkAppendOnly(next, after, svc);
    ToolStepInside(mid, name, input, svc, Negotiate(query, tools, svc));
  }

  /** Each text block of the first reply puts its text at its place in
      the output: after one fragment per earlier text block and two per
      earlier tool-use block. */
  lemma TextBlockFragment(query: string, tools: seq<ModelTool>, svc: Services,
                          before: seq<Block>, t: string, after: seq<Block>)
    requires svc.model(FirstRequest(query, tools)) == Ok(before + [TextBlock(t)] + after)
    requires Negotiate(query, tools, svc).failure.None?
    ensures var r := Negotiate(query, tools, svc);
      var i := |Texts(before)| + 2 * |ToolUses(before)|;
      i < |r.fragments| && r.fragments[i] == t
  {
    var first := FirstRequest(query, tools);
    var start := Run([], first.messages, [ModelCall(first)], None);
    WalkAround(start, before, TextBlock(t), after, svc);
    var mid := Walk(start, before, svc);
    var next := Step(mid, TextBlock(t), svc);
    WalkCounts(start, before, svc);
    WalkAppendOnly(next, after, svc);
    assert next.fragments[|mid.fragments|] == t;
  }

  /** The two fragments and the follow-up of a tool step stay in place in
      any later state. */
  lemma ToolStepInside(mid: Run, name: string, input: Json, svc: Services, r: Run)
    requires mid.failure.None?
    requires Step(mid, ToolUseBlock(name, input), svc).failure.None?
    requires Step(mid, ToolUseBlock(name, input), svc).fragments <= r.fragments
    requires Step(mid, ToolUseBlock(name, input), svc).calls <= r.calls
    ensures var i := |mid.fragments|;
      var k := |ModelRequests(mid.calls)|;
      && i + 1 < |r.fragments|
      && r.fragments[i] == TraceLine(ToolRequest(name, input), svc.stringify)
      && k < |ModelRequests(r.calls)|
      && svc.model(ModelRequests(r.calls)[k]).Ok?
      && svc.model(ModelRequests(r.calls)[k]).value != []
      && r.fragments[i + 1] == FollowUpText(svc.model(ModelRequests(r.calls)[k]).value)
  {
    var next := Step(mid, ToolUseBlock(name, input), svc);
    StepToolUse(mid, name, input, svc);
    ModelRequestsPrefix(next.calls, r.calls);
    assert ModelRequests(r.calls)[|ModelRequests(mid.calls)|] == Request(next.conversation, None);
  }

  /** A query that fails made its last call to the service that failed
      (or answered a follow-up with no block); a first call that fails
      ends the query at once. */
  lemma NegotiationFailure(query: string, tools: seq<ModelTool>, svc: Services)
    requires Negotiate(query, tools, svc).failure.Some?
    ensures var r := Negotiate(query, tools, svc);
      && FailedAt(r.calls[|r.calls| - 1], r.failure.value, svc)
      && (svc.model(FirstRequest(query, tools)).Err? ==> r.calls == [ModelCall(FirstRequest(query, tools))])
  {
    var first := FirstRequest(query, tools);
    if svc.model(first).Ok? {
      WalkFailure(Run([], first.messages, [ModelCall(first)], None), svc.model(first).value, svc);
    }
  }
}
