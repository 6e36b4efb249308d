# MCP client: tool-call negotiation, in Dafny

This project models the client of `src/MCPClient.ts`. The client sits
between a language-model service and a Model Context Protocol tool
server. It does four things:

- It picks the command that launches the tool server from the script's
  extension.
- It lists the server's tools and renames their schema field for the
  model service.
- It answers each query: one model call with the tool list, then a walk
  over the reply's content blocks. Each `tool_use` block is sent to the
  tool server, its result is appended to the conversation as a user turn,
  and the model is asked again without the tool list.
- It runs the session loop until the user types "quit" in any letter case.

Both services are oracles. `Protocol.Services` holds three total
functions: the model service, the tool server, and `JSON.stringify`. A
failing service call is an `Err` value, and it ends the query.

Files and modules:

- `wrappers.dfy`: `Option`, `Result`.
- `values.dfy`: JSON values.
- `text.dfy`: `endsWith`, `toLowerCase`, `join`.
- `launch.dfy`: `createCommand`.
- `registry.dfy`: the tool projection.
- `protocol.dfy`: blocks, turns, requests, the call log, the services.
- `negotiation.dfy`: `processQuery` as a specification (`Step`, `Walk`,
  `Negotiate`, `Answer`) and its lemmas.
- `session.dfy`: the quit test and the session as a specification.
- `client.dfy`: the class `McpClient`. Its fields `tools` and
  `transport` are set by `ConnectToServer`. `ProcessQuery` and
  `ChatLoop` are the imperative loops, each proved equal to its
  specification.

The model follows the code as written:

- Every `tool_use` block gets its own follow-up call, so a reply with k
  tool blocks costs 1 + k model calls.
- Model replies are never appended to the conversation. Only the query
  and the tool results are, both as user turns.
- The trace line is added only after the tool call has returned.
- A follow-up reply with no blocks fails the query (`EmptyFollowUp`),
  because `response.content[0].type` throws.
- The `try`/`catch` of `chatLoop` sits outside its loop, so the first
  failing query ends the session. Per-query recovery is not modelled.
- Tool arguments are passed on exactly as the block carries them.
- The tool list sent to the model keeps only name, description and input
  schema of each listed tool. Every other key of a tool descriptor is
  dropped.

## Model

| member | source | states |
|---|---|---|
| `Text.EndsWith` | src/MCPClient.ts:36-37 | the suffix test: when it holds, the suffix fits and the last characters of the string are those of the suffix, one by one; the empty suffix ends every string |
| `Text.EndsWithIffSplit` | src/MCPClient.ts:36-37 | a string ends with a suffix exactly when it is some prefix followed by that suffix |
| `Text.ToLower` | src/MCPClient.ts:107 | lower-casing keeps the length and lowers each character on its own |
| `Text.Join` | src/MCPClient.ts:207 | `join("\n")`: the result is at least as long as all parts together; no parts give ""; the result starts with the first part, followed by the separator when more parts come |
| `Text.JoinSnoc` | src/MCPClient.ts:207 | joining one more part appends the separator and that part to the join of the others, so every part appears whole, in order, with one separator between neighbours |
| `Launch.NotBothExtensions` | src/MCPClient.ts:36-45 | no path ends in both ".js" and ".py", so the order of the two tests cannot matter |
| `Launch.CreateCommand` | src/MCPClient.ts:35-48 | error exactly when the path ends in neither ".js" nor ".py", with the source's message; ".py" gives "python" on win32 and "python3" elsewhere; ".js" gives the runtime's executable |
| `Registry.Project` | src/MCPClient.ts:68-74 | the projection keeps length and order, copies name and description, and moves `inputSchema` to `input_schema` |
| `Registry.ProjectRoundTrip` | src/MCPClient.ts:68-74 | renaming the field back gives the listed tools again, each cut down to name, description and input schema; the other descriptor keys are not recovered |
| `Registry.ProjectSameIff` | src/MCPClient.ts:68-74 | two listed tool lists project to the same list exactly when they agree on name, description and input schema at every place, so the projection loses exactly the other descriptor keys |
| `Registry.ProjectSurjective` | src/MCPClient.ts:68-74 | every model-facing tool list is the projection of a listed one, so the projection adds nothing |
| `Negotiation.TraceLine` | src/MCPClient.ts:176 | the trace fragment: "[Calling tool " then the tool's name at a fixed place, then " with args " right after the name, then the serialised arguments, then "]"; its length is 26 plus those two |
| `Negotiation.FollowUpFragment` | src/MCPClient.ts:196-200 | what `FollowUpText` adds for a follow-up reply: the first of its texts when its first block is text, "" otherwise |
| `Negotiation.Step` | src/MCPClient.ts:161-201 | one pass of the block loop (a text block adds its text; a tool block calls the tool, then adds the trace line, the result turn, the follow-up call and its text, or stops at the failing call); output, conversation and call log only grow, by at most two calls |
| `Negotiation.Walk` | src/MCPClient.ts:160-202 | the block loop over the reply's blocks, stopping at the first failure; it makes at most two calls per block |
| `Negotiation.Answer` | src/MCPClient.ts:207 | the query fails exactly when the run failed, with that failure; otherwise the answer is the fragments joined with "\n", starting with the first fragment |
| `Negotiation.Negotiate` | src/MCPClient.ts:126-208 | the first call is the model call with the query as the only turn plus the tool list; the conversation starts with the query; every turn is a user turn |
| `Negotiation.StepToolUse` | src/MCPClient.ts:163-200 | a tool block that goes through adds one tool call and one follow-up call without tools, one user turn with the tool's result, and two fragments: the trace line, then the follow-up's first text or "" |
| `Negotiation.WalkAppendOnly` | src/MCPClient.ts:160-202 | output, conversation and call log only grow; earlier entries are never changed; every added turn is a user turn |
| `Negotiation.WalkSplit` | src/MCPClient.ts:160-202 | the block loop over `a + b` is the loop over `a` followed by the loop over `b` |
| `Negotiation.WalkAllText` | src/MCPClient.ts:160-162 | over text blocks only, the loop appends their texts in order and calls nothing |
| `Negotiation.WalkToolCalls` | src/MCPClient.ts:160-173 | on success the tool calls made are the tool blocks' names and arguments, unchanged and in block order |
| `Negotiation.WalkCounts` | src/MCPClient.ts:160-202 | on success: one follow-up, one turn and two fragments per tool block, and one fragment per text block |
| `Negotiation.WalkConversation` | src/MCPClient.ts:179-182 | on success, the j-th added turn is a user turn carrying exactly what the j-th tool call returned |
| `Negotiation.WalkFollowUps` | src/MCPClient.ts:184-188 | on success, the follow-up after the j-th tool block has no tool list and carries the conversation up to and including that tool's turn |
| `Negotiation.ToolStepInside` | src/MCPClient.ts:175-200 | the trace line, the follow-up text and the follow-up call of a tool step stay at their places in every later state |
| `Negotiation.WalkFailure` | src/MCPClient.ts:170-200 | a loop that fails stops at the failing call: the last call made is the one whose fault, or empty reply, is reported |
| `Negotiation.NoTraceForFailedTool` | src/MCPClient.ts:170-177 | a failing tool call adds no trace line, no turn and no follow-up |
| `Negotiation.TextOnlyReply` | src/MCPClient.ts:139-207 | a first reply of text blocks only means one model call, no tool call, and an answer equal to those texts in order joined with "\n" |
| `Negotiation.NegotiationCalls` | src/MCPClient.ts:139-188 | on success: tool calls equal the tool blocks in order; 1 + k model calls; only the first has the tool list; the i-th follow-up carries the first i + 1 turns |
| `Negotiation.NegotiationConversation` | src/MCPClient.ts:128-182 | on success the conversation is the query, then one user turn per tool block with that tool's result, in block order |
| `Negotiation.ToolBlockFragments` | src/MCPClient.ts:175-200 | each tool block puts two adjacent fragments at its place in the output: its trace line, then its follow-up's first text or "" |
| `Negotiation.TextBlockFragment` | src/MCPClient.ts:160-162 | in a query that succeeds, each text block of the first reply puts its text at its place in the output, after one fragment per earlier text block and two per earlier tool-use block |
| `Negotiation.NegotiationFailure` | src/MCPClient.ts:139-200 | a failing query's last call is the one that failed; a failing first call ends the query after that call |
| `Session.IsQuit` | src/MCPClient.ts:107 | the sentinel test: only a four-character line can pass it, and "quit" and "QUIT" do |
| `Session.QuitSpellings` | src/MCPClient.ts:107 | the sentinel test holds exactly for "quit" in any mix of letter case |
| `Session.Chat` | src/MCPClient.ts:104-119 | the session over the typed lines: the queries are the first lines typed, in order |
| `Session.ChatShape` | src/MCPClient.ts:104-119 | the queries are the lines before the end, each whole and none a sentinel; the session ends at the sentinel, the end of input or the first failing query; each answer shown belongs to the query at its place |
| `Session.StopsAtFirstQuit` | src/MCPClient.ts:104-111 | if line k is the first sentinel and earlier queries succeed, exactly lines 0..k-1 are queried and the session ends at the sentinel |
| `Client.McpClient.constructor` | src/MCPClient.ts:18-19 | a new client has no transport and an empty tool list |
| `Client.McpClient.ConnectToServer` | src/MCPClient.ts:51-83 | a missing or empty script path fails; a rejected extension fails; otherwise the transport is set to the chosen command with the path as its only argument; a listing that succeeds replaces the tools with its projection, and a failure leaves them unchanged |
| `Client.McpClient.ProcessQuery` | src/MCPClient.ts:126-208 | the block loop returns the answer, the conversation and the call log of `Negotiate` for the client's tools |
| `Client.McpClient.ChatLoop` | src/MCPClient.ts:93-120 | the session loop yields the transcript of `Chat` for the client's tools |

## Left out

- The constructor's API-key check and the creation of the two SDK clients (src/MCPClient.ts:21-32) are startup configuration over foreign SDK objects. The constructor starts from the field initialisers only.
- `cleanup` (src/MCPClient.ts:86-88) only closes the foreign tool-server client.
- The client's `connect(transport)` is not awaited in the source (src/MCPClient.ts:64). The model treats the channel as established once the transport is set.
- Process spawning, `process.platform` and `process.execPath` are parameters: the platform is a string and the executable path is opaque.
- The readline prompt, console output, `rl.close()` and the error log of `chatLoop` are terminal I/O. The typed lines are a finite sequence, and running out of them is how the model ends a session that never saw the sentinel (`InputClosed`). The end of the input stream, where readline stops asking, is not modelled separately.
- Registry.ProjectRoundTrip: the round trip is about name, description and input schema only. `McpTool.extra` stands for every other key of a listed descriptor (title, annotations, output schema, metadata and the like) as an uninterpreted key list. The map drops these keys, so renaming back cannot restore them.
- The model name and `max_tokens` sent with each model call are constants with no behaviour. They are not part of `Request`.
- `JSON.stringify` is the uninterpreted `stringify` oracle. JSON numbers are integers, because the client never inspects them.
- Text.ToLower: lowers the ASCII capitals only, not full Unicode case mapping. For the comparison with "quit" this decides the same way: outside ASCII, no character lower-cases to exactly one of `q`, `u`, `i`, `t`.
- Client.McpClient.ProcessQuery: the conversation and the call log it returns are stand-ins for the arrays and service calls of the source. They are there to make the calls observable. They are not values the source returns.
- src/const.ts and src/index.ts only load the environment and sequence start-up. They are not part of this model.
