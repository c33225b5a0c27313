/** The agent graph's nodes: the language-model node, the tool-execution node
    and the router between them. The model's answer and the tool runs on MCP
    servers are inputs: a reply (or the exception in its place) and a function
    giving the outcome of running a tool on a server. */
module AgentLoop {
  import opened Wrappers
  import opened JsonValue

  datatype ToolCall = ToolCall(name: string, args: map<string, Json>, id: string)

  datatype Message =
    | Human(content: string)
    | AI(content: string, toolCalls: seq<ToolCall>)
    | Tool(callId: string, content: string)

  datatype Status = Idle | LoadingTools | Ready | CallingTool | Error | Finished

  /** A configured MCP server, in the order of the configuration. */
  datatype Server = Server(name: string, config: map<string, Json>)

  datatype AgentState = AgentState(messages: seq<Message>, servers: seq<Server>, status: Status)

  /** The values the router returns: "execute_tools", "llm_with_tools", END. */
  datatype Route = ExecuteTools | LlmWithTools | End

  predicate HasToolCalls(m: Message) {
    m.AI? && m.toolCalls != []
  }

  function Last<T>(s: seq<T>): T
    requires s != []
  {
    s[|s| - 1]
  }

  // ---------------------------------------------------------------------------
  // Routing

  /** `should_continue`: tool calls in the last message are executed, a trailing
      tool result goes back to the model, and anything else ends the run. */
  function ShouldContinue(messages: seq<Message>): (r: Route)
    ensures r == ExecuteTools <==> messages != [] && HasToolCalls(Last(messages))
    ensures r == LlmWithTools <==> messages != [] && Last(messages).Tool?
    ensures r == End <==> messages == [] || (!HasToolCalls(Last(messages)) && !Last(messages).Tool?)
  {
    if messages == [] then End
    else if HasToolCalls(Last(messages)) then ExecuteTools
    else if Last(messages).Tool? then LlmWithTools
    else End
  }

  /** Only the last message is inspected. */
  lemma RouteDependsOnlyOnLast(earlier: seq<Message>, last: Message)
    ensures ShouldContinue(earlier + [last]) == ShouldContinue([last])
  {
    assert Last(earlier + [last]) == last;
  }

  // ---------------------------------------------------------------------------
  // The language-model node

  /** What the model answers: an AI message, possibly with tool calls. */
  datatype Reply = Reply(content: string, toolCalls: seq<ToolCall>)

  /** `llm_with_mcp_tools`, given the model's reply, or `None` when building the
      prompt or calling the model raises. */
  function LlmWithMcpTools(s: AgentState, reply: Option<Reply>): (r: AgentState)
    ensures r.servers == s.servers
    ensures s.messages == [] || reply.None? ==> r == s.(status := Error)
    ensures s.messages != [] && reply.Some? ==>
      r.messages == s.messages + [AI(reply.value.content, reply.value.toolCalls)]
    ensures s.messages != [] && reply.Some? ==>
      (r.status == CallingTool <==> reply.value.toolCalls != []) &&
      (r.status == Ready <==> reply.value.toolCalls == [])
  {
    if s.messages == [] then s.(status := Error)
    else match reply
      case None => s.(status := Error)
      case Some(answer) =>
        var status := if answer.toolCalls != [] then CallingTool else Ready;
        s.(messages := s.messages + [AI(answer.content, answer.toolCalls)], status := status)
  }

  /** After the model answers, the status it records agrees with the router:
      "calling_tool" exactly when the router executes tools, "ready" exactly when
      it ends; the router never sends an answered state back to the model. */
  lemma LlmStatusAgreesWithRoute(s: AgentState, reply: Reply)
    requires s.messages != []
    ensures var r := LlmWithMcpTools(s, Some(reply));
      && (r.status == CallingTool <==> ShouldContinue(r.messages) == ExecuteTools)
      && (r.status == Ready <==> ShouldContinue(r.messages) == End)
      && ShouldContinue(r.messages) != LlmWithTools
  {
    var r := LlmWithMcpTools(s, Some(reply));
    assert Last(r.messages) == AI(reply.content, reply.toolCalls);
  }

  // ---------------------------------------------------------------------------
  // The tool-execution node

  /** The outcome of `apply(server, RunTool(name, **args))`: the tool's output,
      or the exception it raised. */
  type Runner = (Server, string, map<string, Json>) -> Result<string>

  function FailureContent(name: string): string {
    "Error: Tool " + name + " could not be executed"
  }

  /** One call of `apply`: the server it was made on and the tool it ran. */
  datatype Attempt = Attempt(server: string, tool: string)

  /** The content of a call's tool message: the output of the first server, in
      configuration order, that runs the tool; the failure text if none does. */
  function CallContent(servers: seq<Server>, call: ToolCall, run: Runner): (r: string)
    ensures r == FailureContent(call.name) ||
      exists j :: 0 <= j < |servers| && run(servers[j], call.name, call.args) == Ok(r)
    decreases |servers|
  {
    if servers == [] then FailureContent(call.name)
    else match run(servers[0], call.name, call.args)
      case Ok(output) => output
      case Err(_) => CallContent(servers[1..], call, run)
  }

  /** The servers a call is tried on, in order, up to and including the first
      that succeeds. */
  function Tried(servers: seq<Server>, call: ToolCall, run: Runner): (r: seq<Attempt>)
    ensures |r| <= |servers| && (servers != [] ==> |r| > 0)
    ensures forall i :: 0 <= i < |r| ==> r[i] == Attempt(servers[i].name, call.name)
    decreases |servers|
  {
    if servers == [] then []
    else [Attempt(servers[0].name, call.name)]
         + (if run(servers[0], call.name, call.args).Ok? then [] else Tried(servers[1..], call, run))
  }

  /** The first server that succeeds supplies the content, and no server after
      it is tried. */
  lemma {:induction false} FirstSuccessWins(servers: seq<Server>, call: ToolCall, run: Runner, k: nat)
    requires k < |servers| && run(servers[k], call.name, call.args).Ok?
    requires forall j :: 0 <= j < k ==> run(servers[j], call.name, call.args).Err?
    ensures CallContent(servers, call, run) == run(servers[k], call.name, call.args).value
    ensures |Tried(servers, call, run)| == k + 1
    ensures forall i :: 0 <= i <= k ==> Tried(servers, call, run)[i] == Attempt(servers[i].name, call.name)
    decreases k
  {
    if k > 0 {
      FirstSuccessWins(servers[1..], call, run, k - 1);
    }
  }

  /** When every server fails, or none is configured, the content is the
      failure text and every server has been tried once. */
  lemma {:induction false} AllServersFail(servers: seq<Server>, call: ToolCall, run: Runner)
    requires forall j :: 0 <= j < |servers| ==> run(servers[j], call.name, call.args).Err?
    ensures CallContent(servers, call, run) == FailureContent(call.name)
    ensures |Tried(servers, call, run)| == |servers|
    ensures forall i :: 0 <= i < |servers| ==> Tried(servers, call, run)[i] == Attempt(servers[i].name, call.name)
    decreases |servers|
  {
    if servers != [] {
      AllServersFail(servers[1..], call, run);
    }
  }

  /** The tool messages for a run of calls, one per call, in call order. */
  function ToolMessages(calls: seq<ToolCall>, servers: seq<Server>, run: Runner): (r: seq<Message>)
    ensures |r| == |calls|
    ensures forall i :: 0 <= i < |r| ==> r[i].Tool? && r[i].callId == calls[i].id
    decreases |calls|
  {
    if calls == [] then []
    else ToolMessages(calls[..|calls| - 1], servers, run)
         + [Tool(Last(calls).id, CallContent(servers, Last(calls), run))]
  }

  /** All calls of `apply` for a run of calls, call by call. */
  function AllTried(calls: seq<ToolCall>, servers: seq<Server>, run: Runner): seq<Attempt>
    decreases |calls|
  {
    if calls == [] then []
    else AllTried(calls[..|calls| - 1], servers, run) + Tried(servers, Last(calls), run)
  }

  /** The i-th tool message answers the i-th call and carries its id. */
  lemma {:induction false} ToolMessageForEachCall(calls: seq<ToolCall>, servers: seq<Server>, run: Runner, i: nat)
    requires i < |calls|
    ensures |ToolMessages(calls, servers, run)| == |calls|
    ensures ToolMessages(calls, servers, run)[i] == Tool(calls[i].id, CallContent(servers, calls[i], run))
    decreases |calls|
  {
    var front := calls[..|calls| - 1];
    if i < |calls| - 1 {
      ToolMessageForEachCall(front, servers, run, i);
    } else if front != [] {
      ToolMessageForEachCall(front, servers, run, 0);
    }
  }

  /** The node runs when the last message asks for tools. */
  predicate CanExecute(s: AgentState) {
    s.messages != [] && HasToolCalls(Last(s.messages))
  }

  /** The state `execute_mcp_tool` returns. */
  function ExecuteResult(s: AgentState, run: Runner): (r: AgentState)
    ensures r.servers == s.servers
    ensures !CanExecute(s) ==> r == s.(status := Error)
    ensures CanExecute(s) ==> r.status == Ready && |r.messages| >= |s.messages| && r.messages[..|s.messages|] == s.messages
  {
    if !CanExecute(s) then s.(status := Error)
    else s.(messages := s.messages + ToolMessages(Last(s.messages).toolCalls, s.servers, run), status := Ready)
  }

  /** The calls of `apply` that `execute_mcp_tool` makes. */
  function ExecuteAttempts(s: AgentState, run: Runner): seq<Attempt> {
    if CanExecute(s) then AllTried(Last(s.messages).toolCalls, s.servers, run) else []
  }

  /** After a tool step, one tool message per call follows the old messages,
      and the router sends the state back to the model. */
  lemma ExecuteAppendsOneMessagePerCall(s: AgentState, run: Runner, i: nat)
    requires CanExecute(s) && i < |Last(s.messages).toolCalls|
    ensures var calls := Last(s.messages).toolCalls;
      var r := ExecuteResult(s, run);
      && |r.messages| == |s.messages| + |calls|
      && r.messages[|s.messages| + i] == Tool(calls[i].id, CallContent(s.servers, calls[i], run))
      && ShouldContinue(r.messages) == LlmWithTools
  {
    var calls := Last(s.messages).toolCalls;
    ToolMessageForEachCall(calls, s.servers, run, i);
    ToolMessageForEachCall(calls, s.servers, run, |calls| - 1);
  }

  /** Runs one call on the servers in order until one succeeds. */
  method RunToolCall(servers: seq<Server>, call: ToolCall, run: Runner)
    returns (content: string, tried: seq<Attempt>)
    ensures content == CallContent(servers, call, run)
    ensures tried == Tried(servers, call, run)
  {
    var executed := false;
    content := "";
    tried := [];
    var j := 0;
    while j < |servers|
      invariant 0 <= j <= |servers|
      invariant !executed
      invariant CallContent(servers, call, run) == CallContent(servers[j..], call, run)
      invariant Tried(servers, call, run) == tried + Tried(servers[j..], call, run)
    {
      var rest := servers[j..];
      assert rest[0] == servers[j] && rest[1..] == servers[j + 1..];
      tried := tried + [Attempt(servers[j].name, call.name)];
      match run(servers[j], call.name, call.args) {
        case Ok(output) =>
          assert Tried(rest, call, run) == [Attempt(servers[j].name, call.name)];
          content := output;
          executed := true;
          break;
        case Err(_) =>
          assert Tried(rest, call, run) == [Attempt(servers[j].name, call.name)] + Tried(servers[j + 1..], call, run);
      }
      j := j + 1;
    }
    if !executed {
      content := FailureContent(call.name);
    }
  }

  /** `execute_mcp_tool`: for each tool call of the last message, in order, the
      servers are tried in configuration order and the first success supplies
      the tool message; `attempts` lists the calls of `apply` it makes. */
  method ExecuteMcpTool(s: AgentState, run: Runner) returns (r: AgentState, attempts: seq<Attempt>)
    ensures r == ExecuteResult(s, run)
    ensures attempts == ExecuteAttempts(s, run)
  {
    if s.messages == [] || !HasToolCalls(s.messages[|s.messages| - 1]) {
      return s.(status := Error), [];
    }
    var calls := s.messages[|s.messages| - 1].toolCalls;
    var toolMessages: seq<Message> := [];
    attempts := [];
    var i := 0;
    while i < |calls|
      invariant 0 <= i <= |calls|
      invariant toolMessages == ToolMessages(calls[..i], s.servers, run)
      invariant attempts == AllTried(calls[..i], s.servers, run)
    {
      var content, tried := RunToolCall(s.servers, calls[i], run);
      toolMessages := toolMessages + [Tool(calls[i].id, content)];
      attempts := attempts + tried;
      assert calls[..i + 1][..i] == calls[..i] && Last(calls[..i + 1]) == calls[i];
      assert toolMessages == ToolMessages(calls[..i + 1], s.servers, run);
      i := i + 1;
    }
    assert calls[..|calls|] == calls;
    r := s.(messages := s.messages + toolMessages, status := Ready);
  }

  // ---------------------------------------------------------------------------
  // Graph wiring

  datatype Node = DiscoverServers | LlmNode | ExecuteToolsNode | Finish

  /** The path map given to `add_conditional_edges` for the model node. */
  const AsWrittenPathMap: map<Route, Node> := map[ExecuteTools := ExecuteToolsNode, End := Finish]

  /** The path map with the route to the model that the router can return. */
  const PathMap: map<Route, Node> :=
    map[ExecuteTools := ExecuteToolsNode, LlmWithTools := LlmNode, End := Finish]

  /** Where the graph goes after the model node; `None` when the router's value
      is not a key of the path map and the graph raises. */
  function NextAfterLlm(pathMap: map<Route, Node>, s: AgentState): Option<Node> {
    var route := ShouldContinue(s.messages);
    if route in pathMap then Some(pathMap[route]) else None
  }

  /** On the success path the written path map is enough: an answered state is
      routed to the tools or to the end. */
  lemma AsWrittenRoutesAnsweredStates(s: AgentState, reply: Reply)
    requires s.messages != []
    ensures NextAfterLlm(AsWrittenPathMap, LlmWithMcpTools(s, Some(reply))).Some?
  {
    LlmStatusAgreesWithRoute(s, reply);
  }

  /** When the model call raises right after a tool step, the model node hands
      back the state with a tool message last; the router returns
      "llm_with_tools", which the written path map does not have. */
  lemma AsWrittenPathMapMissesToolRoute(s: AgentState, run: Runner)
    requires CanExecute(s)
    ensures var failed := LlmWithMcpTools(ExecuteResult(s, run), None);
      && ShouldContinue(failed.messages) == LlmWithTools
      && NextAfterLlm(AsWrittenPathMap, failed) == None
  {
    ExecuteAppendsOneMessagePerCall(s, run, 0);
  }

  /** With the route to the model in the path map, every state leaving the
      model node has a next node, and the failed state above goes back to the
      model. */
  lemma PathMapCoversEveryRoute(s: AgentState)
    ensures NextAfterLlm(PathMap, s).Some?
    ensures ShouldContinue(s.messages) == LlmWithTools ==> NextAfterLlm(PathMap, s) == Some(LlmNode)
  {
  }

  /** With the corrected path map, a model failure after a tool step goes back to the model node. */
  lemma PathMapResumesAfterFailedToolStep(s: AgentState, run: Runner)
    requires CanExecute(s)
    ensures NextAfterLlm(PathMap, LlmWithMcpTools(ExecuteResult(s, run), None)) == Some(LlmNode)
  {
    ExecuteAppendsOneMessagePerCall(s, run, 0);
  }
}
