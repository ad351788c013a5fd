/**
 The agent's messages, contexts and graphs, and the parts of the executor that are functions of them
 (agent/internal/agent/types.go, history.go and executor.go).
 */
module AgentTypes {
  import opened Text

  // ---- Messages ----

  /** The string under a block's `type`, if it has one. */
  datatype PartKind = Thinking | RedactedThinking | OtherKind(name: string) | NoKind

  /** One element of a block list. */
  datatype Part = Part(kind: PartKind, text: Option<string>)

  /** Why a tool gave no result: there is no tool of that name, or its handler failed. */
  datatype ToolError = UnknownTool(name: string) | HandlerError(message: string)

  /**
   The `any` content of a message. All list forms, including decodable raw JSON, are `Parts`;
   `ErrorText` is the text that reports a tool error, `error: ` and its message.
   */
  datatype Content = Nil | Str(s: string) | ErrorText(error: ToolError) | Parts(ps: seq<Part>) | Opaque(raw: string)

  datatype Role = System | User | Assistant | Tool | OtherRole(name: string)

  datatype ToolCall = ToolCall(id: string, name: string, arguments: string)

  datatype ChatMessage = ChatMessage(role: Role, content: Content, reasoning: string,
                                     toolCalls: seq<ToolCall>, toolCallId: string, name: string)

  /** `http.Header`; `None` is a nil map. */
  type Headers = Option<map<string, seq<string>>>

  /** `PipelineCtx`. */
  datatype Ctx = Ctx(originalBody: string, originalHeaders: Headers, stream: bool, format: int, messages: seq<ChatMessage>,
                     outputs: map<string, string>, thinkingMode: Option<bool>, modelOverride: string, backendURL: string)

  // ---- Thinking (history.go) ----

  predicate IsThinking(p: Part) {
    p.kind.Thinking? || p.kind.RedactedThinking?
  }

  function WithoutThinking(ps: seq<Part>): (r: seq<Part>)
    ensures forall p :: p in r <==> p in ps && !IsThinking(p)
  {
    if ps == [] then []
    else (if IsThinking(ps[0]) then [] else [ps[0]]) + WithoutThinking(ps[1..])
  }

  function StripMessageThinking(m: ChatMessage): ChatMessage {
    var stripped := m.(reasoning := "");
    if m.content.Parts? then stripped.(content := Parts(WithoutThinking(m.content.ps))) else stripped
  }

  /** No reasoning and no thinking block. */
  ghost predicate ThinkingFree(m: ChatMessage) {
    m.reasoning == "" && (m.content.Parts? ==> forall p :: p in m.content.ps ==> !IsThinking(p))
  }

  ghost predicate AllThinkingFree(msgs: seq<ChatMessage>) {
    forall i | 0 <= i < |msgs| :: ThinkingFree(msgs[i])
  }

  lemma {:induction false} NothingToStrip(ps: seq<Part>)
    requires forall p :: p in ps ==> !IsThinking(p)
    ensures WithoutThinking(ps) == ps
  {
    if ps != [] {
      assert ps[0] in ps;
      NothingToStrip(ps[1..]);
    }
  }

  /** Stripping removes all thinking, and only messages with thinking change. */
  lemma {:induction false} StripIsExact(m: ChatMessage)
    ensures ThinkingFree(StripMessageThinking(m))
    ensures StripMessageThinking(m) == m <==> ThinkingFree(m)
  {
    if ThinkingFree(m) && m.content.Parts? {
      NothingToStrip(m.content.ps);
    }
  }

  lemma {:induction false} WithoutThinkingAppend(a: seq<Part>, b: seq<Part>)
    ensures WithoutThinking(a + b) == WithoutThinking(a) + WithoutThinking(b)
  {
    if a == [] {
      assert a + b == b;
    } else {
      assert (a + b)[1..] == a[1..] + b;
      WithoutThinkingAppend(a[1..], b);
      Assoc(if IsThinking(a[0]) then [] else [a[0]], WithoutThinking(a[1..]), WithoutThinking(b));
    }
  }

  lemma {:induction false} WithoutThinkingOne(p: Part)
    ensures WithoutThinking([p]) == if p.kind == Thinking || p.kind == RedactedThinking then [] else [p]
  {
    assert [p][1..] == [];
    assert WithoutThinking([p]) == (if IsThinking(p) then [] else [p]) + WithoutThinking([]);
  }

  /** Stripping keeps role, calls, text and, in their order, all parts that are no thinking. */
  lemma {:induction false} StripKeepsTheRest(m: ChatMessage, a: seq<Part>, p: Part, b: seq<Part>)
    ensures StripMessageThinking(m) == m.(reasoning := "", content := StripMessageThinking(m).content)
    ensures !m.content.Parts? ==> StripMessageThinking(m).content == m.content
    ensures m.content == Parts([]) ==> StripMessageThinking(m).content == Parts([])
    ensures m.content == Parts(a + [p] + b) ==>
              StripMessageThinking(m).content ==
                Parts(WithoutThinking(a)
                      + (if p.kind == Thinking || p.kind == RedactedThinking then [] else [p]) + WithoutThinking(b))
  {
    if m.content == Parts(a + [p] + b) {
      WithoutThinkingAppend(a + [p], b);
      WithoutThinkingAppend(a, [p]);
      WithoutThinkingOne(p);
    }
  }

  /** Messages are dropped from the front until `n` are left; a window that is not positive drops none. */
  function ApplyWindow(msgs: seq<ChatMessage>, n: int): seq<ChatMessage> {
    if n <= 0 || |msgs| <= n then msgs else ApplyWindow(msgs[1..], n)
  }

  ghost predicate IsLast(seen: seq<ChatMessage>, msgs: seq<ChatMessage>) {
    |seen| <= |msgs| && seen == msgs[|msgs| - |seen|..]
  }

  lemma {:induction false} WindowIsSuffix(msgs: seq<ChatMessage>, n: int)
    ensures ApplyWindow(msgs, n) == if n <= 0 || |msgs| <= n then msgs else msgs[|msgs| - n..]
  {
    if 0 < n < |msgs| {
      WindowIsSuffix(msgs[1..], n);
    }
  }

  /** `DeepCopy` copies everything but the backend URL; nil headers become empty ones. */
  function CopyOf(p: Ctx): Ctx {
    p.(backendURL := "", originalHeaders := if p.originalHeaders.Some? then p.originalHeaders else Some(map[]))
  }

  // ---- Agents and graphs ----

  datatype Agent = Agent(tools: seq<string>, stripThinkingOnCommit: bool, windowSize: int)

  datatype Kind = Route | Chain | Scatter | Respond

  datatype Node = Node(kind: Kind, agent: Agent)

  datatype Edge = Edge(from: string, to: string, condition: Option<string -> bool>, transform: Option<Ctx -> Ctx>)

  datatype ModelResponse = ModelResponse(content: string, reasoning: string, toolCalls: seq<ToolCall>)

  datatype ToolResult = Ok(result: string) | Err(error: ToolError)

  /**
   What is outside the executor: the model, the tool handlers and the proxied upstream. The number is
   that of the model turn, so repeated calls may be answered differently.
   */
  datatype Env = Env(
    model: (nat, Agent, Ctx, seq<ChatMessage>) -> Option<ModelResponse>,
    tool: (nat, nat, string, string) -> ToolResult,
    respond: Ctx -> bool,
    upper: string -> string)          // strings.ToUpper

  /** A branch has its own context and is answered by its own environment. */
  datatype Branch = Branch(ctx: Ctx, graph: Graph, env: Env)

  datatype ScatterConfig = ScatterConfig(factory: Ctx -> seq<Branch>, merge: (Ctx, seq<Ctx>) -> Ctx)

  datatype Graph = Graph(nodes: map<string, Node>, scatter: map<string, ScatterConfig>, edges: seq<Edge>,
                         entry: string, windowSize: int)

  function WindowSize(g: Graph, agent: Agent): int {
    if agent.windowSize > 0 then agent.windowSize else g.windowSize
  }

  /** The model sees the last messages, as many as the agent's window says, or else the graph's, or all. */
  lemma {:induction false} WindowOfAgent(g: Graph, agent: Agent, msgs: seq<ChatMessage>)
    ensures var seen := ApplyWindow(msgs, WindowSize(g, agent));
            && IsLast(seen, msgs)
            && (agent.windowSize > 0 ==> |seen| == if |msgs| < agent.windowSize then |msgs| else agent.windowSize)
            && (agent.windowSize <= 0 < g.windowSize ==> |seen| == if |msgs| < g.windowSize then |msgs| else g.windowSize)
            && (agent.windowSize <= 0 && g.windowSize <= 0 ==> seen == msgs)
  {
    WindowIsSuffix(msgs, WindowSize(g, agent));
  }

  predicate Matches(e: Edge, from: string, output: string) {
    e.from == from && (e.condition.None? || e.condition.value(output))
  }

  /** The first matching edge. */
  function FirstEdge(edges: seq<Edge>, from: string, output: string): (r: Option<Edge>)
    ensures r.Some? ==> r.value in edges && Matches(r.value, from, output)
  {
    if edges == [] then None
    else if Matches(edges[0], from, output) then Some(edges[0])
    else FirstEdge(edges[1..], from, output)
  }

  /** Edge `i` starts at `from`, its condition, if it has one, holds, and no edge before it is like that. */
  ghost predicate IsFirstMatch(edges: seq<Edge>, from: string, output: string, i: int) {
    && 0 <= i < |edges| && edges[i].from == from && (edges[i].condition.Some? ==> edges[i].condition.value(output))
    && NoMatch(edges[..i], from, output)
  }

  ghost predicate NoMatch(edges: seq<Edge>, from: string, output: string) {
    forall j | 0 <= j < |edges| :: edges[j].from != from || (edges[j].condition.Some? && !edges[j].condition.value(output))
  }

  lemma {:induction false} FirstEdgeIsFirst(edges: seq<Edge>, from: string, output: string, i: nat)
    requires i < |edges| ==> IsFirstMatch(edges, from, output, i)
    requires i >= |edges| ==> NoMatch(edges, from, output)
    ensures FirstEdge(edges, from, output) == if i < |edges| then Some(edges[i]) else None
  {
    if 0 < i && edges != [] {
      if i < |edges| {
        assert edges[1..][..i - 1] == edges[..i][1..];
      }
      FirstEdgeIsFirst(edges[1..], from, output, i - 1);
    }
  }

  /** From context `recorded` the first matching edge leads to `to`, if there is one, with this context. */
  ghost predicate EdgeTaken(g: Graph, from: string, output: string, recorded: Ctx, to: Option<string>, ctx: Ctx) {
    if to.None? then NoMatch(g.edges, from, output) && ctx == recorded
    else exists i :: IsFirstMatch(g.edges, from, output, i) && Follows(g.edges[i], recorded, to.value, ctx)
  }

  ghost predicate Follows(e: Edge, recorded: Ctx, to: string, ctx: Ctx) {
    e.to == to && ctx == if e.transform.Some? then e.transform.value(recorded) else recorded
  }

  function ApplyTransform(e: Edge, ctx: Ctx): Ctx {
    if e.transform.Some? then e.transform.value(ctx) else ctx
  }

  // ---- One turn of the tool loop ----

  /** `callModel`: without a backend there is no answer. */
  function CallModel(env: Env, turn: nat, agent: Agent, ctx: Ctx, msgs: seq<ChatMessage>): Option<ModelResponse> {
    if ctx.backendURL == "" then None else env.model(turn, agent, ctx, msgs)
  }

  /** The content of a tool message: a failed or unknown tool is reported in it. */
  function ToolContent(env: Env, turn: nat, i: nat, agent: Agent, tc: ToolCall): Content {
    if tc.name !in agent.tools then ErrorText(UnknownTool(tc.name))
    else ContentOf(env.tool(turn, i, tc.name, tc.arguments))
  }

  function ContentOf(result: ToolResult): Content {
    match result
    case Ok(text) => Str(text)
    case Err(error) => ErrorText(error)
  }

  function AssistantMessage(r: ModelResponse): ChatMessage {
    ChatMessage(Assistant, Str(r.content), r.reasoning, r.toolCalls, "", "")
  }

  function ToolMessage(tc: ToolCall, content: Content): ChatMessage {
    ChatMessage(Tool, content, "", [], tc.id, tc.name)
  }

  /** One tool message for each call from call `i` on, in call order. */
  function ToolMessages(env: Env, turn: nat, agent: Agent, calls: seq<ToolCall>, i: nat): (r: seq<ChatMessage>)
    requires i <= |calls|
    ensures |r| == |calls| - i
    decreases |calls| - i
  {
    if i == |calls| then []
    else [ToolMessage(calls[i], ToolContent(env, turn, i, agent, calls[i]))] + ToolMessages(env, turn, agent, calls, i + 1)
  }

  lemma {:induction false} ToolMessageAt(env: Env, turn: nat, agent: Agent, calls: seq<ToolCall>, i: nat, k: nat)
    requires i <= k < |calls|
    ensures ToolMessages(env, turn, agent, calls, i)[k - i] == ToolMessage(calls[k], ToolContent(env, turn, k, agent, calls[k]))
    decreases k - i
  {
    if i < k {
      ToolMessageAt(env, turn, agent, calls, i + 1, k);
    }
  }

  /** A turn in which the model calls tools: its answer verbatim, with its reasoning, and one tool message per call. */
  function TurnMessages(env: Env, turn: nat, agent: Agent, r: ModelResponse): seq<ChatMessage> {
    [AssistantMessage(r)] + ToolMessages(env, turn, agent, r.toolCalls, 0)
  }

  function FinalMessage(agent: Agent, r: ModelResponse): ChatMessage {
    var msg := ChatMessage(Assistant, Str(r.content), r.reasoning, [], "", "");
    if agent.stripThinkingOnCommit then StripMessageThinking(msg) else msg
  }

  /** The messages of consecutive turns, the first of them numbered `clock`. */
  function TurnsMessages(env: Env, clock: nat, agent: Agent, answers: seq<ModelResponse>): seq<ChatMessage> {
    if answers == [] then []
    else
      var n := |answers| - 1;
      TurnsMessages(env, clock, agent, answers[..n]) + TurnMessages(env, clock + n, agent, answers[n])
  }

  // ---- The same, message by message ----

  ghost predicate IsAnswer(m: ChatMessage, r: ModelResponse) {
    && m.role == Assistant && m.content == Str(r.content) && m.reasoning == r.reasoning && m.toolCalls == r.toolCalls
    && m.toolCallId == "" && m.name == ""
  }

  /** The result of the tool, or why there is none, under the id and name of the call. */
  ghost predicate IsResultOf(m: ChatMessage, env: Env, turn: nat, i: nat, agent: Agent, tc: ToolCall) {
    && m.role == Tool && m.toolCallId == tc.id && m.name == tc.name && m.toolCalls == [] && m.reasoning == ""
    && m.content == if tc.name !in agent.tools then ErrorText(UnknownTool(tc.name))
                    else match env.tool(turn, i, tc.name, tc.arguments)
                      case Ok(text) => Str(text)
                      case Err(error) => ErrorText(error)
  }

  /** The answer of the model and then one result per call, in call order. */
  ghost predicate IsTurn(env: Env, turn: nat, agent: Agent, r: ModelResponse, msgs: seq<ChatMessage>) {
    && |msgs| == 1 + |r.toolCalls| && IsAnswer(msgs[0], r)
    && forall i | 0 <= i < |r.toolCalls| :: IsResultOf(msgs[1 + i], env, turn, i, agent, r.toolCalls[i])
  }

  lemma {:induction false} TurnMessagesAreTurn(env: Env, turn: nat, agent: Agent, r: ModelResponse)
    ensures IsTurn(env, turn, agent, r, TurnMessages(env, turn, agent, r))
  {
    var msgs := TurnMessages(env, turn, agent, r);
    forall i | 0 <= i < |r.toolCalls| ensures IsResultOf(msgs[1 + i], env, turn, i, agent, r.toolCalls[i]) {
      ToolMessageAt(env, turn, agent, r.toolCalls, 0, i);
    }
  }

  /** Consecutive turns, one for each answer. */
  ghost predicate AreTurns(env: Env, clock: nat, agent: Agent, answers: seq<ModelResponse>, msgs: seq<ChatMessage>)
    decreases |answers|, 0
  {
    if answers == [] then msgs == []
    else EndInTurn(env, clock, agent, answers, |answers| - 1, msgs)
  }

  ghost predicate EndInTurn(env: Env, clock: nat, agent: Agent, answers: seq<ModelResponse>, n: nat, msgs: seq<ChatMessage>)
    requires n < |answers|
    decreases n, 1
  {
    var k := |msgs| - 1 - |answers[n].toolCalls|;
    k >= 0 && IsTurn(env, clock + n, agent, answers[n], msgs[k..]) && AreTurns(env, clock, agent, answers[..n], msgs[..k])
  }

  lemma {:induction false} TurnsMessagesAreTurns(env: Env, clock: nat, agent: Agent, answers: seq<ModelResponse>)
    ensures AreTurns(env, clock, agent, answers, TurnsMessages(env, clock, agent, answers))
  {
    if answers != [] {
      var n := |answers| - 1;
      TurnsMessagesAreTurns(env, clock, agent, answers[..n]);
      TurnMessagesAreTurn(env, clock + n, agent, answers[n]);
      OneTurnMore(env, clock, agent, answers, TurnsMessages(env, clock, agent, answers[..n]),
                  TurnMessages(env, clock + n, agent, answers[n]));
    }
  }

  lemma {:induction false} OneTurnMore(env: Env, clock: nat, agent: Agent, answers: seq<ModelResponse>,
                                       front: seq<ChatMessage>, last: seq<ChatMessage>)
    requires answers != [] && AreTurns(env, clock, agent, answers[..|answers| - 1], front)
    requires IsTurn(env, clock + |answers| - 1, agent, answers[|answers| - 1], last)
    ensures AreTurns(env, clock, agent, answers, front + last)
  {
    assert (front + last)[..|front|] == front && (front + last)[|front|..] == last;
  }

  /** The committed message: the answer's text, and its reasoning unless the agent strips it. */
  ghost predicate IsCommit(m: ChatMessage, agent: Agent, r: ModelResponse) {
    && m.role == Assistant && m.content == Str(r.content) && m.toolCalls == [] && m.toolCallId == "" && m.name == ""
    && m.reasoning == if agent.stripThinkingOnCommit then "" else r.reasoning
  }

  lemma {:induction false} FinalMessageIsCommit(agent: Agent, r: ModelResponse)
    ensures IsCommit(FinalMessage(agent, r), agent, r)
  {
  }
}
