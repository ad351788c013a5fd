/**
 The executor's own code: `Graph.Run` and the operations it calls, on a pipeline context that is updated
 in place (agent/internal/agent/executor.go:19-214, history.go:14-135). Branches run one after the other
 here; what the methods compute is proved of every interleaving. The model, the tools and the upstream are
 an environment, and `limit` bounds the loops, which the source leaves unbounded.
 */
module AgentExecutor {
  import opened Text
  import opened AgentTypes
  import opened GraphRun
  import opened GraphReach
  import opened GraphConfluence

  class PipelineCtx {
    var originalBody: string
    var originalHeaders: Headers
    var stream: bool
    var format: int
    var messages: seq<ChatMessage>
    var nodeOutputs: map<string, string>
    var thinkingMode: Option<bool>
    var modelOverride: string
    var backendURL: string

    constructor (c: Ctx)
      ensures Value() == c
    {
      originalBody, originalHeaders, stream, format := c.originalBody, c.originalHeaders, c.stream, c.format;
      messages, nodeOutputs, thinkingMode := c.messages, c.outputs, c.thinkingMode;
      modelOverride, backendURL := c.modelOverride, c.backendURL;
    }

    function Value(): Ctx
      reads this
    {
      Ctx(originalBody, originalHeaders, stream, format, messages, nodeOutputs, thinkingMode, modelOverride, backendURL)
    }

    /** The effect of a transform or a merge. */
    method Assign(c: Ctx)
      modifies this
      ensures Value() == c
    {
      originalBody, originalHeaders, stream, format := c.originalBody, c.originalHeaders, c.stream, c.format;
      messages, nodeOutputs, thinkingMode := c.messages, c.outputs, c.thinkingMode;
      modelOverride, backendURL := c.modelOverride, c.backendURL;
    }

    /** An independent copy; its backend URL is left empty. */
    method DeepCopy() returns (c: PipelineCtx)
      ensures fresh(c) && c.Value() == CopyOf(Value())
      ensures c.originalBody == originalBody && c.stream == stream && c.format == format && c.messages == messages
      ensures c.nodeOutputs == nodeOutputs && c.thinkingMode == thinkingMode && c.modelOverride == modelOverride
      ensures c.originalHeaders == (if originalHeaders.Some? then originalHeaders else Some(map[])) && c.backendURL == ""
    {
      c := new PipelineCtx(Ctx(originalBody, Some(map[]), stream, format, messages, map[], None, modelOverride, ""));
      if originalHeaders.Some? {
        c.originalHeaders := originalHeaders;
      }
      var keys := nodeOutputs.Keys;
      while keys != {}
        invariant keys <= nodeOutputs.Keys
        invariant c.nodeOutputs == map k | k in nodeOutputs && k !in keys :: nodeOutputs[k]
        invariant c.Value() == CopyOf(Value()).(outputs := c.nodeOutputs, thinkingMode := None)
        decreases keys
      {
        var k :| k in keys;
        c.nodeOutputs := c.nodeOutputs[k := nodeOutputs[k]];
        keys := keys - {k};
      }
      c.thinkingMode := thinkingMode;
      assert c.nodeOutputs == nodeOutputs;
    }
  }

  method Windowed(msgs: seq<ChatMessage>, n: int) returns (r: seq<ChatMessage>)
    ensures r == ApplyWindow(msgs, n)
  {
    WindowIsSuffix(msgs, n);
    if n <= 0 || |msgs| <= n {
      return msgs;
    }
    return msgs[|msgs| - n..];
  }

  method StripAllThinking(msgs: seq<ChatMessage>) returns (out: seq<ChatMessage>)
    ensures |out| == |msgs| && forall i | 0 <= i < |msgs| :: out[i] == StripMessageThinking(msgs[i])
    ensures AllThinkingFree(out)
    ensures out == msgs <==> AllThinkingFree(msgs)
  {
    out := [];
    for i := 0 to |msgs|
      invariant |out| == i && forall j | 0 <= j < i :: out[j] == StripMessageThinking(msgs[j])
      invariant AllThinkingFree(out)
    {
      StripIsExact(msgs[i]);
      out := out + [StripMessageThinking(msgs[i])];
    }
    forall i | 0 <= i < |msgs| ensures out[i] == msgs[i] <==> ThinkingFree(msgs[i]) {
      StripIsExact(msgs[i]);
    }
  }

  /** The edge that is taken: of all edges that match, the one listed first. */
  method FindEdge(g: Graph, from: string, output: string) returns (edge: Option<Edge>)
    ensures edge == FirstEdge(g.edges, from, output)
    ensures edge.Some? ==> (exists i :: IsFirstMatch(g.edges, from, output, i) && g.edges[i] == edge.value)
    ensures edge.None? ==> NoMatch(g.edges, from, output)
  {
    for i := 0 to |g.edges|
      invariant NoMatch(g.edges[..i], from, output)
    {
      var e := g.edges[i];
      if e.from != from {
        continue;
      }
      if e.condition.None? || e.condition.value(output) {
        FirstEdgeIsFirst(g.edges, from, output, i);
        return Some(e);
      }
    }
    assert g.edges[..|g.edges|] == g.edges;
    FirstEdgeIsFirst(g.edges, from, output, |g.edges|);
    return None;
  }

  method ExecuteTool(env: Env, turn: nat, i: nat, agent: Agent, tc: ToolCall) returns (result: ToolResult)
    ensures tc.name in agent.tools ==> result == env.tool(turn, i, tc.name, tc.arguments)
    ensures tc.name !in agent.tools ==> result == Err(UnknownTool(tc.name))
  {
    for k := 0 to |agent.tools|
      invariant tc.name !in agent.tools[..k]
    {
      if agent.tools[k] != tc.name {
        continue;
      }
      return env.tool(turn, i, tc.name, tc.arguments);
    }
    return Err(UnknownTool(tc.name));
  }

  // ---- Route nodes ----

  /** One model call on the windowed history; the output is the answer, upper-cased and trimmed. */
  method RunRoute(g: Graph, env: Env, id: string, pctx: PipelineCtx, clock: nat, ghost s: Run) returns (output: Option<string>)
    requires s.graph == g && s.env == env && s.clock == clock && s.ctx == pctx.Value() && s.control == AtNode(id)
    requires id in g.nodes && g.nodes[id].kind.Route?
    ensures output.None? ==> LeadsTo(s, Fail(s))
    ensures output.Some? ==> LeadsTo(s, Leave(s.(clock := clock + 1), id, output.value))
    ensures match Answer(env, g, g.nodes[id].agent, pctx.Value(), clock, pctx.messages)
            case None => output.None?
            case Some(r) => output.Some? && IsTrimmed(output.value, env.upper(r.content))
  {
    LeadsToNext(s);
    var agent := g.nodes[id].agent;
    var msgs := Windowed(pctx.messages, WindowSize(g, agent));
    var resp := CallModel(env, clock, agent, pctx.Value(), msgs);
    if resp.None? {
      return None;
    }
    TrimSpaceIsExact(env.upper(resp.value.content));
    return Some(TrimSpace(env.upper(resp.value.content)));
  }

  // ---- Chain nodes ----

  /** The model's answer to the windowed history. */
  function Answer(env: Env, g: Graph, agent: Agent, ctx: Ctx, turn: nat, history: seq<ChatMessage>): Option<ModelResponse> {
    CallModel(env, turn, agent, ctx, ApplyWindow(history, WindowSize(g, agent)))
  }

  /** Without a backend the model does not answer; otherwise it is asked with the agent's window of the history. */
  lemma {:induction false} ModelIsAsked(env: Env, g: Graph, agent: Agent, ctx: Ctx, turn: nat, history: seq<ChatMessage>)
    returns (seen: seq<ChatMessage>)
    ensures Answer(env, g, agent, ctx, turn, history)
            == if ctx.backendURL == "" then None else env.model(turn, agent, ctx, seen)
    ensures IsLast(seen, history)
    ensures agent.windowSize > 0 ==> |seen| == if |history| < agent.windowSize then |history| else agent.windowSize
    ensures agent.windowSize <= 0 < g.windowSize ==> |seen| == if |history| < g.windowSize then |history| else g.windowSize
    ensures agent.windowSize <= 0 && g.windowSize <= 0 ==> seen == history
  {
    seen := ApplyWindow(history, WindowSize(g, agent));
    WindowOfAgent(g, agent, history);
  }

  /** The working history after `k` turns of the tool loop, if there are that many. */
  ghost function History(env: Env, g: Graph, agent: Agent, ctx: Ctx, clock: nat, k: nat): Option<seq<ChatMessage>>
    decreases k, 0
  {
    if k == 0 then Some(ctx.messages) else OneTurnOn(env, g, agent, ctx, clock, k - 1)
  }

  ghost function OneTurnOn(env: Env, g: Graph, agent: Agent, ctx: Ctx, clock: nat, k: nat): Option<seq<ChatMessage>>
    decreases k, 1
  {
    match History(env, g, agent, ctx, clock, k)
    case None => None
    case Some(before) =>
      match Answer(env, g, agent, ctx, clock + k, before)
      case None => None
      case Some(r) =>
        if r.toolCalls == [] then None else Some(before + TurnMessages(env, clock + k, agent, r))
  }

  /** Each answer is what the model said to the history before it, and calls tools. */
  ghost predicate Answered(env: Env, g: Graph, agent: Agent, ctx: Ctx, clock: nat, answers: seq<ModelResponse>) {
    forall i | 0 <= i < |answers| :: answers[i].toolCalls != [] && AnsweredTurn(env, g, agent, ctx, clock, answers, i)
  }

  ghost predicate AnsweredTurn(env: Env, g: Graph, agent: Agent, ctx: Ctx, clock: nat, answers: seq<ModelResponse>, i: nat)
    requires i < |answers|
  {
    Answer(env, g, agent, ctx, clock + i, ctx.messages + TurnsMessages(env, clock, agent, answers[..i])) == Some(answers[i])
  }

  lemma {:induction false} AnsweredSnoc(env: Env, g: Graph, agent: Agent, ctx: Ctx, clock: nat,
                                        answers: seq<ModelResponse>, r: ModelResponse)
    requires Answered(env, g, agent, ctx, clock, answers) && r.toolCalls != []
    requires Answer(env, g, agent, ctx, clock + |answers|, ctx.messages + TurnsMessages(env, clock, agent, answers)) == Some(r)
    ensures Answered(env, g, agent, ctx, clock, answers + [r])
  {
    var all := answers + [r];
    forall i | 0 <= i < |all| ensures all[i].toolCalls != [] && AnsweredTurn(env, g, agent, ctx, clock, all, i) {
      if i < |answers| {
        assert AnsweredTurn(env, g, agent, ctx, clock, answers, i);
        assert all[..i] == answers[..i];
      } else {
        assert all[..i] == answers;
      }
    }
  }

  lemma {:induction false} TurnsGrow(env: Env, clock: nat, agent: Agent, msgs: seq<ChatMessage>,
                                     answers: seq<ModelResponse>, r: ModelResponse,
                                     before: seq<ChatMessage>, working: seq<ChatMessage>)
    requires before == msgs + TurnsMessages(env, clock, agent, answers)
    requires working == before + TurnMessages(env, clock + |answers|, agent, r)
    ensures working == msgs + TurnsMessages(env, clock, agent, answers + [r])
  {
    assert (answers + [r])[..|answers|] == answers;
    Assoc(msgs, TurnsMessages(env, clock, agent, answers), TurnMessages(env, clock + |answers|, agent, r));
  }

  lemma {:induction false} LastTurn(env: Env, g: Graph, agent: Agent, ctx: Ctx, clock: nat, k: nat)
    returns (before: seq<ChatMessage>, r: ModelResponse)
    requires k > 0
    ensures var working := History(env, g, agent, ctx, clock, k);
            working.Some? ==>
              && History(env, g, agent, ctx, clock, k - 1) == Some(before)
              && Answer(env, g, agent, ctx, clock + (k - 1), before) == Some(r) && r.toolCalls != []
              && working.value == before + TurnMessages(env, clock + (k - 1), agent, r)
  {
    before, r := [], ModelResponse("", "", []);
    if OneTurnOn(env, g, agent, ctx, clock, k - 1).Some? {
      before := History(env, g, agent, ctx, clock, k - 1).value;
      r := Answer(env, g, agent, ctx, clock + (k - 1), before).value;
    }
  }

  /**
   The working history is the stored messages followed by one complete turn per iteration: the model's
   answer verbatim, with its reasoning, and one tool message per call in call order, even for tools that
   fail or do not exist.
   */
  lemma {:induction false} HistoryIsTurns(env: Env, g: Graph, agent: Agent, ctx: Ctx, clock: nat, k: nat)
    returns (answers: seq<ModelResponse>)
    ensures History(env, g, agent, ctx, clock, k).Some? ==>
              && |answers| == k && Answered(env, g, agent, ctx, clock, answers)
              && History(env, g, agent, ctx, clock, k).value == ctx.messages + TurnsMessages(env, clock, agent, answers)
    ensures AreTurns(env, clock, agent, answers, TurnsMessages(env, clock, agent, answers))
  {
    answers := [];
    if k == 0 {
      assert ctx.messages + TurnsMessages(env, clock, agent, []) == ctx.messages;
    } else {
      var before, r := LastTurn(env, g, agent, ctx, clock, k);
      var front := HistoryIsTurns(env, g, agent, ctx, clock, k - 1);
      var working := History(env, g, agent, ctx, clock, k);
      if working.Some? {
        answers := front + [r];
        AnsweredSnoc(env, g, agent, ctx, clock, front, r);
        TurnsGrow(env, clock, agent, ctx.messages, front, r, before, working.value);
      }
    }
    TurnsMessagesAreTurns(env, clock, agent, answers);
  }

  // ---- The tool loop in the protocol ----

  ghost function Looping(s: Run, id: string, clock: nat, working: seq<ChatMessage>): Run {
    s.(clock := clock, control := InChain(id, working))
  }

  /** A turn with tool calls. */
  lemma {:induction false} LoopCalls(loop: Run, id: string, working: seq<ChatMessage>, r: ModelResponse, after: Run)
    requires loop.control == InChain(id, working) && id in loop.graph.nodes && r.toolCalls != []
    requires Answer(loop.env, loop.graph, loop.graph.nodes[id].agent, loop.ctx, loop.clock, working) == Some(r)
    requires var turn := TurnMessages(loop.env, loop.clock, loop.graph.nodes[id].agent, r);
             after == Looping(loop, id, loop.clock + 1, working + turn)
    ensures LeadsTo(loop, after)
  {
    assert ChainStep(loop, loop.env, id, working) == after;
    LeadsToNext(loop);
  }

  lemma {:induction false} LoopFails(s: Run, loop: Run, id: string, working: seq<ChatMessage>)
    requires loop.control == InChain(id, working) && id in loop.graph.nodes && LeadsTo(s, loop)
    requires Answer(loop.env, loop.graph, loop.graph.nodes[id].agent, loop.ctx, loop.clock, working).None?
    ensures LeadsTo(s, Fail(loop))
  {
    LeadsToNext(loop);
    LeadsOn(s, loop, Fail(loop));
  }

  lemma {:induction false} LoopCommits(s: Run, loop: Run, id: string, working: seq<ChatMessage>, r: ModelResponse, t: Run)
    requires loop.control == InChain(id, working) && id in loop.graph.nodes && r.toolCalls == [] && LeadsTo(s, loop)
    requires Answer(loop.env, loop.graph, loop.graph.nodes[id].agent, loop.ctx, loop.clock, working) == Some(r)
    requires var msgs := loop.ctx.messages + [FinalMessage(loop.graph.nodes[id].agent, r)];
             t == loop.(clock := loop.clock + 1, ctx := loop.ctx.(messages := msgs))
    ensures LeadsTo(s, Leave(t, id, r.content))
  {
    LoopLeaves(loop, id, working, r, t);
    LeadsOn(s, loop, Leave(t, id, r.content));
  }

  lemma {:induction false} LoopLeaves(loop: Run, id: string, working: seq<ChatMessage>, r: ModelResponse, t: Run)
    requires loop.control == InChain(id, working) && id in loop.graph.nodes && r.toolCalls == []
    requires Answer(loop.env, loop.graph, loop.graph.nodes[id].agent, loop.ctx, loop.clock, working) == Some(r)
    requires var msgs := loop.ctx.messages + [FinalMessage(loop.graph.nodes[id].agent, r)];
             t == loop.(clock := loop.clock + 1, ctx := loop.ctx.(messages := msgs))
    ensures LeadsTo(loop, Leave(t, id, r.content))
  {
    assert ChainStep(loop, loop.env, id, working) == Leave(t, id, r.content);
    LeadsToNext(loop);
  }

  ghost function HistoryOf(s: Run, id: string, k: nat): Option<seq<ChatMessage>>
    requires id in s.graph.nodes
  {
    History(s.env, s.graph, s.graph.nodes[id].agent, s.ctx, s.clock, k)
  }

  lemma {:induction false} LoopTurn(s: Run, id: string, k: nat) returns (prev: Run)
    requires id in s.graph.nodes
    ensures HistoryOf(s, id, k + 1).Some? ==>
              && HistoryOf(s, id, k).Some? && prev == Looping(s, id, s.clock + k, HistoryOf(s, id, k).value)
              && LeadsTo(prev, Looping(s, id, s.clock + k + 1, HistoryOf(s, id, k + 1).value))
  {
    var working := HistoryOf(s, id, k + 1);
    prev := s;
    var before, r := LastTurn(s.env, s.graph, s.graph.nodes[id].agent, s.ctx, s.clock, k + 1);
    if working.Some? {
      prev := Looping(s, id, s.clock + k, before);
      LoopCalls(prev, id, before, r, Looping(s, id, s.clock + k + 1, working.value));
    }
  }

  lemma {:induction false} EntersLoop(s: Run, id: string)
    requires s.control == AtNode(id) && id in s.graph.nodes && s.graph.nodes[id].kind.Chain?
    ensures LeadsTo(s, Looping(s, id, s.clock, s.ctx.messages))
  {
    LeadsToNext(s);
  }

  /** In the protocol, too, the tool loop has this history after `k` turns. */
  lemma {:induction false} LeadsToLoop(s: Run, id: string, k: nat) returns (loop: Run)
    requires s.control == AtNode(id) && id in s.graph.nodes && s.graph.nodes[id].kind.Chain?
    ensures HistoryOf(s, id, k).Some? ==>
              loop == Looping(s, id, s.clock + k, HistoryOf(s, id, k).value) && LeadsTo(s, loop)
    decreases k
  {
    loop := s;
    if HistoryOf(s, id, k).Some? {
      loop := Looping(s, id, s.clock + k, HistoryOf(s, id, k).value);
      if k == 0 {
        EntersLoop(s, id);
      } else {
        var prev := LoopTurn(s, id, k - 1);
        var same := LeadsToLoop(s, id, k - 1);
        LeadsOn(s, prev, loop);
      }
    }
  }

  /** How a tool loop ended: with a final answer, with an error, or not within the given turns. */
  datatype LoopEnd = Final(r: ModelResponse) | NoAnswer | StillRunning

  /**
   The tool loop, for at most `limit` model turns. After `turns` turns with tool calls the model stops
   calling tools, or it gives no answer. The context is only read.
   */
  method ToolLoop(g: Graph, env: Env, id: string, pctx: PipelineCtx, clock: nat, limit: nat)
    returns (end: LoopEnd, turns: nat, ghost working: seq<ChatMessage>)
    requires id in g.nodes
    ensures History(env, g, g.nodes[id].agent, pctx.Value(), clock, turns) == Some(working)
    ensures end.Final? ==>
              end.r.toolCalls == [] && Answer(env, g, g.nodes[id].agent, pctx.Value(), clock + turns, working) == Some(end.r)
    ensures end.NoAnswer? ==> Answer(env, g, g.nodes[id].agent, pctx.Value(), clock + turns, working).None?
    ensures end.StillRunning? ==> turns == limit
  {
    var agent := g.nodes[id].agent;
    var workingMessages := pctx.messages;
    var window := WindowSize(g, agent);
    turns := 0;
    while turns < limit
      invariant turns <= limit
      invariant History(env, g, agent, pctx.Value(), clock, turns) == Some(workingMessages)
    {
      var windowed := Windowed(workingMessages, window);
      var resp := CallModel(env, clock + turns, agent, pctx.Value(), windowed);
      if resp.None? {
        return NoAnswer, turns, workingMessages;
      }
      var r := resp.value;
      if |r.toolCalls| > 0 {
        workingMessages := AppendTurn(env, clock + turns, agent, r, workingMessages);
        assert OneTurnOn(env, g, agent, pctx.Value(), clock, turns) == Some(workingMessages);
        turns := turns + 1;
        continue;
      }
      return Final(r), turns, workingMessages;
    }
    return StillRunning, turns, workingMessages;
  }

  /** The context after the final message is committed. */
  function Commit(ctx: Ctx, agent: Agent, r: ModelResponse): Ctx {
    ctx.(messages := ctx.messages + [FinalMessage(agent, r)])
  }

  /** What the protocol does in a chain node whose loop gets no answer, or a final one, after `turns` turns. */
  lemma {:induction false} ChainEnds(s: Run, id: string, turns: nat)
    requires s.control == AtNode(id) && id in s.graph.nodes && s.graph.nodes[id].kind.Chain?
    ensures HistoryOf(s, id, turns).Some? ==>
              var agent := s.graph.nodes[id].agent;
              match Answer(s.env, s.graph, agent, s.ctx, s.clock + turns, HistoryOf(s, id, turns).value)
              case None => LeadsTo(s, Fail(s.(clock := s.clock + turns)))
              case Some(r) =>
                r.toolCalls == [] ==>
                  var t := s.(clock := s.clock + turns + 1, ctx := Commit(s.ctx, agent, r));
                  LeadsTo(s, Leave(t, id, r.content))
  {
    var loop := LeadsToLoop(s, id, turns);
    if HistoryOf(s, id, turns).Some? {
      var working := HistoryOf(s, id, turns).value;
      var agent := s.graph.nodes[id].agent;
      match Answer(s.env, s.graph, agent, s.ctx, s.clock + turns, working)
      case None =>
        LoopFails(s, loop, id, working);
      case Some(r) =>
        if r.toolCalls == [] {
          var t := s.(clock := s.clock + turns + 1, ctx := Commit(s.ctx, agent, r));
          LoopCommits(s, loop, id, working, r, loop.(clock := loop.clock + 1, ctx := t.ctx));
          assert Leave(t, id, r.content) == Leave(loop.(clock := loop.clock + 1, ctx := t.ctx), id, r.content);
        }
    }
  }

  datatype ChainEnd = Committed(r: ModelResponse) | Failure | OutOfTurns

  /** A chain node: exactly one message is committed to the context when the loop ends with an answer, and none otherwise. */
  method RunChain(g: Graph, env: Env, id: string, pctx: PipelineCtx, clock: nat, limit: nat, ghost s: Run)
    returns (end: ChainEnd, turns: nat)
    requires s.graph == g && s.env == env && s.clock == clock && s.ctx == pctx.Value() && s.control == AtNode(id)
    requires id in g.nodes && g.nodes[id].kind.Chain?
    modifies pctx
    ensures pctx.Value() == if end.Committed? then Commit(s.ctx, g.nodes[id].agent, end.r) else s.ctx
    ensures end.Committed? ==>
              exists m :: IsCommit(m, g.nodes[id].agent, end.r) && pctx.messages == old(pctx.messages) + [m]
    ensures end.Committed? ==>
              LeadsTo(s, Leave(s.(clock := clock + turns + 1, ctx := pctx.Value()), id, end.r.content))
    ensures end.Failure? ==> LeadsTo(s, Fail(s.(clock := clock + turns)))
  {
    var loopEnd;
    ghost var working;
    loopEnd, turns, working := ToolLoop(g, env, id, pctx, clock, limit);
    match loopEnd {
      case StillRunning =>
        end := OutOfTurns;
      case NoAnswer =>
        ChainEnds(s, id, turns);
        end := Failure;
      case Final(r) =>
        ChainEnds(s, id, turns);
        FinalMessageIsCommit(g.nodes[id].agent, r);
        pctx.messages := pctx.messages + [FinalMessage(g.nodes[id].agent, r)];
        end := Committed(r);
    }
  }

  /** The assistant message and the tool messages of one turn; failures become the text of their message. */
  method AppendTurn(env: Env, turn: nat, agent: Agent, r: ModelResponse, working: seq<ChatMessage>)
    returns (out: seq<ChatMessage>)
    requires |r.toolCalls| > 0
    ensures out == working + TurnMessages(env, turn, agent, r)
    ensures IsTurn(env, turn, agent, r, out[|working|..])
  {
    var tools: seq<ChatMessage> := [];
    for i := 0 to |r.toolCalls|
      invariant ToolMessages(env, turn, agent, r.toolCalls, 0) == tools + ToolMessages(env, turn, agent, r.toolCalls, i)
    {
      var tc := r.toolCalls[i];
      var result := ExecuteTool(env, turn, i, agent, tc);
      var msg := ToolMessage(tc, ContentOf(result));
      Assoc(tools, [msg], ToolMessages(env, turn, agent, r.toolCalls, i + 1));
      tools := tools + [msg];
    }
    out := working + ([AssistantMessage(r)] + tools);
    TurnMessagesAreTurn(env, turn, agent, r);
    assert out[|working|..] == TurnMessages(env, turn, agent, r);
  }

  // ---- Scatter nodes and whole graphs ----

  datatype RunEnd = Completed | Error | OutOfSteps

  /** How `Run` ended is how the run ends in the protocol, with this context. */
  ghost predicate EndsAs(end: RunEnd, final: Run, ctx: Ctx) {
    && (end.Completed? ==> final.control == Halted(true) && final.ctx == ctx)
    && (end.Error? ==> final.control == Halted(false) && final.ctx == ctx)
  }

  ghost function BranchStart(b: Branch): Run {
    Start(b.graph, b.env, b.ctx)
  }

  /** The branches up to now end, on their own, as these runs. */
  ghost predicate FirstEnd(branches: seq<Branch>, ends: seq<Run>) {
    |ends| <= |branches| && forall j | 0 <= j < |ends| :: EndsIn(BranchStart(branches[j]), ends[j])
  }

  lemma {:induction false} ScatterJoins(s: Run, id: string, branches: seq<Branch>, ends: seq<Run>)
    requires s.control == AtNode(id) && id in s.graph.nodes && s.graph.nodes[id].kind.Scatter?
    requires id in s.graph.scatter && branches == s.graph.scatter[id].factory(s.ctx) && branches != []
    requires FirstEnd(branches, ends) && |ends| == |branches|
    ensures LeadsTo(s, Join(s, id, ends))
  {
    var t := s.(control := InScatter(id, StartBranches(branches)));
    LeadsToNext(s);
    assert forall j | 0 <= j < |ends| :: t.control.branches[j] == BranchStart(branches[j]);
    LeadsToJoin(t, ends);
    assert Join(t, id, ends) == Join(s, id, ends);
    LeadsOn(s, t, Join(s, id, ends));
  }

  /** All branches run, each on its own context; the contexts are merged in branch order if none failed. */
  method RunScatter(g: Graph, id: string, pctx: PipelineCtx, limit: nat, ghost s: Run) returns (end: RunEnd)
    requires s.graph == g && s.ctx == pctx.Value() && s.control == AtNode(id)
    requires id in g.nodes && g.nodes[id].kind.Scatter?
    modifies pctx
    ensures end.Completed? ==> LeadsTo(s, Leave(s.(ctx := pctx.Value()), id, ""))
    ensures end.Error? ==> LeadsTo(s, Fail(s))
    ensures !end.Completed? ==> pctx.Value() == s.ctx
    decreases limit, 0
  {
    if id !in g.scatter {
      LeadsToNext(s);
      return Error;
    }
    var sc := g.scatter[id];
    var branches := sc.factory(pctx.Value());
    if |branches| == 0 {
      LeadsToNext(s);
      return Completed;
    }
    if limit == 0 {
      return OutOfSteps;
    }
    var completedCtxs: seq<Ctx> := [];
    var failed := false;
    ghost var ends: seq<Run> := [];
    for i := 0 to |branches|
      invariant |ends| == i && FirstEnd(branches, ends)
      invariant completedCtxs == Contexts(ends) && (failed <==> AnyFailed(ends))
      invariant pctx.Value() == s.ctx
    {
      var b := branches[i];
      var ctx := new PipelineCtx(b.ctx);
      var branchEnd, final := RunGraph(b.graph, b.env, ctx, limit - 1);
      if branchEnd.OutOfSteps? {
        return OutOfSteps;
      }
      FailedSnoc(ends, final);
      failed := failed || branchEnd.Error?;
      completedCtxs := completedCtxs + [ctx.Value()];
      ends := ends + [final];
      assert completedCtxs == Contexts(ends);
    }
    ScatterJoins(s, id, branches, ends);
    if failed {
      return Error;
    }
    pctx.Assign(sc.merge(pctx.Value(), completedCtxs));
    return Completed;
  }

  lemma {:induction false} FailedSnoc(ends: seq<Run>, final: Run)
    ensures AnyFailed(ends + [final]) <==> (AnyFailed(ends) || Failed(final))
  {
    var all := ends + [final];
    if AnyFailed(ends) {
      var i :| 0 <= i < |ends| && Failed(ends[i]);
      assert Failed(all[i]);
    }
    if Failed(final) {
      assert Failed(all[|ends|]);
    }
  }

  /** What executing one node came to. */
  datatype NodeEnd = Output(text: string) | Ended(ok: bool) | NodeOutOfSteps

  lemma {:induction false} RespondEnds(s: Run)
    requires s.control.AtNode? && s.control.id in s.graph.nodes && s.graph.nodes[s.control.id].kind.Respond?
    ensures LeadsTo(s, s.(control := Halted(s.ctx.backendURL != "" && s.env.respond(s.ctx))))
  {
    LeadsToNext(s);
  }

  /** One node, up to its output; or the end of the run, at a respond node or with an error. */
  method RunNode(g: Graph, env: Env, id: string, pctx: PipelineCtx, clock: nat, limit: nat, ghost s: Run)
    returns (end: NodeEnd, next: nat, ghost t: Run)
    requires s.graph == g && s.env == env && s.clock == clock && s.ctx == pctx.Value() && s.control == AtNode(id)
    requires id in g.nodes
    modifies pctx
    ensures end.Output? ==> LeadsTo(s, Leave(t, id, end.text)) && t.graph == g && t.env == env && t.clock == next
    ensures end.Ended? ==> LeadsTo(s, t) && t.control == Halted(end.ok)
    ensures !end.NodeOutOfSteps? ==> t.ctx == pctx.Value()
    decreases limit, 1
  {
    match g.nodes[id].kind {
      case Route =>
        var out := RunRoute(g, env, id, pctx, clock, s);
        if out.None? {
          return Ended(false), clock, Fail(s);
        }
        return Output(out.value), clock + 1, s.(clock := clock + 1);
      case Chain =>
        var chainEnd, turns := RunChain(g, env, id, pctx, clock, limit, s);
        match chainEnd {
          case OutOfTurns =>
            return NodeOutOfSteps, clock, s;
          case Failure =>
            return Ended(false), clock + turns, Fail(s.(clock := clock + turns));
          case Committed(r) =>
            return Output(r.content), clock + turns + 1, s.(clock := clock + turns + 1, ctx := pctx.Value());
        }
      case Scatter =>
        var scatterEnd := RunScatter(g, id, pctx, limit, s);
        if scatterEnd.OutOfSteps? {
          return NodeOutOfSteps, clock, s;
        }
        if scatterEnd.Error? {
          return Ended(false), clock, Fail(s);
        }
        return Output(""), clock, s.(ctx := pctx.Value());
      case Respond =>
        var ok := pctx.backendURL != "" && env.respond(pctx.Value());
        RespondEnds(s);
        return Ended(ok), clock, s.(control := Halted(ok));
    }
  }

  /** Record the output and follow the first matching edge, if there is one. */
  method TakeEdge(g: Graph, id: string, output: string, pctx: PipelineCtx, ghost t: Run) returns (to: Option<string>)
    requires t.graph == g && t.ctx == pctx.Value() && id in g.nodes
    modifies pctx
    ensures Leave(t, id, output).ctx == pctx.Value()
    ensures Leave(t, id, output).control
            == if to.Some? then AtNode(to.value) else Halted(g.nodes[id].kind.Chain? || g.nodes[id].kind.Route?)
    ensures var recorded := old(pctx.Value()).(outputs := old(pctx.nodeOutputs)[id := output]);
            EdgeTaken(g, id, output, recorded, to, pctx.Value())
  {
    pctx.nodeOutputs := pctx.nodeOutputs[id := output];
    var edge := FindEdge(g, id, output);
    if edge.None? {
      return None;
    }
    if edge.value.transform.Some? {
      pctx.Assign(edge.value.transform.value(pctx.Value()));
    }
    return Some(edge.value.to);
  }

  lemma {:induction false} UnknownNode(s: Run)
    requires s.control.AtNode? && s.control.id !in s.graph.nodes
    ensures LeadsTo(s, Fail(s))
  {
    LeadsToNext(s);
  }

  /**
   `Graph.Run`. If it ends, then the graph has complete executions, and every one of them, with the
   branches' steps in any order, ends in the very state that it computes.
   */
  method RunGraph(g: Graph, env: Env, pctx: PipelineCtx, limit: nat) returns (end: RunEnd, ghost final: Run)
    modifies pctx
    ensures EndsAs(end, final, pctx.Value())
    ensures !end.OutOfSteps? ==> EndsIn(Start(g, env, old(pctx.Value())), final)
    ensures !end.OutOfSteps? ==> AlwaysEndsIn(Start(g, env, old(pctx.Value())), final)
    decreases limit, 2
  {
    ghost var start := Start(g, env, pctx.Value());
    ghost var s: Run := start;
    var nodeID, clock := g.entry, 0;
    LeadsToItself(s);
    for step := 0 to limit
      invariant s.graph == g && s.env == env && s.clock == clock && s.ctx == pctx.Value() && s.control == AtNode(nodeID)
      invariant LeadsTo(start, s)
    {
      if nodeID !in g.nodes {
        UnknownNode(s);
        LeadsToEnd(start, s, Fail(s));
        return Error, Fail(s);
      }
      var nodeEnd, next;
      ghost var t;
      nodeEnd, next, t := RunNode(g, env, nodeID, pctx, clock, limit, s);
      match nodeEnd {
        case NodeOutOfSteps =>
          return OutOfSteps, s;
        case Ended(ok) =>
          LeadsToEnd(start, s, t);
          return if ok then Completed else Error, t;
        case Output(output) =>
          clock := next;
          var to := TakeEdge(g, nodeID, output, pctx, t);
          ghost var u := Leave(t, nodeID, output);
          LeadsOn(start, s, u);
          s := u;
          if to.None? {
            AllSchedulesEnd(start, s);
            return if g.nodes[nodeID].kind in {Chain, Route} then Completed else Error, s;
          }
          nodeID := to.value;
      }
    }
    return OutOfSteps, s;
  }
}
