/**
 What the steps of the protocol do, by what they read and what they leave behind: which edge is taken, what
 the model is asked and what of its answer is kept, when a node fails
 (agent/internal/agent/executor.go:19-214, llm.go:68-70).
 */
module GraphSteps {
  import opened Text
  import opened AgentTypes
  import opened GraphRun

  /** Leaving a node records its output, takes the first matching edge, and ends the run if there is none. */
  lemma {:induction false} LeaveTakesEdge(s: Run, id: string, output: string) returns (to: Option<string>)
    ensures var u := Leave(s, id, output);
            && EdgeTaken(s.graph, id, output, s.ctx.(outputs := s.ctx.outputs[id := output]), to, u.ctx)
            && u.control == (if to.Some? then AtNode(to.value)
                             else Halted(id in s.graph.nodes && s.graph.nodes[id].kind in {Chain, Route}))
            && u == s.(ctx := u.ctx, control := u.control, executed := s.executed + [id], said := s.said + [output])
  {
    var edges := s.graph.edges;
    var i := FirstMatch(edges, id, output);
    FirstEdgeIsFirst(edges, id, output, i);
    to := if i < |edges| then Some(edges[i].to) else None;
    if i < |edges| {
      assert Follows(edges[i], s.ctx.(outputs := s.ctx.outputs[id := output]), edges[i].to, Leave(s, id, output).ctx);
    }
  }

  lemma {:induction false} FirstMatch(edges: seq<Edge>, from: string, output: string) returns (i: nat)
    ensures i < |edges| ==> IsFirstMatch(edges, from, output, i)
    ensures i >= |edges| ==> NoMatch(edges, from, output)
  {
    i := 0;
    while i < |edges| && (edges[i].from != from || (edges[i].condition.Some? && !edges[i].condition.value(output)))
      invariant i <= |edges| && NoMatch(edges[..i], from, output)
    {
      i := i + 1;
    }
    assert edges[..|edges|] == edges;
  }

  /** The answer of the model to the last messages of a history. */
  ghost predicate Answers(s: Run, env: Env, id: string, history: seq<ChatMessage>, answer: Option<ModelResponse>)
    requires id in s.graph.nodes
  {
    var agent := s.graph.nodes[id].agent;
    if s.ctx.backendURL == "" then answer.None?
    else exists seen :: SeenBy(s.graph, agent, history, seen) && env.model(s.clock, agent, s.ctx, seen) == answer
  }

  /** The agent's window wins over the graph's. */
  ghost predicate SeenBy(g: Graph, agent: Agent, history: seq<ChatMessage>, seen: seq<ChatMessage>) {
    && IsLast(seen, history)
    && var n := if agent.windowSize > 0 then agent.windowSize else g.windowSize;
       if n <= 0 || |history| <= n then seen == history else |seen| == n
  }

  lemma {:induction false} AskAnswers(s: Run, env: Env, id: string, history: seq<ChatMessage>)
    requires id in s.graph.nodes
    ensures Answers(s, env, id, history, Ask(s, env, id, history))
  {
    var agent := s.graph.nodes[id].agent;
    WindowOfAgent(s.graph, agent, history);
    assert SeenBy(s.graph, agent, history, ApplyWindow(history, WindowSize(s.graph, agent)));
  }

  /** Nodes that do not exist, and scatter nodes without a configuration, end the run with an error. */
  lemma {:induction false} UnknownFails(s: Run, env: Env, id: string)
    requires s.control == AtNode(id)
    requires id !in s.graph.nodes || (s.graph.nodes[id].kind.Scatter? && id !in s.graph.scatter)
    ensures Advance(s, env) == s.(control := Halted(false))
  {
  }

  /** A respond node ends the run, well if and only if there is a backend and it responds. */
  lemma {:induction false} RespondEndsRun(s: Run, env: Env, id: string)
    requires s.control == AtNode(id) && id in s.graph.nodes && s.graph.nodes[id].kind.Respond?
    ensures Advance(s, env) == s.(control := Halted(s.ctx.backendURL != "" && env.respond(s.ctx)))
  {
  }

  /** A route node asks once; its output is the trimmed upper-case answer, and the messages stay. */
  lemma {:induction false} RouteAsksOnce(s: Run, env: Env, id: string) returns (answer: Option<ModelResponse>, output: string)
    requires s.control == AtNode(id) && id in s.graph.nodes && s.graph.nodes[id].kind.Route?
    ensures Answers(s, env, id, s.ctx.messages, answer)
    ensures match answer
            case None => Advance(s, env) == s.(control := Halted(false))
            case Some(r) =>
              IsTrimmed(output, env.upper(r.content)) && Advance(s, env) == Leave(s.(clock := s.clock + 1), id, output)
  {
    AskAnswers(s, env, id, s.ctx.messages);
    answer, output := Ask(s, env, id, s.ctx.messages), "";
    if answer.Some? {
      output := TrimSpace(env.upper(answer.value.content));
      TrimSpaceIsExact(env.upper(answer.value.content));
    }
  }

  /** A chain node starts with the stored messages. */
  lemma {:induction false} ChainStarts(s: Run, env: Env, id: string)
    requires s.control == AtNode(id) && id in s.graph.nodes && s.graph.nodes[id].kind.Chain?
    ensures Advance(s, env) == s.(control := InChain(id, s.ctx.messages))
  {
  }

  /**
   One turn of the tool loop: without an answer the run fails; calls are answered in the working history; and
   a final answer is committed and is the output.
   */
  lemma {:induction false} TurnIsTaken(s: Run, env: Env, id: string, working: seq<ChatMessage>)
    returns (answer: Option<ModelResponse>, msgs: seq<ChatMessage>)
    requires s.control == InChain(id, working) && id in s.graph.nodes
    ensures Answers(s, env, id, working, answer)
    ensures var agent, next := s.graph.nodes[id].agent, s.(clock := s.clock + 1);
            match answer
            case None => Advance(s, env) == s.(control := Halted(false))
            case Some(r) =>
              if r.toolCalls != [] then
                IsTurn(env, s.clock, agent, r, msgs) && Advance(s, env) == next.(control := InChain(id, working + msgs))
              else
                && |msgs| == 1 && IsCommit(msgs[0], agent, r)
                && Advance(s, env) == Leave(next.(ctx := s.ctx.(messages := s.ctx.messages + msgs)), id, r.content)
  {
    AskAnswers(s, env, id, working);
    answer, msgs := Ask(s, env, id, working), [];
    if answer.Some? {
      var agent, r := s.graph.nodes[id].agent, answer.value;
      if r.toolCalls != [] {
        TurnMessagesAreTurn(env, s.clock, agent, r);
        msgs := TurnMessages(env, s.clock, agent, r);
      } else {
        FinalMessageIsCommit(agent, r);
        msgs := [FinalMessage(agent, r)];
      }
    }
  }

  /** A scatter node starts each branch at its graph's entry, with the branch's own context; none are left at once. */
  lemma {:induction false} ScatterStarts(s: Run, env: Env, id: string)
    requires s.control == AtNode(id) && id in s.graph.nodes && s.graph.nodes[id].kind.Scatter? && id in s.graph.scatter
    ensures var bs, t := s.graph.scatter[id].factory(s.ctx), Advance(s, env);
            if bs == [] then t == Leave(s, id, "")
            else
              && t.control.InScatter? && t == s.(control := InScatter(id, t.control.branches))
              && |t.control.branches| == |bs|
              && forall i | 0 <= i < |bs| ::
                   t.control.branches[i] == Run(bs[i].graph, bs[i].env, 0, bs[i].ctx, AtNode(bs[i].graph.entry), [], [])
  {
  }

  ghost predicate AreContexts(cs: seq<Ctx>, bs: seq<Run>) {
    |cs| == |bs| && forall i | 0 <= i < |bs| :: cs[i] == bs[i].ctx
  }

  /** The contexts of the branches are merged into the parent's, in branch order. */
  lemma {:induction false} MergedIsMerge(s: Run, id: string, bs: seq<Run>, cs: seq<Ctx>)
    requires id in s.graph.scatter && AreContexts(cs, bs)
    ensures Merged(s, id, bs) == Leave(s.(ctx := s.graph.scatter[id].merge(s.ctx, cs)), id, "")
  {
    assert cs == Contexts(bs);
  }

  /** One failed branch fails the scatter node; otherwise the contexts are merged. */
  lemma {:induction false} JoinMerges(s: Run, env: Env, id: string, bs: seq<Run>, cs: seq<Ctx>)
    requires s.control == InScatter(id, bs) && id in s.graph.scatter && AreContexts(cs, bs)
    ensures Advance(s, env) ==
              if exists i :: 0 <= i < |bs| && bs[i].control == Halted(false) then s.(control := Halted(false))
              else Leave(s.(ctx := s.graph.scatter[id].merge(s.ctx, cs)), id, "")
  {
    MergedIsMerge(s, id, bs, cs);
  }

  /** A branch that is itself between two steps of its own: it has not halted and waits for no branches. */
  predicate Running(s: Run) {
    !s.control.Halted? && !s.control.InScatter?
  }

  /**
   A running branch can always take its next step in its own environment; in any other one, as after the
   cancellation of its context, exactly if a sibling has failed. The step changes this branch alone.
   */
  lemma {:induction false} BranchTakesStep(s: Run, id: string, bs: seq<Run>, j: nat, other: Env)
    requires s.control == InScatter(id, bs) && j < |bs| && Running(bs[j])
    ensures var own, cancelled := Move([j], None), Move([j], Some(other));
            && Enabled(s, own, false) && Next(s, own) == s.(control := InScatter(id, bs[j := Advance(bs[j], bs[j].env)]))
            && (Enabled(s, cancelled, false) <==> exists i :: 0 <= i < |bs| && bs[i].control == Halted(false))
            && Next(s, cancelled) == s.(control := InScatter(id, bs[j := Advance(bs[j], other)]))
  {
    var own, cancelled := Move([j], None), Move([j], Some(other));
    assert own.path[1..] == [] && cancelled.path[1..] == [];
  }
}
