/**
 Safety of graph execution, over every state that any schedule reaches: stored histories stay free of
 thinking, tool loops keep calls and results paired, chain nodes commit one message each, and graphs
 whose edges descend execute every node at most once (agent/internal/agent/executor.go:19-214).
 */
module GraphSafety {
  import opened Text
  import opened AgentTypes
  import opened GraphRun

  // ---- No thinking in stored messages ----

  /** A commit is free of thinking exactly when the agent strips it or the model sent none. */
  lemma {:induction false} CommitIsFree(agent: Agent, r: ModelResponse)
    ensures ThinkingFree(FinalMessage(agent, r)) <==> (agent.stripThinkingOnCommit || r.reasoning == "")
  {
    StripIsExact(ChatMessage(Assistant, Str(r.content), r.reasoning, [], "", ""));
  }

  ghost predicate KeepsFree(f: Ctx -> Ctx) {
    forall c: Ctx | AllThinkingFree(c.messages) :: AllThinkingFree(f(c).messages)
  }

  ghost predicate AllFree(cs: seq<Ctx>) {
    forall i | 0 <= i < |cs| :: AllThinkingFree(cs[i].messages)
  }

  ghost predicate ScatterKeepsFree(sc: ScatterConfig, good: Graph -> bool) {
    && (forall c: Ctx | AllThinkingFree(c.messages) ::
          forall i | 0 <= i < |sc.factory(c)| :: BranchIsFree(sc.factory(c)[i], good))
    && (forall c: Ctx, cs: seq<Ctx> | AllThinkingFree(c.messages) && AllFree(cs) ::
          AllThinkingFree(sc.merge(c, cs).messages))
  }

  ghost predicate BranchIsFree(b: Branch, good: Graph -> bool) {
    AllThinkingFree(b.ctx.messages) && good(b.graph)
  }

  predicate StripsAllChains(g: Graph) {
    forall id | id in g.nodes && g.nodes[id].kind.Chain? :: g.nodes[id].agent.stripThinkingOnCommit
  }

  /** Every chain node strips, and transforms, factories and merges add no thinking; `good` holds of all subgraphs. */
  ghost predicate Strips(g: Graph, good: Graph -> bool) {
    && StripsAllChains(g)
    && (forall e | e in g.edges && e.transform.Some? :: KeepsFree(e.transform.value))
    && (forall id | id in g.scatter :: ScatterKeepsFree(g.scatter[id], good))
  }

  ghost predicate AllStrip(good: Graph -> bool) {
    forall g | good(g) :: Strips(g, good)
  }

  /** The messages of the run and of all its branches, at every depth, are free of thinking. */
  ghost predicate Clean(s: Run, good: Graph -> bool) {
    && good(s.graph) && AllThinkingFree(s.ctx.messages)
    && match s.control
       case InChain(id, _) => id in s.graph.nodes && s.graph.nodes[id].kind.Chain?
       case InScatter(id, bs) => id in s.graph.scatter && forall i | 0 <= i < |bs| :: Clean(bs[i], good)
       case _ => true
  }

  lemma {:induction false} LeaveKeepsClean(s: Run, id: string, output: string, good: Graph -> bool)
    requires AllStrip(good) && good(s.graph) && AllThinkingFree(s.ctx.messages)
    ensures Clean(Leave(s, id, output), good)
  {
    var ctx := s.ctx.(outputs := s.ctx.outputs[id := output]);
    var e := FirstEdge(s.graph.edges, id, output);
    assert Strips(s.graph, good);
    if e.Some? && e.value.transform.Some? {
      assert KeepsFree(e.value.transform.value);
    }
  }

  lemma {:induction false} ChainKeepsClean(s: Run, env: Env, good: Graph -> bool)
    requires AllStrip(good) && Clean(s, good) && s.control.InChain?
    ensures Clean(Advance(s, env), good)
  {
    var id, working := s.control.id, s.control.working;
    var agent := AgentOf(s.graph, id);
    var answer := Ask(s, env, id, working);
    if answer.Some? && answer.value.toolCalls == [] {
      var r := answer.value;
      assert Strips(s.graph, good);
      CommitIsFree(agent, r);
      var next := s.(clock := s.clock + 1, ctx := s.ctx.(messages := s.ctx.messages + [FinalMessage(agent, r)]));
      LeaveKeepsClean(next, id, r.content, good);
    }
  }

  lemma {:induction false} ScatterKeepsClean(s: Run, id: string, good: Graph -> bool)
    requires AllStrip(good) && good(s.graph) && AllThinkingFree(s.ctx.messages)
    ensures Clean(ScatterStep(s, id), good)
  {
    if id in s.graph.scatter {
      var bs := s.graph.scatter[id].factory(s.ctx);
      assert Strips(s.graph, good) && ScatterKeepsFree(s.graph.scatter[id], good);
      forall i | 0 <= i < |bs| ensures Clean(StartBranches(bs)[i], good) {
        assert BranchIsFree(bs[i], good);
      }
      if bs == [] {
        LeaveKeepsClean(s, id, "", good);
      }
    }
  }

  lemma {:induction false} JoinKeepsClean(s: Run, good: Graph -> bool)
    requires AllStrip(good) && Clean(s, good) && s.control.InScatter?
    ensures Clean(Join(s, s.control.id, s.control.branches), good)
  {
    var id, bs := s.control.id, s.control.branches;
    assert Strips(s.graph, good) && ScatterKeepsFree(s.graph.scatter[id], good);
    assert AllFree(Contexts(bs)) by {
      forall i | 0 <= i < |bs| ensures AllThinkingFree(Contexts(bs)[i].messages) {
        assert Clean(bs[i], good);
      }
    }
    LeaveKeepsClean(s.(ctx := s.graph.scatter[id].merge(s.ctx, Contexts(bs))), id, "", good);
  }

  lemma {:induction false} AdvanceKeepsClean(s: Run, env: Env, good: Graph -> bool)
    requires AllStrip(good) && Clean(s, good)
    ensures Clean(Advance(s, env), good)
  {
    match s.control
    case Halted(_) =>
    case InChain(_, _) => ChainKeepsClean(s, env, good);
    case InScatter(_, _) => JoinKeepsClean(s, good);
    case AtNode(id) =>
      ScatterKeepsClean(s, id, good);
      var answer := Ask(s, env, id, s.ctx.messages);
      if answer.Some? {
        LeaveKeepsClean(s.(clock := s.clock + 1), id, TrimSpace(env.upper(answer.value.content)), good);
      }
  }

  lemma {:induction false} NextKeepsClean(s: Run, m: Move, good: Graph -> bool)
    requires AllStrip(good) && Clean(s, good)
    ensures Clean(Next(s, m), good)
    decreases |m.path|
  {
    if m.path == [] {
      AdvanceKeepsClean(s, if m.cancelled.Some? then m.cancelled.value else s.env, good);
    } else if s.control.InScatter? && m.path[0] < |s.control.branches| {
      var (i, bs) := (m.path[0], s.control.branches);
      assert Clean(bs[i], good);
      NextKeepsClean(bs[i], m.(path := m.path[1..]), good);
    }
  }

  /** No schedule ever puts thinking into a stored history, of the run or of any branch. */
  lemma {:induction false} NoThinkingIsStored(s: Run, moves: seq<Move>, good: Graph -> bool)
    requires AllStrip(good) && Clean(s, good)
    ensures Clean(Play(s, moves), good)
    decreases |moves|
  {
    if moves != [] {
      NextKeepsClean(s, moves[0], good);
      NoThinkingIsStored(Next(s, moves[0]), moves[1..], good);
    }
  }

  // ---- Tool loops ----

  /** An assistant message that calls tools, and exactly one tool message per call, in call order. */
  predicate IsGroup(msgs: seq<ChatMessage>) {
    && |msgs| > 1 && msgs[0].role == Assistant && |msgs[0].toolCalls| == |msgs| - 1
    && forall i | 1 <= i < |msgs| :: msgs[i].role == Tool && msgs[i].toolCallId == msgs[0].toolCalls[i - 1].id
  }

  predicate Grouped(msgs: seq<ChatMessage>)
    decreases |msgs|
  {
    msgs == []
    || (var k := 1 + |msgs[0].toolCalls|; k <= |msgs| && IsGroup(msgs[..k]) && Grouped(msgs[k..]))
  }

  lemma {:induction false} GroupedSnoc(msgs: seq<ChatMessage>, group: seq<ChatMessage>)
    requires Grouped(msgs) && IsGroup(group)
    ensures Grouped(msgs + group)
    decreases |msgs|
  {
    if msgs == [] {
      assert msgs + group == group && group[..|group|] == group && group[|group|..] == [];
    } else {
      var k := 1 + |msgs[0].toolCalls|;
      assert (msgs + group)[..k] == msgs[..k] && (msgs + group)[k..] == msgs[k..] + group;
      GroupedSnoc(msgs[k..], group);
    }
  }

  lemma {:induction false} TurnIsGroup(env: Env, turn: nat, agent: Agent, r: ModelResponse)
    requires r.toolCalls != []
    ensures IsGroup(TurnMessages(env, turn, agent, r))
  {
    var msgs := TurnMessages(env, turn, agent, r);
    forall i | 1 <= i < |msgs| ensures msgs[i].role == Tool && msgs[i].toolCallId == msgs[0].toolCalls[i - 1].id {
      ToolMessageAt(env, turn, agent, r.toolCalls, 0, i - 1);
    }
  }

  /** In a tool loop the stored messages are followed by complete groups; likewise in all branches. */
  predicate Paired(s: Run) {
    match s.control
    case InChain(_, working) => s.ctx.messages <= working && Grouped(working[|s.ctx.messages|..])
    case InScatter(_, bs) => forall i | 0 <= i < |bs| :: Paired(bs[i])
    case _ => true
  }

  lemma {:induction false} LoopGrows(stored: seq<ChatMessage>, working: seq<ChatMessage>, group: seq<ChatMessage>)
    requires stored <= working && Grouped(working[|stored|..]) && IsGroup(group)
    ensures stored <= working + group && Grouped((working + group)[|stored|..])
  {
    GroupedSnoc(working[|stored|..], group);
    assert (working + group)[|stored|..] == working[|stored|..] + group;
  }

  lemma {:induction false} ChainKeepsPaired(s: Run, env: Env, id: string, working: seq<ChatMessage>)
    requires s.ctx.messages <= working && Grouped(working[|s.ctx.messages|..])
    ensures Paired(ChainStep(s, env, id, working))
  {
    var agent := AgentOf(s.graph, id);
    var answer := Ask(s, env, id, working);
    if answer.Some? && answer.value.toolCalls != [] {
      TurnIsGroup(env, s.clock, agent, answer.value);
      LoopGrows(s.ctx.messages, working, TurnMessages(env, s.clock, agent, answer.value));
    }
  }

  lemma {:induction false} AdvanceKeepsPaired(s: Run, env: Env)
    requires Paired(s)
    ensures Paired(Advance(s, env))
  {
    if s.control.InChain? {
      ChainKeepsPaired(s, env, s.control.id, s.control.working);
    }
  }

  lemma {:induction false} NextKeepsPaired(s: Run, m: Move)
    requires Paired(s)
    ensures Paired(Next(s, m))
    decreases |m.path|
  {
    if m.path == [] {
      AdvanceKeepsPaired(s, if m.cancelled.Some? then m.cancelled.value else s.env);
    } else if s.control.InScatter? && m.path[0] < |s.control.branches| {
      var (i, bs) := (m.path[0], s.control.branches);
      assert Paired(bs[i]);
      NextKeepsPaired(bs[i], m.(path := m.path[1..]));
    }
  }

  /** Whatever the tools do and in whatever order branches step, every tool loop pairs calls and results. */
  lemma {:induction false} ToolLoopsArePaired(s: Run, moves: seq<Move>)
    requires Paired(s)
    ensures Paired(Play(s, moves))
    decreases |moves|
  {
    if moves != [] {
      NextKeepsPaired(s, moves[0]);
      ToolLoopsArePaired(Next(s, moves[0]), moves[1..]);
    }
  }

  // ---- One commit per chain ----

  /** Transforms and merges keep the stored messages, and factories use subgraphs that are `good`. */
  ghost predicate KeepsMessages(g: Graph, good: Graph -> bool) {
    && (forall e | e in g.edges && e.transform.Some? :: forall c: Ctx :: e.transform.value(c).messages == c.messages)
    && (forall id | id in g.scatter :: forall c: Ctx, cs: seq<Ctx> :: g.scatter[id].merge(c, cs).messages == c.messages)
    && (forall id | id in g.scatter :: ScatterUses(g.scatter[id], good))
  }

  ghost predicate ScatterUses(sc: ScatterConfig, good: Graph -> bool) {
    forall c: Ctx :: forall i | 0 <= i < |sc.factory(c)| :: good(sc.factory(c)[i].graph)
  }

  ghost predicate AllKeepMessages(good: Graph -> bool) {
    forall g | good(g) :: KeepsMessages(g, good)
  }

  /** The outputs of the chain nodes among those executed. */
  function ChainTexts(g: Graph, executed: seq<string>, said: seq<string>): seq<string>
    requires |said| == |executed|
  {
    if executed == [] then []
    else
      var n := |executed| - 1;
      ChainTexts(g, executed[..n], said[..n])
      + if executed[n] in g.nodes && g.nodes[executed[n]].kind.Chain? then [said[n]] else []
  }

  /** An assistant message with this text and no calls. */
  predicate IsSaid(m: ChatMessage, text: string) {
    m.role == Assistant && m.content == Str(text) && m.toolCalls == [] && m.toolCallId == "" && m.name == ""
  }

  /** `msgs` is `before` and then one assistant message for each text. */
  ghost predicate Says(msgs: seq<ChatMessage>, before: seq<ChatMessage>, texts: seq<string>) {
    && before <= msgs && |msgs| == |before| + |texts|
    && forall i | 0 <= i < |texts| :: IsSaid(msgs[|before| + i], texts[i])
  }

  /** The history is the initial one and the output of each chain node executed so far. */
  ghost predicate Commits(g: Graph, executed: seq<string>, said: seq<string>, msgs: seq<ChatMessage>, before: seq<ChatMessage>) {
    |said| == |executed| && Says(msgs, before, ChainTexts(g, executed, said))
  }

  /** So it is for the run, and for all branches at every depth, each from the messages that the factory gave it. */
  ghost predicate Committed(s: Run, before: seq<ChatMessage>, good: Graph -> bool)
    decreases s
  {
    && good(s.graph) && Commits(s.graph, s.executed, s.said, s.ctx.messages, before)
    && match s.control
       case InChain(id, _) => id in s.graph.nodes && s.graph.nodes[id].kind.Chain?
       case InScatter(id, bs) =>
         && id in s.graph.nodes && s.graph.nodes[id].kind.Scatter? && id in s.graph.scatter
         && var given := s.graph.scatter[id].factory(s.ctx);
            |bs| == |given| && forall i | 0 <= i < |bs| :: Committed(bs[i], given[i].ctx.messages, good)
       case _ => true
  }

  lemma {:induction false} LeaveCommits(s: Run, id: string, output: string, before: seq<ChatMessage>, good: Graph -> bool)
    requires AllKeepMessages(good) && good(s.graph) && id in s.graph.nodes
    requires Commits(s.graph, s.executed + [id], s.said + [output], s.ctx.messages, before)
    ensures Committed(Leave(s, id, output), before, good)
  {
    assert KeepsMessages(s.graph, good);
  }

  lemma {:induction false} ChainTextsSnoc(g: Graph, executed: seq<string>, said: seq<string>, id: string, output: string)
    requires |said| == |executed|
    ensures ChainTexts(g, executed + [id], said + [output])
            == ChainTexts(g, executed, said) + if id in g.nodes && g.nodes[id].kind.Chain? then [output] else []
  {
    assert (executed + [id])[..|executed|] == executed && (said + [output])[..|said|] == said;
  }

  /** Executing one more node that is not a chain, and has stored nothing. */
  lemma {:induction false} NoCommit(s: Run, id: string, output: string, before: seq<ChatMessage>)
    requires Commits(s.graph, s.executed, s.said, s.ctx.messages, before)
    requires id in s.graph.nodes && !s.graph.nodes[id].kind.Chain?
    ensures Commits(s.graph, s.executed + [id], s.said + [output], s.ctx.messages, before)
  {
    var texts := ChainTexts(s.graph, s.executed, s.said);
    ChainTextsSnoc(s.graph, s.executed, s.said, id, output);
    assert texts + [] == texts;
  }

  lemma {:induction false} OneCommit(s: Run, id: string, output: string, before: seq<ChatMessage>, msg: ChatMessage)
    requires Commits(s.graph, s.executed, s.said, s.ctx.messages, before)
    requires id in s.graph.nodes && s.graph.nodes[id].kind.Chain? && IsSaid(msg, output)
    ensures Commits(s.graph, s.executed + [id], s.said + [output], s.ctx.messages + [msg], before)
  {
    ChainTextsSnoc(s.graph, s.executed, s.said, id, output);
    SaysMore(s.ctx.messages, before, ChainTexts(s.graph, s.executed, s.said), msg, output);
  }

  lemma {:induction false} SaysMore(msgs: seq<ChatMessage>, before: seq<ChatMessage>, texts: seq<string>,
                                    msg: ChatMessage, text: string)
    requires Says(msgs, before, texts) && IsSaid(msg, text)
    ensures Says(msgs + [msg], before, texts + [text])
  {
  }

  /** One turn fails, goes on, or commits one message and leaves the node. */
  lemma {:induction false} TurnCases(s: Run, env: Env, id: string, working: seq<ChatMessage>)
    returns (t: Run, msg: ChatMessage, output: string)
    ensures var u := ChainStep(s, env, id, working);
            || u == Fail(s)
            || (u.control.InChain? && u.control.id == id && u == s.(clock := u.clock, control := u.control))
            || (u == Leave(t, id, output) && t.graph == s.graph && t.executed == s.executed && t.said == s.said
                && t.ctx.messages == s.ctx.messages + [msg] && IsSaid(msg, output))
  {
    t, msg, output := s, ChatMessage(Assistant, Nil, "", [], "", ""), "";
    var answer := Ask(s, env, id, working);
    if answer.Some? {
      msg := FinalMessage(AgentOf(s.graph, id), answer.value);
      output := answer.value.content;
      t := s.(clock := s.clock + 1, ctx := s.ctx.(messages := s.ctx.messages + [msg]));
    }
  }

  lemma {:induction false} ChainCommits(s: Run, env: Env, before: seq<ChatMessage>, good: Graph -> bool)
    requires AllKeepMessages(good) && Committed(s, before, good) && s.control.InChain?
    ensures Committed(Advance(s, env), before, good)
  {
    var id := s.control.id;
    var t, msg, output := TurnCases(s, env, id, s.control.working);
    var u := ChainStep(s, env, id, s.control.working);
    if u.control.InChain? || u == Fail(s) {
      assert Committed(u, before, good);
    } else {
      OneCommit(s, id, output, before, msg);
      LeaveCommits(t, id, output, before, good);
    }
  }

  lemma {:induction false} JoinCommits(s: Run, before: seq<ChatMessage>, good: Graph -> bool)
    requires AllKeepMessages(good) && Committed(s, before, good) && s.control.InScatter?
    ensures Committed(Join(s, s.control.id, s.control.branches), before, good)
  {
    var id, bs := s.control.id, s.control.branches;
    assert KeepsMessages(s.graph, good);
    NoCommit(s, id, "", before);
    LeaveCommits(s.(ctx := s.graph.scatter[id].merge(s.ctx, Contexts(bs))), id, "", before, good);
  }

  lemma {:induction false} RouteCommits(s: Run, env: Env, id: string, before: seq<ChatMessage>, good: Graph -> bool)
    requires AllKeepMessages(good) && Committed(s, before, good)
    requires id in s.graph.nodes && s.graph.nodes[id].kind.Route?
    ensures Committed(RouteStep(s, env, id), before, good)
  {
    var answer := Ask(s, env, id, s.ctx.messages);
    if answer.Some? {
      var output := TrimSpace(env.upper(answer.value.content));
      NoCommit(s, id, output, before);
      LeaveCommits(s.(clock := s.clock + 1), id, output, before, good);
    }
  }

  lemma {:induction false} ScatterCommits(s: Run, id: string, before: seq<ChatMessage>, good: Graph -> bool)
    requires AllKeepMessages(good) && Committed(s, before, good)
    requires id in s.graph.nodes && s.graph.nodes[id].kind.Scatter?
    ensures Committed(ScatterStep(s, id), before, good)
  {
    NoCommit(s, id, "", before);
    LeaveCommits(s, id, "", before, good);
    if id in s.graph.scatter {
      var bs := s.graph.scatter[id].factory(s.ctx);
      assert KeepsMessages(s.graph, good) && ScatterUses(s.graph.scatter[id], good);
      forall i | 0 <= i < |bs| ensures Committed(StartBranches(bs)[i], bs[i].ctx.messages, good) {
        assert good(bs[i].graph);
      }
    }
  }

  lemma {:induction false} NodeCommits(s: Run, env: Env, id: string, before: seq<ChatMessage>, good: Graph -> bool)
    requires AllKeepMessages(good) && Committed(s, before, good) && s.control == AtNode(id)
    ensures Committed(Advance(s, env), before, good)
  {
    if id in s.graph.nodes {
      match s.graph.nodes[id].kind
      case Route => RouteCommits(s, env, id, before, good);
      case Scatter => ScatterCommits(s, id, before, good);
      case _ =>
    }
  }

  lemma {:induction false} NextCommits(s: Run, m: Move, before: seq<ChatMessage>, good: Graph -> bool)
    requires AllKeepMessages(good) && Committed(s, before, good)
    ensures Committed(Next(s, m), before, good)
    decreases |m.path|
  {
    if m.path == [] {
      var env := if m.cancelled.Some? then m.cancelled.value else s.env;
      match s.control
      case Halted(_) =>
      case InChain(_, _) => ChainCommits(s, env, before, good);
      case InScatter(_, _) => JoinCommits(s, before, good);
      case AtNode(id) => NodeCommits(s, env, id, before, good);
    } else if s.control.InScatter? && m.path[0] < |s.control.branches| {
      var i := m.path[0];
      var given := s.graph.scatter[s.control.id].factory(s.ctx)[i];
      NextCommits(s.control.branches[i], m.(path := m.path[1..]), given.ctx.messages, good);
    }
  }

  lemma {:induction false} GraphStays(s: Run, m: Move)
    ensures Next(s, m).graph == s.graph && Next(s, m).env == s.env
  {
  }

  /**
   Every completed chain node, of the run and of every branch at every depth, has committed exactly one
   message, with its output as text; routes, scatters and failed chains none.
   */
  lemma {:induction false} ChainsCommitOnce(s: Run, moves: seq<Move>, before: seq<ChatMessage>, good: Graph -> bool)
    requires AllKeepMessages(good) && Committed(s, before, good)
    ensures Committed(Play(s, moves), before, good)
    decreases |moves|
  {
    if moves != [] {
      NextCommits(s, moves[0], before, good);
      ChainsCommitOnce(Next(s, moves[0]), moves[1..], before, good);
    }
  }
}
