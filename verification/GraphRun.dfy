/**
 Graph execution as a protocol of steps (agent/internal/agent/executor.go:19-214). A run is one call of
 `Graph.Run`; a scatter node holds one run per branch and the branches take their steps in any order.
 A step is the code between two model calls, so a chain node takes one step per turn of its tool loop.
 */
module GraphRun {
  import opened Text
  import opened AgentTypes

  datatype Control =
    | AtNode(id: string)
    | InChain(id: string, working: seq<ChatMessage>)
    | InScatter(id: string, branches: seq<Run>)
    | Halted(ok: bool)

  /**
   `clock` counts the model calls, `executed` lists the completed nodes and `said` their outputs; these are
   not in the source.
   */
  datatype Run = Run(graph: Graph, env: Env, clock: nat, ctx: Ctx, control: Control,
                     executed: seq<string>, said: seq<string>)

  function Start(g: Graph, env: Env, ctx: Ctx): Run {
    Run(g, env, 0, ctx, AtNode(g.entry), [], [])
  }

  function StartBranches(bs: seq<Branch>): seq<Run> {
    seq(|bs|, i requires 0 <= i < |bs| => Start(bs[i].graph, bs[i].env, bs[i].ctx))
  }

  predicate Failed(s: Run) {
    s.control == Halted(false)
  }

  function Fail(s: Run): Run {
    s.(control := Halted(false))
  }

  // ---- What a step does ----

  /** The end of the loop body of `Run`: record the output, then take the first matching edge. */
  function Leave(s: Run, id: string, output: string): Run {
    var done := s.(ctx := s.ctx.(outputs := s.ctx.outputs[id := output]),
                   executed := s.executed + [id], said := s.said + [output]);
    match FirstEdge(s.graph.edges, id, output)
    case Some(e) => done.(ctx := ApplyTransform(e, done.ctx), control := AtNode(e.to))
    case None => done.(control := Halted(id in s.graph.nodes && s.graph.nodes[id].kind in {Chain, Route}))
  }

  function AgentOf(g: Graph, id: string): Agent {
    if id in g.nodes then g.nodes[id].agent else Agent([], false, 0)
  }

  function Ask(s: Run, env: Env, id: string, msgs: seq<ChatMessage>): Option<ModelResponse> {
    var agent := AgentOf(s.graph, id);
    CallModel(env, s.clock, agent, s.ctx, ApplyWindow(msgs, WindowSize(s.graph, agent)))
  }

  function RouteStep(s: Run, env: Env, id: string): Run {
    match Ask(s, env, id, s.ctx.messages)
    case None => Fail(s)
    case Some(r) => Leave(s.(clock := s.clock + 1), id, TrimSpace(env.upper(r.content)))
  }

  /** One turn of the tool loop. Only the last turn touches the context. */
  function ChainStep(s: Run, env: Env, id: string, working: seq<ChatMessage>): Run {
    var agent := AgentOf(s.graph, id);
    match Ask(s, env, id, working)
    case None => Fail(s)
    case Some(r) =>
      var next := s.(clock := s.clock + 1);
      if r.toolCalls != [] then
        next.(control := InChain(id, working + TurnMessages(env, s.clock, agent, r)))
      else
        Leave(next.(ctx := s.ctx.(messages := s.ctx.messages + [FinalMessage(agent, r)])), id, r.content)
  }

  function ScatterStep(s: Run, id: string): Run {
    if id !in s.graph.scatter then Fail(s)
    else
      var bs := s.graph.scatter[id].factory(s.ctx);
      if bs == [] then Leave(s, id, "") else s.(control := InScatter(id, StartBranches(bs)))
  }

  function Contexts(bs: seq<Run>): seq<Ctx> {
    seq(|bs|, i requires 0 <= i < |bs| => bs[i].ctx)
  }

  /** `Merge` on the branches' contexts, in branch order. */
  function Merged(s: Run, id: string, bs: seq<Run>): Run {
    if id !in s.graph.scatter then Fail(s)
    else Leave(s.(ctx := s.graph.scatter[id].merge(s.ctx, Contexts(bs))), id, "")
  }

  predicate AnyFailed(bs: seq<Run>) {
    exists i | 0 <= i < |bs| :: Failed(bs[i])
  }

  predicate AllHalted(bs: seq<Run>) {
    forall i | 0 <= i < |bs| :: bs[i].control.Halted?
  }

  /** The parent waits for all branches, and merges only if none has failed. */
  function Join(s: Run, id: string, bs: seq<Run>): Run {
    if AnyFailed(bs) then Fail(s) else Merged(s, id, bs)
  }

  function Advance(s: Run, env: Env): Run {
    match s.control
    case Halted(_) => s
    case InChain(id, working) => ChainStep(s, env, id, working)
    case InScatter(id, bs) => Join(s, id, bs)
    case AtNode(id) =>
      if id !in s.graph.nodes then Fail(s)
      else match s.graph.nodes[id].kind
        case Route => RouteStep(s, env, id)
        case Chain => s.(control := InChain(id, s.ctx.messages))
        case Scatter => ScatterStep(s, id)
        case Respond => s.(control := Halted(s.ctx.backendURL != "" && env.respond(s.ctx)))
  }

  // ---- Schedules ----

  /**
   Which run takes the next step: the one reached by these branch numbers. Once a branch has failed the
   context of the others is cancelled, and the model, the tools and the upstream may then answer them
   anything, as `cancelled` says.
   */
  datatype Move = Move(path: seq<nat>, cancelled: Option<Env>)

  predicate Enabled(s: Run, m: Move, cancel: bool)
    decreases |m.path|
  {
    match s.control
    case Halted(_) => false
    case InScatter(_, bs) =>
      if m.path == [] then AllHalted(bs) && (m.cancelled.Some? ==> cancel)
      else m.path[0] < |bs| && Enabled(bs[m.path[0]], m.(path := m.path[1..]), cancel || AnyFailed(bs))
    case _ => m.path == [] && (m.cancelled.Some? ==> cancel)
  }

  function Next(s: Run, m: Move): Run
    decreases |m.path|
  {
    if m.path == [] then
      Advance(s, if m.cancelled.Some? then m.cancelled.value else s.env)
    else if s.control.InScatter? && m.path[0] < |s.control.branches| then
      var (i, bs) := (m.path[0], s.control.branches);
      s.(control := InScatter(s.control.id, bs[i := Next(bs[i], m.(path := m.path[1..]))]))
    else s
  }

  /** The steps that the runtime may take from `s`. */
  predicate Legal(s: Run, moves: seq<Move>)
    decreases |moves|
  {
    moves == [] || (Enabled(s, moves[0], false) && Legal(Next(s, moves[0]), moves[1..]))
  }

  function Play(s: Run, moves: seq<Move>): Run
    decreases |moves|
  {
    if moves == [] then s else Play(Next(s, moves[0]), moves[1..])
  }

  /** A complete execution from `s`. */
  predicate Completes(s: Run, moves: seq<Move>) {
    Legal(s, moves) && Play(s, moves).control.Halted?
  }
}
