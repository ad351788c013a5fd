/**
 Which nodes a run executes (agent/internal/agent/executor.go:19-85). If every edge descends in some
 rank then no node is executed twice, the executed nodes are a walk along first matching edges from the
 entry, and there is an output for exactly the executed nodes.
 */
module GraphOrder {
  import opened Text
  import opened AgentTypes
  import opened GraphRun
  import opened GraphSafety

  ghost predicate Descends(g: Graph, rank: string -> nat) {
    forall e | e in g.edges :: rank(e.to) < rank(e.from)
  }

  ghost predicate KeepsOutputs(g: Graph) {
    && (forall e | e in g.edges && e.transform.Some? :: forall c: Ctx :: e.transform.value(c).outputs == c.outputs)
    && (forall id | id in g.scatter :: forall c: Ctx, cs: seq<Ctx> :: g.scatter[id].merge(c, cs).outputs == c.outputs)
  }

  function Current(s: Run): seq<string> {
    if s.control.Halted? then [] else [s.control.id]
  }

  /** The completed nodes, and then the node being executed, if any. */
  function Trail(s: Run): seq<string> {
    s.executed + Current(s)
  }

  /** With the output recorded for `from`, the first matching edge leads to `to`. */
  predicate Taken(g: Graph, outputs: map<string, string>, from: string, to: string) {
    from in outputs
    && var e := FirstEdge(g.edges, from, outputs[from]); e.Some? && e.value.to == to
  }

  ghost predicate Walk(g: Graph, outputs: map<string, string>, trail: seq<string>) {
    && (trail != [] ==> trail[0] == g.entry)
    && forall i | 0 <= i < |trail| - 1 :: Taken(g, outputs, trail[i], trail[i + 1])
  }

  ghost predicate Descending(rank: string -> nat, trail: seq<string>) {
    forall i, j | 0 <= i < j < |trail| :: rank(trail[j]) < rank(trail[i])
  }

  ghost predicate Recorded(outputs: map<string, string>, executed: seq<string>, before: set<string>) {
    forall id :: id in outputs <==> (id in before || id in executed)
  }

  /** The recorded outputs are those of the executed nodes. */
  ghost predicate RecordedAs(outputs: map<string, string>, executed: seq<string>, said: seq<string>) {
    |said| == |executed| && forall i | 0 <= i < |executed| :: executed[i] in outputs && outputs[executed[i]] == said[i]
  }

  ghost predicate Ordered(s: Run, rank: string -> nat, before: set<string>) {
    && Walk(s.graph, s.ctx.outputs, Trail(s)) && Descending(rank, Trail(s))
    && Recorded(s.ctx.outputs, s.executed, before) && RecordedAs(s.ctx.outputs, s.executed, s.said)
    && (s.executed == [] && !s.control.Halted? ==> s.control.id == s.graph.entry)
    && (s.control.InScatter? ==> s.control.id in s.graph.scatter)
  }

  // ---- Completing a node ----

  lemma {:induction false} WalkGrows(g: Graph, outputs: map<string, string>, trail: seq<string>, output: string,
                                     next: seq<string>, rank: string -> nat)
    requires trail != [] && Walk(g, outputs, trail) && Descending(rank, trail) && Descends(g, rank)
    requires |next| <= 1
    requires var id := trail[|trail| - 1]; next != [] ==> Taken(g, outputs[id := output], id, next[0])
    ensures Walk(g, outputs[trail[|trail| - 1] := output], trail + next) && Descending(rank, trail + next)
  {
    var n := |trail| - 1;
    var id, all := trail[n], trail + next;
    var later := outputs[id := output];
    forall i | 0 <= i < |all| - 1 ensures Taken(g, later, all[i], all[i + 1]) {
      if i < n {
        assert Taken(g, outputs, trail[i], trail[i + 1]);
        assert rank(trail[n]) < rank(trail[i]);
      }
    }
    forall i, j | 0 <= i < j < |all| ensures rank(all[j]) < rank(all[i]) {
      if j == n + 1 {
        var e := FirstEdge(g.edges, id, output);
        assert e.value in g.edges;
        if i < n {
          assert rank(trail[n]) < rank(trail[i]);
        }
      }
    }
  }

  lemma {:induction false} RecordedSnoc(outputs: map<string, string>, executed: seq<string>, before: set<string>,
                                        id: string, output: string)
    requires Recorded(outputs, executed, before)
    ensures Recorded(outputs[id := output], executed + [id], before)
  {
  }

  lemma {:induction false} RecordedAsSnoc(outputs: map<string, string>, executed: seq<string>, said: seq<string>,
                                          id: string, output: string, rank: string -> nat)
    requires RecordedAs(outputs, executed, said) && Descending(rank, executed + [id])
    ensures RecordedAs(outputs[id := output], executed + [id], said + [output])
  {
    var all := executed + [id];
    forall i | 0 <= i < |executed| ensures executed[i] != id {
      assert rank(all[|executed|]) < rank(all[i]);
    }
  }

  /** `t` completes node `id` from `s`; what else the step did to the context left the outputs alone. */
  lemma {:induction false} LeaveOrdered(s: Run, t: Run, id: string, output: string, rank: string -> nat, before: set<string>)
    requires KeepsOutputs(s.graph) && Descends(s.graph, rank) && Ordered(s, rank, before)
    requires !s.control.Halted? && s.control.id == id
    requires t.graph == s.graph && t.executed == s.executed && t.said == s.said && t.ctx.outputs == s.ctx.outputs
    ensures Ordered(Leave(t, id, output), rank, before)
  {
    var u := Leave(t, id, output);
    assert Trail(s) == s.executed + [id];
    assert u.ctx.outputs == s.ctx.outputs[id := output];
    assert Trail(u) == Trail(s) + Current(u);
    WalkGrows(s.graph, s.ctx.outputs, Trail(s), output, Current(u), rank);
    RecordedSnoc(s.ctx.outputs, s.executed, before, id, output);
    RecordedAsSnoc(s.ctx.outputs, s.executed, s.said, id, output, rank);
  }

  /** A step that completes nothing. */
  lemma {:induction false} StayOrdered(s: Run, t: Run, rank: string -> nat, before: set<string>)
    requires Ordered(s, rank, before) && !s.control.Halted?
    requires t.graph == s.graph && t.executed == s.executed && t.said == s.said && t.ctx.outputs == s.ctx.outputs
    requires t.control.Halted? || t.control.id == s.control.id
    requires t.control.InScatter? ==> t.control.id in s.graph.scatter
    ensures Ordered(t, rank, before)
  {
    if t.control.Halted? {
      assert Trail(t) == s.executed;
      assert forall i | 0 <= i < |s.executed| :: Trail(s)[i] == s.executed[i];
      assert forall i | 0 <= i < |s.executed| - 1 :: Taken(s.graph, s.ctx.outputs, Trail(s)[i], Trail(s)[i + 1]);
    } else {
      assert Trail(t) == Trail(s);
    }
  }

  // ---- Every step ----

  lemma {:induction false} RouteOrdered(s: Run, env: Env, rank: string -> nat, before: set<string>)
    requires KeepsOutputs(s.graph) && Descends(s.graph, rank) && Ordered(s, rank, before) && s.control.AtNode?
    ensures Ordered(RouteStep(s, env, s.control.id), rank, before)
  {
    var answer := Ask(s, env, s.control.id, s.ctx.messages);
    if answer.Some? {
      LeaveOrdered(s, s.(clock := s.clock + 1), s.control.id, TrimSpace(env.upper(answer.value.content)), rank, before);
    } else {
      StayOrdered(s, Fail(s), rank, before);
    }
  }

  lemma {:induction false} ChainOrdered(s: Run, env: Env, rank: string -> nat, before: set<string>)
    requires KeepsOutputs(s.graph) && Descends(s.graph, rank) && Ordered(s, rank, before) && s.control.InChain?
    ensures Ordered(ChainStep(s, env, s.control.id, s.control.working), rank, before)
  {
    var id, working := s.control.id, s.control.working;
    var answer := Ask(s, env, id, working);
    if answer.Some? && answer.value.toolCalls == [] {
      var r := answer.value;
      var msgs := s.ctx.messages + [FinalMessage(AgentOf(s.graph, id), r)];
      LeaveOrdered(s, s.(clock := s.clock + 1, ctx := s.ctx.(messages := msgs)), id, r.content, rank, before);
    } else {
      StayOrdered(s, ChainStep(s, env, id, working), rank, before);
    }
  }

  lemma {:induction false} ScatterOrdered(s: Run, rank: string -> nat, before: set<string>)
    requires KeepsOutputs(s.graph) && Descends(s.graph, rank) && Ordered(s, rank, before) && s.control.AtNode?
    ensures Ordered(ScatterStep(s, s.control.id), rank, before)
  {
    var id := s.control.id;
    if id in s.graph.scatter && s.graph.scatter[id].factory(s.ctx) == [] {
      LeaveOrdered(s, s, id, "", rank, before);
    } else {
      StayOrdered(s, ScatterStep(s, id), rank, before);
    }
  }

  lemma {:induction false} JoinOrdered(s: Run, rank: string -> nat, before: set<string>)
    requires KeepsOutputs(s.graph) && Descends(s.graph, rank) && Ordered(s, rank, before) && s.control.InScatter?
    ensures Ordered(Join(s, s.control.id, s.control.branches), rank, before)
  {
    var id, bs := s.control.id, s.control.branches;
    if AnyFailed(bs) {
      StayOrdered(s, Fail(s), rank, before);
    } else {
      LeaveOrdered(s, s.(ctx := s.graph.scatter[id].merge(s.ctx, Contexts(bs))), id, "", rank, before);
    }
  }

  lemma {:induction false} NodeOrdered(s: Run, env: Env, id: string, rank: string -> nat, before: set<string>)
    requires KeepsOutputs(s.graph) && Descends(s.graph, rank) && Ordered(s, rank, before) && s.control == AtNode(id)
    ensures Ordered(Advance(s, env), rank, before)
  {
    if id in s.graph.nodes && s.graph.nodes[id].kind.Route? {
      RouteOrdered(s, env, rank, before);
    } else if id in s.graph.nodes && s.graph.nodes[id].kind.Scatter? {
      ScatterOrdered(s, rank, before);
    } else {
      StayOrdered(s, Advance(s, env), rank, before);
    }
  }

  lemma {:induction false} AdvanceOrdered(s: Run, env: Env, rank: string -> nat, before: set<string>)
    requires KeepsOutputs(s.graph) && Descends(s.graph, rank) && Ordered(s, rank, before)
    ensures Ordered(Advance(s, env), rank, before)
  {
    match s.control
    case Halted(_) =>
    case InChain(_, _) => ChainOrdered(s, env, rank, before);
    case InScatter(_, _) => JoinOrdered(s, rank, before);
    case AtNode(id) => NodeOrdered(s, env, id, rank, before);
  }

  lemma {:induction false} NextOrdered(s: Run, m: Move, rank: string -> nat, before: set<string>)
    requires KeepsOutputs(s.graph) && Descends(s.graph, rank) && Ordered(s, rank, before)
    ensures Ordered(Next(s, m), rank, before)
  {
    if m.path == [] {
      AdvanceOrdered(s, if m.cancelled.Some? then m.cancelled.value else s.env, rank, before);
    } else if s.control.InScatter? {
      StayOrdered(s, Next(s, m), rank, before);
    }
  }

  lemma {:induction false} PlayOrdered(s: Run, moves: seq<Move>, rank: string -> nat, before: set<string>)
    requires KeepsOutputs(s.graph) && Descends(s.graph, rank) && Ordered(s, rank, before)
    ensures Ordered(Play(s, moves), rank, before) && Play(s, moves).graph == s.graph
    decreases |moves|
  {
    if moves != [] {
      NextOrdered(s, moves[0], rank, before);
      GraphStays(s, moves[0]);
      PlayOrdered(Next(s, moves[0]), moves[1..], rank, before);
    }
  }

  lemma {:induction false} DescendingIsShort(rank: string -> nat, trail: seq<string>)
    requires Descending(rank, trail) && trail != []
    ensures |trail| <= rank(trail[0]) + 1
    decreases |trail|
  {
    if |trail| > 1 {
      var tail := trail[1..];
      assert forall i | 0 <= i < |tail| :: tail[i] == trail[i + 1];
      assert rank(trail[1]) < rank(trail[0]);
      DescendingIsShort(rank, tail);
    }
  }

  lemma {:induction false} TrailIsShort(t: Run, rank: string -> nat, before: set<string>)
    requires Ordered(t, rank, before)
    ensures forall i, j | 0 <= i < j < |Trail(t)| :: Trail(t)[i] != Trail(t)[j]
    ensures |Trail(t)| <= rank(t.graph.entry) + 1
  {
    var trail := Trail(t);
    if trail != [] {
      DescendingIsShort(rank, trail);
    }
  }

  /**
   Whatever the model answers and in whatever order branches step: no node is entered twice, counting the
   one being executed, there are at most rank(entry) + 1 of them, each follows the first matching edge for
   the recorded output of the one before, and outputs are recorded for exactly the executed nodes.
   */
  lemma {:induction false} NoNodeTwice(g: Graph, env: Env, ctx: Ctx, moves: seq<Move>, rank: string -> nat)
    requires KeepsOutputs(g) && Descends(g, rank)
    ensures var t := Play(Start(g, env, ctx), moves);
            && (forall i, j | 0 <= i < j < |Trail(t)| :: Trail(t)[i] != Trail(t)[j])
            && |Trail(t)| <= rank(g.entry) + 1
            && Walk(g, t.ctx.outputs, Trail(t))
            && Recorded(t.ctx.outputs, t.executed, ctx.outputs.Keys) && RecordedAs(t.ctx.outputs, t.executed, t.said)
  {
    var s := Start(g, env, ctx);
    PlayOrdered(s, moves, rank, ctx.outputs.Keys);
    TrailIsShort(Play(s, moves), rank, ctx.outputs.Keys);
  }
}
