/**
 What a scatter node does to its parent: `Merge` runs once, on the contexts that the branches end with
 on their own, in branch order; or, if a branch fails, not at all
 (agent/internal/agent/executor.go:179-214, history.go:97-135).
 */
module GraphScatter {
  import opened Text
  import opened AgentTypes
  import opened GraphRun
  import opened GraphReach
  import opened GraphConfluence

  predicate BranchMoves(moves: seq<Move>) {
    forall i | 0 <= i < |moves| :: moves[i].path != []
  }

  /** Branch `i` of a scatter, run to its end on its own by `solo[i]`. */
  ghost predicate SoloRuns(bs: seq<Run>, solo: seq<seq<Move>>) {
    |solo| == |bs| && forall i | 0 <= i < |bs| :: Completes(bs[i], solo[i])
  }

  ghost function SoloEnds(bs: seq<Run>, solo: seq<seq<Move>>): seq<Run>
    requires SoloRuns(bs, solo)
  {
    seq(|bs|, i requires 0 <= i < |bs| => Play(bs[i], solo[i]))
  }

  // ---- While the branches run ----

  /** What one branch step does to the ends of the branches. */
  lemma {:induction false} BranchStepKeepsEnds(bs: seq<Run>, m: Move, fuel: nat)
    requires m.path != [] && m.path[0] < |bs| && fuel > 0
    requires Enabled(bs[m.path[0]], m.(path := m.path[1..]), AnyFailed(bs))
    ensures var after := bs[m.path[0] := Next(bs[m.path[0]], m.(path := m.path[1..]))];
            && (SomeFailed(Ends(after, fuel)) ==> SomeFailed(Ends(bs, fuel + 1)))
            && (!AnyFailed(bs) ==> Refines(Ends(after, fuel), Ends(bs, fuel + 1)))
  {
    var i, inner := m.path[0], m.(path := m.path[1..]);
    var after := bs[i := Next(bs[i], inner)];
    var a, b := Ends(after, fuel), Ends(bs, fuel + 1);
    if AnyFailed(bs) {
      var k :| 0 <= k < |bs| && Failed(bs[k]);
      assert b[k] == Some(bs[k]);
    } else {
      forall j | 0 <= j < |bs| ensures a[j].Some? ==> b[j] == a[j] {
        if a[j].Some? {
          if j == i {
            StepKeepsEnd(bs[i], inner, fuel);
          } else {
            MoreFuel(bs[j], fuel, fuel + 1);
          }
        }
      }
      if SomeFailed(a) {
        var k :| 0 <= k < |bs| && a[k].Some? && Failed(a[k].value);
        assert b[k] == a[k];
      }
    }
  }

  /**
   As long as only branches step, the parent stays as it is; and when all branches have halted, either
   one fails on its own too, or each has ended as it does on its own.
   */
  lemma {:induction false} BranchesRun(s: Run, moves: seq<Move>)
    requires s.control.InScatter? && Legal(s, moves) && BranchMoves(moves)
    ensures var t := Play(s, moves);
            && t.control.InScatter? && |t.control.branches| == |s.control.branches|
            && t == s.(control := InScatter(s.control.id, t.control.branches))
            && (AllHalted(t.control.branches) ==>
                  var ends := Ends(s.control.branches, |moves| + 1);
                  if AnyFailed(t.control.branches) then SomeFailed(ends)
                  else AllEnded(ends) && Values(ends) == t.control.branches)
    decreases |moves|
  {
    var bs := s.control.branches;
    if moves == [] {
      var ends := Ends(bs, 1);
      if AllHalted(bs) {
        forall i | 0 <= i < |bs| ensures ends[i] == Some(bs[i]) {
          assert bs[i].control.Halted?;
        }
        if AnyFailed(bs) {
          var i :| 0 <= i < |bs| && Failed(bs[i]);
          assert ends[i] == Some(bs[i]);
        } else {
          assert Values(ends) == bs;
        }
      }
    } else {
      var m := moves[0];
      var next := Next(s, m);
      BranchesRun(next, moves[1..]);
      BranchesRunStep(bs, m, |moves|, Play(s, moves).control.branches);
    }
  }

  lemma {:induction false} FailureSurvives(ends: seq<Option<Run>>, k: nat)
    requires AllEnded(ends) && k < |ends| && Failed(ends[k].value)
    ensures AnyFailed(Values(ends))
  {
    assert Values(ends)[k] == ends[k].value;
  }

  lemma {:induction false} BranchesRunStep(bs: seq<Run>, m: Move, fuel: nat, final: seq<Run>)
    requires m.path != [] && m.path[0] < |bs| && fuel > 0
    requires Enabled(bs[m.path[0]], m.(path := m.path[1..]), AnyFailed(bs))
    requires var ends := Ends(bs[m.path[0] := Next(bs[m.path[0]], m.(path := m.path[1..]))], fuel);
             AllHalted(final) ==> if AnyFailed(final) then SomeFailed(ends) else AllEnded(ends) && Values(ends) == final
    ensures AllHalted(final) ==>
              var ends := Ends(bs, fuel + 1);
              if AnyFailed(final) then SomeFailed(ends) else AllEnded(ends) && Values(ends) == final
  {
    var after := bs[m.path[0] := Next(bs[m.path[0]], m.(path := m.path[1..]))];
    var a, b := Ends(after, fuel), Ends(bs, fuel + 1);
    BranchStepKeepsEnds(bs, m, fuel);
    if AllHalted(final) {
      if AnyFailed(bs) {
        var k :| 0 <= k < |bs| && Failed(bs[k]);
        assert a[k] == Some(bs[k]) by { assert after[k] == bs[k]; }
        if AllEnded(a) && Values(a) == final {
          FailureSurvives(a, k);
        }
      } else if !AnyFailed(final) {
        assert a == b;
      }
    }
  }

  // ---- The parent ----

  /** If any branch fails on its own then the scatter fails, in every order of steps, and `Merge` has no effect. */
  lemma {:induction false} FailurePreventsMerge(s: Run, moves: seq<Move>, i: nat, solo: seq<Move>)
    requires s.control.InScatter? && Completes(s, moves)
    requires i < |s.control.branches| && Completes(s.control.branches[i], solo)
    requires Failed(Play(s.control.branches[i], solo))
    ensures Play(s, moves) == Fail(s)
  {
    var bs := s.control.branches;
    var fuel := |moves| + |solo| + 1;
    CompletionIsEval(s, moves);
    CompletionIsEval(bs[i], solo);
    MoreFuel(s, |moves| + 1, fuel + 1);
    MoreFuel(bs[i], |solo| + 1, fuel);
    assert Ends(bs, fuel)[i] == Some(Play(bs[i], solo));
    assert SomeFailed(Ends(bs, fuel));
  }

  ghost predicate OnlyBranchesChanged(s: Run, t: Run) {
    t.control.InScatter? && t == s.(control := t.control)
  }

  /** The parent waits unchanged for `k` steps and is then joined with these branches. */
  ghost predicate JoinsAfter(s: Run, moves: seq<Move>, k: nat, ends: seq<Run>)
    requires s.control.InScatter?
  {
    && k < |moves|
    && (forall j: nat | j <= k :: OnlyBranchesChanged(s, Play(s, moves[..j])))
    && Play(s, moves[..k + 1]) == Merged(s, s.control.id, ends)
  }

  /** The first step of the parent itself. */
  ghost function OwnMove(moves: seq<Move>): (k: nat)
    ensures k <= |moves| && BranchMoves(moves[..k]) && (k < |moves| ==> moves[k].path == [])
  {
    if moves == [] || moves[0].path == [] then 0
    else
      var k := OwnMove(moves[1..]);
      assert forall i | 0 < i < k + 1 :: moves[i] == moves[1..][..k][i - 1];
      k + 1
  }

  lemma {:induction false} BranchesWait(s: Run, moves: seq<Move>, k: nat, j: nat)
    requires s.control.InScatter? && Legal(s, moves) && j <= k <= |moves| && BranchMoves(moves[..k])
    ensures OnlyBranchesChanged(s, Play(s, moves[..j]))
  {
    var a, b := moves[..j], moves[j..];
    assert moves == a + b;
    PlayAppend(s, a, b);
    assert a == moves[..k][..j];
    BranchesRun(s, a);
  }

  /**
   If every branch succeeds on its own then, in every order of steps, the parent waits unchanged for
   all branches and then merges once, the contexts in branch order being those of the solo runs.
   */
  lemma {:induction false} MergesOnce(s: Run, moves: seq<Move>, solo: seq<seq<Move>>) returns (k: nat)
    requires s.control.InScatter? && Completes(s, moves)
    requires SoloRuns(s.control.branches, solo) && !AnyFailed(SoloEnds(s.control.branches, solo))
    ensures JoinsAfter(s, moves, k, SoloEnds(s.control.branches, solo))
  {
    k := OwnMove(moves);
    forall j: nat | j <= k ensures OnlyBranchesChanged(s, Play(s, moves[..j])) {
      BranchesWait(s, moves, k, j);
    }
    assert k < |moves| by { assert moves[..|moves|] == moves; }
    MergeStep(s, moves, k, solo);
  }

  lemma {:induction false} MergeStep(s: Run, moves: seq<Move>, k: nat, solo: seq<seq<Move>>)
    requires s.control.InScatter? && Completes(s, moves) && k < |moves| && BranchMoves(moves[..k]) && moves[k].path == []
    requires SoloRuns(s.control.branches, solo) && !AnyFailed(SoloEnds(s.control.branches, solo))
    ensures Play(s, moves[..k + 1]) == Merged(s, s.control.id, SoloEnds(s.control.branches, solo))
  {
    var bs, ends := s.control.branches, SoloEnds(s.control.branches, solo);
    assert moves == moves[..k] + moves[k..];
    PlayAppend(s, moves[..k], moves[k..]);
    var t := Play(s, moves[..k]);
    BranchesRun(s, moves[..k]);
    EndsAreSolo(bs, moves[..k], solo, t.control.branches);
    assert moves[..k + 1] == moves[..k] + [moves[k]];
    PlayAppend(s, moves[..k], [moves[k]]);
    assert Play(s, moves[..k + 1]) == Next(t, moves[k]);
    assert Merged(s, s.control.id, ends) == Merged(t, s.control.id, ends);
  }

  /** Branches that all ended as they do on their own ended as their solo runs did. */
  lemma {:induction false} EndsAreSolo(bs: seq<Run>, moves: seq<Move>, solo: seq<seq<Move>>, final: seq<Run>)
    requires SoloRuns(bs, solo) && !AnyFailed(SoloEnds(bs, solo)) && AllHalted(final)
    requires var ends := Ends(bs, |moves| + 1);
             if AnyFailed(final) then SomeFailed(ends) else AllEnded(ends) && Values(ends) == final
    ensures final == SoloEnds(bs, solo)
  {
    var ends := Ends(bs, |moves| + 1);
    forall i | 0 <= i < |bs| ensures ends[i].Some? ==> ends[i].value == SoloEnds(bs, solo)[i] {
      if ends[i].Some? {
        CompletionIsEval(bs[i], solo[i]);
        var fuel := |moves| + |solo[i]| + 1;
        MoreFuel(bs[i], |moves| + 1, fuel);
        MoreFuel(bs[i], |solo[i]| + 1, fuel);
      }
    }
    assert !SomeFailed(ends);
  }

  // ---- Branches without a backend ----

  /** A run whose context has no backend URL fails at once, unless its entry is itself a scatter node. */
  lemma {:induction false} NoBackendFails(g: Graph, env: Env, ctx: Ctx) returns (moves: seq<Move>)
    requires ctx.backendURL == ""
    requires g.entry in g.nodes ==> !g.nodes[g.entry].kind.Scatter?
    ensures Completes(Start(g, env, ctx), moves) && Failed(Play(Start(g, env, ctx), moves))
  {
    var own := Move([], None);
    var s := Start(g, env, ctx);
    var next := Next(s, own);
    if next.control.Halted? {
      moves := [own];
      assert moves[1..] == [];
    } else {
      moves := [own, own];
      assert moves[1..] == [own] && [own][1..] == [];
      assert Failed(Next(next, own));
      PlayOne(next, own);
    }
  }

  /** No transform or merge of the graph sets an empty backend URL. */
  ghost predicate LeavesUnset(g: Graph) {
    && (forall e | e in g.edges && e.transform.Some? ::
          forall c: Ctx | c.backendURL == "" :: e.transform.value(c).backendURL == "")
    && (forall id | id in g.scatter ::
          forall c: Ctx, cs: seq<Ctx> | c.backendURL == "" :: g.scatter[id].merge(c, cs).backendURL == "")
  }

  predicate IsScatter(g: Graph, id: string) {
    id in g.nodes && g.nodes[id].kind.Scatter?
  }

  /** There is no backend URL, and none will be set before it is needed. */
  ghost predicate Hopeless(s: Run) {
    && s.ctx.backendURL == ""
    && match s.control
       case Halted(ok) => !ok
       case InChain(_, _) => true
       case AtNode(id) => IsScatter(s.graph, id) ==> LeavesUnset(s.graph)
       case InScatter(id, _) => IsScatter(s.graph, id) && LeavesUnset(s.graph)
  }

  /** A scatter node is left without a URL, or the run ends there with an error. */
  lemma {:induction false} LeaveStaysHopeless(s: Run, id: string, output: string)
    requires s.ctx.backendURL == "" && IsScatter(s.graph, id) && LeavesUnset(s.graph)
    ensures Hopeless(Leave(s, id, output))
  {
    var e := FirstEdge(s.graph.edges, id, output);
    if e.Some? && e.value.transform.Some? {
      assert e.value in s.graph.edges;
    }
  }

  lemma {:induction false} NextStaysHopeless(s: Run, m: Move)
    requires Hopeless(s)
    ensures Hopeless(Next(s, m)) && Next(s, m).graph == s.graph
  {
    if m.path == [] {
      match s.control
      case AtNode(id) =>
        if IsScatter(s.graph, id) {
          LeaveStaysHopeless(s, id, "");
        }
      case InScatter(id, bs) =>
        if id in s.graph.scatter {
          LeaveStaysHopeless(s.(ctx := s.graph.scatter[id].merge(s.ctx, Contexts(bs))), id, "");
        }
      case _ =>
    }
  }

  /**
   Without a backend URL no execution ends well, if the entry is no scatter node, or if no transform or
   merge of the graph sets the URL.
   */
  lemma {:induction false} UnsetBackendFails(s: Run, moves: seq<Move>)
    requires Hopeless(s)
    ensures Hopeless(Play(s, moves)) && (Completes(s, moves) ==> Failed(Play(s, moves)))
    decreases |moves|
  {
    if moves != [] {
      NextStaysHopeless(s, moves[0]);
      UnsetBackendFails(Next(s, moves[0]), moves[1..]);
    }
  }

  /** A branch without hope fails its scatter node, whatever the other branches do. */
  lemma {:induction false} HopelessBranchFails(s: Run, moves: seq<Move>, i: nat)
    requires s.control.InScatter? && i < |s.control.branches| && Hopeless(s.control.branches[i])
    requires Completes(s, moves)
    ensures Play(s, moves) == Fail(s)
    decreases |moves|
  {
    var bs, m := s.control.branches, moves[0];
    if m.path == [] {
      assert Failed(bs[i]);
      assert Next(s, m) == Fail(s);
      assert Legal(Fail(s), moves[1..]) && moves[1..] == [];
    } else {
      if m.path[0] == i {
        NextStaysHopeless(bs[i], m.(path := m.path[1..]));
      }
      HopelessBranchFails(Next(s, m), moves[1..], i);
    }
  }

  /**
   `DeepCopy` leaves the backend URL empty. So if the factory hands out a copy without setting it, and that
   branch starts with another kind of node than scatter or its graph leaves the URL unset, the scatter node
   fails in every order of steps, whatever the other branches do.
   */
  lemma {:induction false} CopyNeedsBackend(s: Run, moves: seq<Move>, id: string, i: nat)
    requires s.control == AtNode(id) && IsScatter(s.graph, id)
    requires id in s.graph.scatter && i < |s.graph.scatter[id].factory(s.ctx)|
    requires var b := s.graph.scatter[id].factory(s.ctx)[i];
             && b.ctx == CopyOf(s.ctx).(messages := b.ctx.messages)
             && (IsScatter(b.graph, b.graph.entry) ==> LeavesUnset(b.graph))
    requires Completes(s, moves)
    ensures Play(s, moves) == Fail(s)
  {
    HopelessBranchFails(Next(s, moves[0]), moves[1..], i);
  }

  const SCATTER_ID := "s"
  const ROUTE_ID := "r"

  /** A scatter node without branches, and then an edge that sets the URL on the way to a route node. */
  function LateURL(url: string): Graph {
    var agent := Agent([], false, 0);
    var nodes := map[SCATTER_ID := Node(Scatter, agent), ROUTE_ID := Node(Route, agent)];
    var edge := Edge(SCATTER_ID, ROUTE_ID, None, Some((c: Ctx) => c.(backendURL := url)));
    Graph(nodes, map[SCATTER_ID := ScatterConfig((c: Ctx) => [], (c: Ctx, cs: seq<Ctx>) => c)], [edge], SCATTER_ID, 0)
  }

  /** A graph that starts with a scatter node and sets the URL itself can end well. */
  lemma {:induction false} LateURLIsInTime(env: Env, ctx: Ctx, url: string, answer: ModelResponse) returns (moves: seq<Move>)
    requires ctx.backendURL == "" && url != ""
    requires forall turn, agent, c, msgs :: env.model(turn, agent, c, msgs) == Some(answer)
    ensures var s := Start(LateURL(url), env, ctx); Completes(s, moves) && !Failed(Play(s, moves))
  {
    var own := Move([], None);
    var s := Start(LateURL(url), env, ctx);
    var t := Next(s, own);
    assert s.graph.edges[1..] == [];
    assert t.control == AtNode(ROUTE_ID) && t.ctx.backendURL == url;
    assert Next(t, own).control == Halted(true);
    moves := [own, own];
    assert moves[1..] == [own];
    PlayOne(t, own);
  }

  // ---- No deadlock ----

  /** A run that has not halted can take a step. */
  lemma {:induction false} CanStep(s: Run, cancel: bool) returns (m: Move)
    requires !s.control.Halted?
    ensures Enabled(s, m, cancel)
    decreases s
  {
    if s.control.InScatter? && !AllHalted(s.control.branches) {
      var bs := s.control.branches;
      var i :| 0 <= i < |bs| && !bs[i].control.Halted?;
      var inner := CanStep(bs[i], cancel || AnyFailed(bs));
      m := Move([i] + inner.path, inner.cancelled);
      assert m.path[1..] == inner.path;
    } else {
      m := Move([], None);
    }
  }
}
