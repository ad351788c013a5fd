/**
 Which states a run can reach (agent/internal/agent/executor.go:177-214): branches that can end on their
 own can end inside their scatter node, one after another, and then the parent goes on.
 */
module GraphReach {
  import opened Text
  import opened AgentTypes
  import opened GraphRun

  /** Some schedule leads from `s` to `t`. */
  ghost predicate Reaches(s: Run, t: Run) {
    exists moves :: Legal(s, moves) && Play(s, moves) == t
  }

  // ---- One schedule after another ----

  lemma {:induction false} PlayOne(s: Run, m: Move)
    ensures Play(s, [m]) == Next(s, m) && (Legal(s, [m]) <==> Enabled(s, m, false))
  {
    assert [m][1..] == [];
    assert Play(Next(s, m), []) == Next(s, m);
  }

  lemma {:induction false} PlayAppend(s: Run, a: seq<Move>, b: seq<Move>)
    ensures Play(s, a + b) == Play(Play(s, a), b)
    ensures Legal(s, a + b) <==> (Legal(s, a) && Legal(Play(s, a), b))
    decreases |a|
  {
    if a == [] {
      assert a + b == b;
    } else {
      assert (a + b)[1..] == a[1..] + b;
      PlayAppend(Next(s, a[0]), a[1..], b);
    }
  }

  lemma {:induction false} ReachesItself(s: Run)
    ensures Reaches(s, s)
  {
    assert Legal(s, []) && Play(s, []) == s;
  }

  lemma {:induction false} ReachesOn(s: Run, t: Run, u: Run)
    requires Reaches(s, t) && Reaches(t, u)
    ensures Reaches(s, u)
  {
    var a :| Legal(s, a) && Play(s, a) == t;
    var b :| Legal(t, b) && Play(t, b) == u;
    PlayAppend(s, a, b);
  }

  /** The run's own step. */
  lemma {:induction false} ReachesAdvance(s: Run)
    requires Enabled(s, Move([], None), false)
    ensures Reaches(s, Advance(s, s.env))
  {
    PlayOne(s, Move([], None));
  }

  // ---- Branches ----

  /** A schedule of branch `i`, as its parent sees it. */
  function Lifted(i: nat, moves: seq<Move>): seq<Move> {
    if moves == [] then []
    else [Move([i] + moves[0].path, moves[0].cancelled)] + Lifted(i, moves[1..])
  }

  lemma {:induction false} CancelledIsEnabled(s: Run, m: Move, cancel: bool)
    requires Enabled(s, m, false)
    ensures Enabled(s, m, cancel)
    decreases |m.path|
  {
    if s.control.InScatter? && m.path != [] {
      var bs := s.control.branches;
      if !AnyFailed(bs) {
        CancelledIsEnabled(bs[m.path[0]], m.(path := m.path[1..]), cancel);
      }
    }
  }

  lemma {:induction false} LiftedMove(s: Run, i: nat, m: Move)
    requires s.control.InScatter? && i < |s.control.branches| && Enabled(s.control.branches[i], m, false)
    ensures var up := Move([i] + m.path, m.cancelled);
            && Enabled(s, up, false)
            && Next(s, up) == s.(control := InScatter(s.control.id, s.control.branches[i := Next(s.control.branches[i], m)]))
  {
    var up := Move([i] + m.path, m.cancelled);
    assert up.(path := up.path[1..]) == m;
    CancelledIsEnabled(s.control.branches[i], m, AnyFailed(s.control.branches));
  }

  lemma {:induction false} LiftedMoves(s: Run, i: nat, moves: seq<Move>)
    requires s.control.InScatter? && i < |s.control.branches| && Legal(s.control.branches[i], moves)
    ensures Legal(s, Lifted(i, moves))
    ensures Play(s, Lifted(i, moves))
            == s.(control := InScatter(s.control.id, s.control.branches[i := Play(s.control.branches[i], moves)]))
    decreases |moves|
  {
    var bs := s.control.branches;
    if moves == [] {
      assert bs[i := bs[i]] == bs;
    } else {
      LiftedMove(s, i, moves[0]);
      var next := Next(s, Lifted(i, moves)[0]);
      LiftedMoves(next, i, moves[1..]);
      assert Lifted(i, moves)[1..] == Lifted(i, moves[1..]);
      assert next.control.branches[i := Play(next.control.branches[i], moves[1..])] == bs[i := Play(bs[i], moves)];
    }
  }

  ghost predicate AllReach(bs: seq<Run>, ends: seq<Run>) {
    |ends| == |bs| && forall i | 0 <= i < |bs| :: Reaches(bs[i], ends[i]) && ends[i].control.Halted?
  }

  /** The first `n` branches have ended and the others wait. */
  lemma {:induction false} ReachesBranches(s: Run, ends: seq<Run>, n: nat)
    requires s.control.InScatter? && AllReach(s.control.branches, ends) && n <= |ends|
    ensures Reaches(s, s.(control := InScatter(s.control.id, ends[..n] + s.control.branches[n..])))
  {
    var id, bs := s.control.id, s.control.branches;
    if n == 0 {
      assert ends[..0] + bs[0..] == bs;
      ReachesItself(s);
    } else {
      var k := n - 1;
      ReachesBranches(s, ends, k);
      var t := s.(control := InScatter(id, ends[..k] + bs[k..]));
      var moves :| Legal(bs[k], moves) && Play(bs[k], moves) == ends[k];
      LiftedMoves(t, k, moves);
      assert (ends[..k] + bs[k..])[k := ends[k]] == ends[..n] + bs[n..];
      ReachesOn(s, t, s.(control := InScatter(id, ends[..n] + bs[n..])));
    }
  }

  /** If each branch can end, on its own, in `ends`, then the scatter can join these. */
  lemma {:induction false} ReachesJoin(s: Run, ends: seq<Run>)
    requires s.control.InScatter? && AllReach(s.control.branches, ends)
    ensures Reaches(s, Join(s, s.control.id, ends))
  {
    var id, n := s.control.id, |ends|;
    var t := s.(control := InScatter(id, ends));
    ReachesBranches(s, ends, n);
    assert ends[..n] + s.control.branches[n..] == ends;
    assert AllHalted(ends);
    ReachesAdvance(t);
    assert Join(t, id, ends) == Join(s, id, ends);
    ReachesOn(s, t, Join(s, id, ends));
  }
}
