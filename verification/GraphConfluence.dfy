/**
 Every complete execution of a graph ends in the same state, whatever the order in which the branches
 of its scatter nodes take their steps (agent/internal/agent/executor.go:177-214).
 */
module GraphConfluence {
  import opened Text
  import opened AgentTypes
  import opened GraphRun
  import opened GraphReach

  // ---- A reference without schedules: every branch runs to its end on its own ----

  ghost predicate SomeFailed(ends: seq<Option<Run>>) {
    exists i | 0 <= i < |ends| :: ends[i].Some? && Failed(ends[i].value)
  }

  ghost predicate AllEnded(ends: seq<Option<Run>>) {
    forall i | 0 <= i < |ends| :: ends[i].Some?
  }

  ghost function Values(ends: seq<Option<Run>>): seq<Run>
    requires AllEnded(ends)
  {
    seq(|ends|, i requires 0 <= i < |ends| => ends[i].value)
  }

  ghost function Eval(s: Run, fuel: nat): Option<Run>
    decreases fuel, 0
  {
    if fuel == 0 then None
    else match s.control
      case Halted(_) => Some(s)
      case InScatter(id, bs) => EvalScatter(s, id, Ends(bs, fuel - 1), fuel - 1)
      case _ => EvalNext(s, fuel - 1)
  }

  ghost function EvalNext(s: Run, fuel: nat): Option<Run>
    decreases fuel, 1
  {
    Eval(Advance(s, s.env), fuel)
  }

  ghost function EvalScatter(s: Run, id: string, ends: seq<Option<Run>>, fuel: nat): Option<Run>
    decreases fuel, 1
  {
    if SomeFailed(ends) then Some(Fail(s))
    else if AllEnded(ends) then Eval(Merged(s, id, Values(ends)), fuel)
    else None
  }

  ghost function Ends(bs: seq<Run>, fuel: nat): (ends: seq<Option<Run>>)
    ensures |ends| == |bs| && forall i | 0 <= i < |bs| :: ends[i] == Eval(bs[i], fuel)
    decreases fuel, 1
  {
    seq(|bs|, i requires 0 <= i < |bs| => Eval(bs[i], fuel))
  }

  // ---- The reference result does not depend on the fuel ----

  /** What is known stays known. */
  ghost predicate Refines(a: seq<Option<Run>>, b: seq<Option<Run>>) {
    |a| == |b| && forall i | 0 <= i < |a| :: a[i].Some? ==> b[i] == a[i]
  }

  lemma {:induction false} RefinedScatter(s: Run, id: string, a: seq<Option<Run>>, b: seq<Option<Run>>, fuel: nat, more: nat)
    requires Refines(a, b)
    requires EvalScatter(s, id, a, fuel).Some?
    requires !SomeFailed(a) && AllEnded(a) ==> Eval(Merged(s, id, Values(a)), more) == Eval(Merged(s, id, Values(a)), fuel)
    ensures EvalScatter(s, id, b, more) == EvalScatter(s, id, a, fuel)
  {
    if SomeFailed(a) {
      var i :| 0 <= i < |a| && a[i].Some? && Failed(a[i].value);
      assert b[i] == a[i];
    } else {
      assert a == b;
    }
  }

  lemma {:induction false} MoreFuel(s: Run, fuel: nat, more: nat)
    requires fuel <= more && Eval(s, fuel).Some?
    ensures Eval(s, more) == Eval(s, fuel)
    decreases fuel, 1
  {
    if s.control.InScatter? {
      MoreFuelScatter(s, s.control.id, s.control.branches, fuel, more);
    } else if !s.control.Halted? {
      var next := OwnStep(s, fuel, more);
      MoreFuel(next, fuel - 1, more - 1);
    }
  }

  lemma {:induction false} OwnStep(s: Run, fuel: nat, more: nat) returns (next: Run)
    requires 0 < fuel && 0 < more && !s.control.Halted? && !s.control.InScatter?
    ensures Eval(s, fuel) == Eval(next, fuel - 1) && Eval(s, more) == Eval(next, more - 1)
  {
    next := Advance(s, s.env);
  }

  lemma {:induction false} MoreFuelScatter(s: Run, id: string, bs: seq<Run>, fuel: nat, more: nat)
    requires 0 < fuel <= more && EvalScatter(s, id, Ends(bs, fuel - 1), fuel - 1).Some?
    ensures EvalScatter(s, id, Ends(bs, more - 1), more - 1) == EvalScatter(s, id, Ends(bs, fuel - 1), fuel - 1)
    decreases fuel, 0
  {
    var a, b := Ends(bs, fuel - 1), Ends(bs, more - 1);
    forall i | 0 <= i < |bs| ensures a[i].Some? ==> b[i] == a[i] {
      if a[i].Some? {
        MoreFuel(bs[i], fuel - 1, more - 1);
      }
    }
    if !SomeFailed(a) {
      MoreFuel(Merged(s, id, Values(a)), fuel - 1, more - 1);
    }
    RefinedScatter(s, id, a, b, fuel - 1, more - 1);
  }

  // ---- No step of a schedule changes it ----

  /** What a scatter leaves behind does not depend on where its branches are. */
  lemma {:induction false} SameScatter(s: Run, t: Run, id: string, ends: seq<Option<Run>>, fuel: nat)
    requires t == s.(control := t.control)
    ensures EvalScatter(s, id, ends, fuel) == EvalScatter(t, id, ends, fuel)
  {
    assert Fail(s) == Fail(t);
    if AllEnded(ends) {
      assert Merged(s, id, Values(ends)) == Merged(t, id, Values(ends));
    }
  }

  /** A step inside branch `i`, seen by the parent. */
  lemma {:induction false} BranchStep(s: Run, t: Run, bs: seq<Run>, i: nat, b: Run, fuel: nat)
    requires s.control.InScatter? && s.control.branches == bs && i < |bs|
    requires t == s.(control := InScatter(s.control.id, bs[i := b]))
    requires Eval(b, fuel).Some? ==> Eval(bs[i], fuel + 1) == Eval(b, fuel)
    requires Eval(t, fuel + 1).Some?
    ensures Eval(s, fuel + 2) == Eval(t, fuel + 1)
  {
    var id := s.control.id;
    var a, c := Ends(bs[i := b], fuel), Ends(bs, fuel + 1);
    forall j | 0 <= j < |bs| ensures a[j].Some? ==> c[j] == a[j] {
      if a[j].Some? && j != i {
        MoreFuel(bs[j], fuel, fuel + 1);
      }
    }
    SameScatter(s, t, id, a, fuel);
    if !SomeFailed(a) {
      MoreFuel(Merged(s, id, Values(a)), fuel, fuel + 1);
    }
    RefinedScatter(s, id, a, c, fuel, fuel + 1);
  }

  /** If a branch has failed, the scatter fails, whatever the other branches do. */
  lemma {:induction false} FailureDecides(s: Run, fuel: nat)
    requires s.control.InScatter? && AnyFailed(s.control.branches)
    ensures Eval(s, fuel + 2) == Some(Fail(s))
  {
    var bs := s.control.branches;
    var i :| 0 <= i < |bs| && Failed(bs[i]);
    assert Ends(bs, fuel + 1)[i] == Some(bs[i]);
    assert SomeFailed(Ends(bs, fuel + 1));
  }

  lemma {:induction false} JoinStep(s: Run, fuel: nat)
    requires s.control.InScatter? && AllHalted(s.control.branches)
    requires Eval(Advance(s, s.env), fuel).Some?
    ensures Eval(s, fuel + 1) == Eval(Advance(s, s.env), fuel)
  {
    var bs := s.control.branches;
    var ends := Ends(bs, fuel);
    assert fuel > 0;
    forall i | 0 <= i < |bs| ensures ends[i] == Some(bs[i]) {
      assert bs[i].control.Halted?;
    }
    assert AllEnded(ends) && Values(ends) == bs;
    if AnyFailed(bs) {
      var i :| 0 <= i < |bs| && Failed(bs[i]);
      assert ends[i] == Some(bs[i]);
      assert Eval(s, fuel + 1) == EvalScatter(s, s.control.id, ends, fuel);
    } else {
      assert !SomeFailed(ends);
    }
  }

  /** No step that the runtime may take changes how the run ends. */
  lemma {:induction false} StepKeepsEnd(s: Run, m: Move, fuel: nat)
    requires Enabled(s, m, false) && Eval(Next(s, m), fuel).Some?
    ensures Eval(s, fuel + 1) == Eval(Next(s, m), fuel)
    decreases |m.path|
  {
    if s.control.InScatter? {
      var bs := s.control.branches;
      if m.path == [] {
        JoinStep(s, fuel);
      } else {
        var i, inner := m.path[0], m.(path := m.path[1..]);
        var t := Next(s, m);
        var b := Next(bs[i], inner);
        assert fuel > 0;
        if AnyFailed(bs) {
          FailedBranchStays(bs, i, b, inner, true);
          assert fuel > 1;
          FailureDecides(t, fuel - 2);
          FailureDecides(s, fuel - 1);
        } else {
          if fuel > 1 && Eval(b, fuel - 1).Some? {
            StepKeepsEnd(bs[i], inner, fuel - 1);
          }
          BranchStep(s, t, bs, i, b, fuel - 1);
        }
      }
    }
  }

  lemma {:induction false} FailedBranchStays(bs: seq<Run>, i: nat, b: Run, m: Move, cancel: bool)
    requires i < |bs| && AnyFailed(bs) && Enabled(bs[i], m, cancel)
    ensures AnyFailed(bs[i := b])
  {
    var j :| 0 <= j < |bs| && Failed(bs[j]);
    assert j != i;
    assert Failed(bs[i := b][j]);
  }

  lemma {:induction false} CompletionIsEval(s: Run, moves: seq<Move>)
    requires Completes(s, moves)
    ensures Eval(s, |moves| + 1) == Some(Play(s, moves))
    decreases |moves|
  {
    if moves != [] {
      CompletionIsEval(Next(s, moves[0]), moves[1..]);
      StepKeepsEnd(s, moves[0], |moves|);
    }
  }

  /** All complete executions end in the same state: same outcome, same context, same nodes executed. */
  lemma {:induction false} SchedulesAgree(s: Run, one: seq<Move>, other: seq<Move>)
    requires Completes(s, one) && Completes(s, other)
    ensures Play(s, one) == Play(s, other)
  {
    CompletionIsEval(s, one);
    CompletionIsEval(s, other);
    var fuel := if |one| > |other| then |one| + 1 else |other| + 1;
    MoreFuel(s, |one| + 1, fuel);
    MoreFuel(s, |other| + 1, fuel);
  }

  // ---- A complete execution exists ----

  /** The run, and every branch that it starts at any depth, ends on its own within `fuel`. */
  ghost predicate AllEnd(s: Run, fuel: nat)
    decreases fuel, 0
  {
    fuel > 0 && match s.control
      case Halted(_) => true
      case InScatter(id, bs) => BranchesEnd(bs, fuel - 1) && JoinEnds(s, id, Ends(bs, fuel - 1), fuel - 1)
      case _ => NextEnds(s, fuel - 1)
  }

  ghost predicate NextEnds(s: Run, fuel: nat)
    decreases fuel, 1
  {
    AllEnd(Advance(s, s.env), fuel)
  }

  ghost predicate BranchesEnd(bs: seq<Run>, fuel: nat)
    decreases fuel, 1
  {
    forall i | 0 <= i < |bs| :: AllEnd(bs[i], fuel)
  }

  ghost predicate JoinEnds(s: Run, id: string, ends: seq<Option<Run>>, fuel: nat)
    decreases fuel, 1
  {
    AllEnded(ends) && AllEnd(Join(s, id, Values(ends)), fuel)
  }

  /** If all branches end on their own then the run has a complete execution, and it ends as the reference says. */
  lemma {:induction false} ExecutionExists(s: Run, fuel: nat)
    requires AllEnd(s, fuel)
    ensures Eval(s, fuel).Some? && Eval(s, fuel).value.control.Halted? && Reaches(s, Eval(s, fuel).value)
    decreases fuel
  {
    if s.control.Halted? {
      ReachesItself(s);
    } else if s.control.InScatter? {
      var bs := s.control.branches;
      var ends := Ends(bs, fuel - 1);
      forall i | 0 <= i < |bs| ensures Reaches(bs[i], Values(ends)[i]) && Values(ends)[i].control.Halted? {
        ExecutionExists(bs[i], fuel - 1);
      }
      ReachesJoin(s, Values(ends));
      var t := Join(s, s.control.id, Values(ends));
      ExecutionExists(t, fuel - 1);
      EvalIsJoin(s, ends, fuel - 1);
      ReachesOn(s, t, Eval(t, fuel - 1).value);
    } else {
      var t := Advance(s, s.env);
      ExecutionExists(t, fuel - 1);
      ReachesAdvance(s);
      ReachesOn(s, t, Eval(t, fuel - 1).value);
    }
  }

  lemma {:induction false} EvalIsJoin(s: Run, ends: seq<Option<Run>>, fuel: nat)
    requires s.control.InScatter? && ends == Ends(s.control.branches, fuel) && AllEnded(ends)
    requires Eval(Join(s, s.control.id, Values(ends)), fuel).Some?
    ensures Eval(s, fuel + 1) == Eval(Join(s, s.control.id, Values(ends)), fuel)
  {
    var id, final := s.control.id, Values(ends);
    if AnyFailed(final) {
      var i :| 0 <= i < |final| && Failed(final[i]);
      assert ends[i] == Some(final[i]);
    } else {
      assert forall i | 0 <= i < |ends| :: ends[i] == Some(final[i]);
    }
    assert Eval(s, fuel + 1) == EvalScatter(s, id, ends, fuel);
  }

  // ---- Reaching a state ----

  ghost predicate HasEnd(s: Run, final: Run) {
    exists fuel: nat :: Eval(s, fuel) == Some(final)
  }

  /** `s` reaches `t`, and however `t` ends, `s` ends. */
  ghost predicate LeadsTo(s: Run, t: Run) {
    Reaches(s, t) && EndsLike(s, t)
  }

  ghost predicate EndsLike(s: Run, t: Run) {
    forall final | HasEnd(t, final) :: HasEnd(s, final)
  }

  lemma {:induction false} LeadsToItself(s: Run)
    ensures LeadsTo(s, s)
  {
    ReachesItself(s);
  }

  lemma {:induction false} LeadsOn(s: Run, t: Run, u: Run)
    requires LeadsTo(s, t) && LeadsTo(t, u)
    ensures LeadsTo(s, u)
  {
    ReachesOn(s, t, u);
  }

  lemma {:induction false} LeadsToNext(s: Run)
    requires !s.control.Halted? && !s.control.InScatter?
    ensures LeadsTo(s, Advance(s, s.env))
  {
    var t := Advance(s, s.env);
    ReachesAdvance(s);
    forall final | HasEnd(t, final) ensures HasEnd(s, final) {
      var fuel: nat :| Eval(t, fuel) == Some(final);
      assert Eval(s, fuel + 1) == Some(final);
    }
  }

  /** The run can end in `final`, and so it does by the reference. */
  ghost predicate EndsIn(s: Run, final: Run) {
    Reaches(s, final) && final.control.Halted? && HasEnd(s, final)
  }

  ghost predicate AllEndIn(bs: seq<Run>, ends: seq<Run>) {
    |ends| == |bs| && forall i | 0 <= i < |bs| :: EndsIn(bs[i], ends[i])
  }

  /** Fuel that is enough for all branches. */
  lemma {:induction false} CommonFuel(bs: seq<Run>, ends: seq<Run>) returns (fuel: nat)
    requires AllEndIn(bs, ends)
    ensures forall i, more: nat | 0 <= i < |bs| && fuel <= more :: Eval(bs[i], more) == Some(ends[i])
  {
    fuel := 0;
    for n := 0 to |bs|
      invariant forall i, more: nat | 0 <= i < n && fuel <= more :: Eval(bs[i], more) == Some(ends[i])
    {
      assert EndsIn(bs[n], ends[n]);
      var one: nat :| Eval(bs[n], one) == Some(ends[n]);
      forall more: nat | one <= more ensures Eval(bs[n], more) == Some(ends[n]) {
        MoreFuel(bs[n], one, more);
      }
      fuel := fuel + one;
    }
  }

  /** Branches that end on their own as `ends` lead to the join of these. */
  lemma {:induction false} LeadsToJoin(s: Run, ends: seq<Run>)
    requires s.control.InScatter? && AllEndIn(s.control.branches, ends)
    ensures LeadsTo(s, Join(s, s.control.id, ends))
  {
    var bs, t := s.control.branches, Join(s, s.control.id, ends);
    assert AllReach(bs, ends) by {
      assert forall i | 0 <= i < |bs| :: EndsIn(bs[i], ends[i]);
    }
    ReachesJoin(s, ends);
    var fuel := CommonFuel(bs, ends);
    forall final | HasEnd(t, final) ensures HasEnd(s, final) {
      var more: nat :| Eval(t, more) == Some(final);
      JoinHasEnd(s, ends, fuel + more, final, more);
    }
  }

  lemma {:induction false} JoinHasEnd(s: Run, ends: seq<Run>, fuel: nat, final: Run, more: nat)
    requires s.control.InScatter? && |ends| == |s.control.branches| && more <= fuel
    requires forall i | 0 <= i < |ends| :: Eval(s.control.branches[i], fuel) == Some(ends[i])
    requires Eval(Join(s, s.control.id, ends), more) == Some(final)
    ensures HasEnd(s, final)
  {
    var all := Ends(s.control.branches, fuel);
    assert Values(all) == ends;
    MoreFuel(Join(s, s.control.id, ends), more, fuel);
    EvalIsJoin(s, all, fuel);
    assert Eval(s, fuel + 1) == Some(final);
  }

  /** `s` can end in `final`, and no complete execution of `s` ends elsewhere. */
  ghost predicate AlwaysEndsIn(s: Run, final: Run) {
    Reaches(s, final) && final.control.Halted? && forall moves | Completes(s, moves) :: Play(s, moves) == final
  }

  lemma {:induction false} EndIsUnique(s: Run, final: Run, moves: seq<Move>)
    requires HasEnd(s, final) && Completes(s, moves)
    ensures Play(s, moves) == final
  {
    var fuel: nat :| Eval(s, fuel) == Some(final);
    CompletionIsEval(s, moves);
    MoreFuel(s, fuel, fuel + |moves| + 1);
    MoreFuel(s, |moves| + 1, fuel + |moves| + 1);
  }

  /** If `s` leads to a halted run then it can end there, and every complete execution of `s` does. */
  lemma {:induction false} AllSchedulesEnd(s: Run, final: Run)
    requires LeadsTo(s, final) && final.control.Halted?
    ensures EndsIn(s, final) && AlwaysEndsIn(s, final)
  {
    assert Eval(final, 1) == Some(final);
    assert HasEnd(s, final);
    forall moves | Completes(s, moves) ensures Play(s, moves) == final {
      EndIsUnique(s, final, moves);
    }
  }

  lemma {:induction false} LeadsToEnd(s: Run, t: Run, final: Run)
    requires LeadsTo(s, t) && LeadsTo(t, final) && final.control.Halted?
    ensures EndsIn(s, final) && AlwaysEndsIn(s, final)
  {
    LeadsOn(s, t, final);
    AllSchedulesEnd(s, final);
  }
}
