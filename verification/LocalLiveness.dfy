/** Liveness in process: without new calls every run ends, and where it cannot go on every caller has returned. */
module LocalLiveness {
  import opened Common
  import opened LocalFlight
  import opened Sums

  /** Neither a new call nor an Inject: a step of the calls already made. */
  predicate Own(a: Action) {
    !a.Enter? && !a.Inject?
  }

  predicate OwnSteps(acts: seq<Action>) {
    forall i :: 0 <= i < |acts| ==> Own(acts[i])
  }

  function Weight(f: Phase): nat {
    match f
    case Joined(_) => 1
    case Checking => 6
    case Creating => 5
    case Storing(_) => 4
    case Finished(_) => 3
    case Written => 2
    case Deleted => 1
    case Returned(_, _) => 0
  }

  function Weights(s: State): map<nat, nat> {
    map p | p in s.procs :: Weight(s.procs[p].phase)
  }

  /** A bound on the steps that are left without new calls. */
  ghost function Left(s: State): nat {
    Sum(Weights(s))
  }

  lemma PhaseDescends(s: State, t: State, p: Pid)
    requires p in s.procs && p in t.procs && t.procs == s.procs[p := t.procs[p]]
    requires Weight(t.procs[p].phase) < Weight(s.procs[p].phase)
    ensures Left(t) < Left(s)
  {
    SumUpdate(Weights(s), p, Weight(t.procs[p].phase));
    assert Weights(t) == Weights(s)[p := Weight(t.procs[p].phase)];
  }

  lemma StepDescends(s: State, a: Action)
    requires Next(s, a).Some? && Own(a)
    ensures Left(Next(s, a).value) < Left(s)
  {
    PhaseDescends(s, Next(s, a).value, a.pid);
  }

  /** A run of own steps is no longer than what was left to do. */
  lemma {:induction false} RunsEnd(s: State, acts: seq<Action>)
    requires Exec(s, acts).Some? && OwnSteps(acts)
    ensures |acts| + Left(Exec(s, acts).value) <= Left(s)
    decreases |acts|
  {
    hide Left, Own;
    if acts != [] {
      assert Own(acts[0]) && OwnSteps(acts[1..]);
      StepDescends(s, acts[0]);
      RunsEnd(Next(s, acts[0]).value, acts[1..]);
    }
  }

  predicate HasReturned(s: State, p: Pid) {
    p in s.procs && s.procs[p].phase.Returned?
  }

  /** A caller that has not returned and waits on nobody can take its next step. */
  lemma ExecutorMoves(s: State, p: Pid) returns (a: Action)
    requires Inv(s) && p in s.procs && !s.procs[p].phase.Returned? && !s.procs[p].phase.Joined?
    ensures Own(a) && Next(s, a).Some?
  {
    assert OkProc(s, p);
    match s.procs[p].phase
    case Checking => a := Check(p);
    case Creating =>
      var e: Error :| true;
      a := CreateErr(p, e);
    case Storing(_) => a := Store(p);
    case Finished(_) => a := Write(p);
    case Written => a := Delete(p);
    case Deleted => a := Signal(p);
  }

  /** A caller that has not returned can move, or the executor it waits on can. */
  lemma SomeoneMoves(s: State, p: Pid) returns (a: Action)
    requires Inv(s) && p in s.procs && !s.procs[p].phase.Returned?
    ensures Own(a) && Next(s, a).Some?
  {
    assert OkProc(s, p);
    if s.procs[p].phase.Joined? {
      var c := s.procs[p].phase.call;
      assert OkObject(s, c);
      assert OkProc(s, c);
      if s.procs[c].phase.Returned? { a := JoinReturn(p); } else { a := ExecutorMoves(s, c); }
    } else {
      a := ExecutorMoves(s, p);
    }
  }

  /** No own step is possible. */
  ghost predicate AtRest(s: State) {
    forall a :: Own(a) ==> Next(s, a).None?
  }

  lemma AtRestReturned(s: State, p: Pid)
    requires Inv(s) && p in s.procs
    ensures AtRest(s) ==> HasReturned(s, p)
  {
    if !HasReturned(s, p) {
      var a := SomeoneMoves(s, p);
      assert Own(a) && Next(s, a).Some?;
    }
  }

  /** However the calls interleave: a run without new calls and injections takes at most Left(s) steps, and if it
      cannot be prolonged every caller has returned; create returns, but may fail. */
  lemma EveryRunReturns(s: State, acts: seq<Action>, t: State)
    requires Reachable(s) && Exec(s, acts) == Some(t) && OwnSteps(acts)
    ensures |acts| <= Left(s)
    ensures AtRest(t) ==> forall p :: p in t.procs ==> HasReturned(t, p)
  {
    ReachableInv(s);
    RunsKeepInv(s, acts);
    RunsEnd(s, acts);
    hide Inv, AtRest, Own, Left;
    if AtRest(t) {
      forall p | p in t.procs ensures HasReturned(t, p) { AtRestReturned(t, p); }
    }
  }
}
