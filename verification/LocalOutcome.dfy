/** syncx: what GetResource returns, traced from the moment it is produced to every caller that shares it. */
module LocalOutcome {
  import opened Common
  import opened LocalFlight

  /** The call `p` has produced `out`: about to be stored, written or returned. */
  ghost predicate Produced(s: State, p: Pid, out: Outcome) {
    p in s.procs &&
    match s.procs[p].phase
    case Storing(v) => out == Ok(v)
    case Finished(o) => o == out
    case Written => p in s.objects && s.objects[p].out == Some(out)
    case Deleted => p in s.objects && s.objects[p].out == Some(out)
    case Returned(via, o) => via == p && o == out
    case _ => false
  }

  lemma KeepProduced(s: State, a: Action, p: Pid, out: Outcome)
    requires Inv(s) && Next(s, a).Some? && Produced(s, p, out)
    ensures Produced(Next(s, a).value, p, out)
  {
    assert OkProc(s, p);
  }

  lemma {:induction false} RunProduced(s: State, acts: seq<Action>, p: Pid, out: Outcome)
    requires Inv(s) && Exec(s, acts).Some? && Produced(s, p, out)
    ensures Produced(Exec(s, acts).value, p, out) && Inv(Exec(s, acts).value)
    decreases |acts|
  {
    hide Inv, Produced, Next;
    if acts != [] {
      KeepProduced(s, acts[0], p, out);
      KeepInv(s, acts[0]);
      RunProduced(Next(s, acts[0]).value, acts[1..], p, out);
    }
  }

  /** Whatever `fn` of call `p` comes to, in a step that finds the resource, ends a create or fails one, every caller
      served through that call returns just that: the stored resource as it was found, the created one, or create's own
      error. */
  lemma EveryoneGetsIt(s: State, a: Action, acts: seq<Action>, q: Pid)
    requires Reachable(s) && Next(s, a).Some? && Exec(Next(s, a).value, acts).Some?
    requires a.Check? || a.CreateOk? || a.CreateErr?
    ensures var t := Exec(Next(s, a).value, acts).value;
            q in t.procs && t.procs[q].phase.Returned? && t.procs[q].phase.via == a.pid ==>
              && t.procs[q].key == s.procs[a.pid].key
              && (a.Check? && s.procs[a.pid].key in s.resources ==>
                   t.procs[q].phase.out == Ok(s.resources[s.procs[a.pid].key]))
              && (a.CreateOk? ==> t.procs[q].phase.out == Ok(a.res))
              && (a.CreateErr? ==> t.procs[q].phase.out == Err(a.err))
  {
    ReachableInv(s);
    KeepInv(s, a);
    var m := Next(s, a).value;
    var k := s.procs[a.pid].key;
    RunKeepsKey(m, acts, a.pid);
    if !(a.Check? && k !in s.resources) {
      var out := if a.Check? then Ok(s.resources[k]) else if a.CreateOk? then Ok(a.res) else Err(a.err);
      RunProduced(m, acts, a.pid, out);
    } else {
      RunsKeepInv(m, acts);
    }
    Served(Exec(m, acts).value, q, a.pid);
  }

  lemma Served(t: State, q: Pid, p: Pid)
    requires Inv(t)
    ensures q in t.procs && t.procs[q].phase.Returned? && t.procs[q].phase.via == p ==>
              p in t.procs && t.procs[p].phase == Returned(p, t.procs[q].phase.out) && t.procs[q].key == t.procs[p].key
  {
    if q in t.procs && t.procs[q].phase.Returned? && t.procs[q].phase.via == p {
      assert OkProc(t, q) && OkObject(t, p);
      assert OkProc(t, p);
    }
  }

  lemma StepKeepsKey(s: State, a: Action, p: Pid)
    requires p in s.procs && Next(s, a).Some?
    ensures p in Next(s, a).value.procs && Next(s, a).value.procs[p].key == s.procs[p].key
  {
  }

  lemma {:induction false} RunKeepsKey(s: State, acts: seq<Action>, p: Pid)
    requires p in s.procs && Exec(s, acts).Some?
    ensures p in Exec(s, acts).value.procs && Exec(s, acts).value.procs[p].key == s.procs[p].key
    decreases |acts|
  {
    hide Next;
    if acts != [] {
      StepKeepsKey(s, acts[0], p);
      RunKeepsKey(Next(s, acts[0]).value, acts[1..], p);
    }
  }
}
