/** syncx: what Inject is for. A resource put in is the one that later callers get. */
module LocalInject {
  import opened Common
  import opened LocalFlight

  /** No step of the run injects on the key or stores what a create made for it. */
  predicate Untouched(s: State, acts: seq<Action>, k: Key)
    decreases |acts|
  {
    acts == [] || (
      && !(acts[0].Inject? && acts[0].key == k)
      && !(acts[0].Store? && acts[0].pid in s.procs && s.procs[acts[0].pid].key == k)
      && (Next(s, acts[0]).Some? ==> Untouched(Next(s, acts[0]).value, acts[1..], k)))
  }

  /** What a caller that is not of the past has in hand is `v`. */
  predicate Has(s: State, p: Pid, past: set<Pid>, v: Resource)
    requires p in s.procs
  {
    match s.procs[p].phase
    case Joined(_) => true
    case Checking => true
    case Creating => false
    case Storing(_) => false
    case Finished(out) => out == Ok(v)
    case Written => true
    case Deleted => true
    case Returned(via, out) => via !in past ==> out == Ok(v)
  }

  /** The resource of `k` is `v`, and so is all that callers have who came later. */
  ghost predicate Gives(s: State, k: Key, v: Resource, past: set<Pid>) {
    && k in s.resources && s.resources[k] == v
    && past <= s.procs.Keys
    && (forall p :: p in s.procs && p !in past && s.procs[p].key == k ==> Has(s, p, past, v))
    && (forall c :: c in s.objects && c in s.procs && c !in past && s.procs[c].key == k && s.objects[c].out.Some? ==>
         s.objects[c].out == Some(Ok(v)))
  }

  lemma GivesOthers(s: State, a: Action, k: Key, v: Resource, past: set<Pid>, q: Pid)
    requires Inv(s) && Next(s, a).Some? && Gives(s, k, v, past) && Untouched(s, [a], k)
    ensures var t := Next(s, a).value;
            && (q in t.procs && q !in past && t.procs[q].key == k ==> Has(t, q, past, v))
            && (q in t.objects && q in t.procs && q !in past && t.procs[q].key == k && t.objects[q].out.Some? ==>
                 t.objects[q].out == Some(Ok(v)))
  {
    if a.Enter? {
      FreshPid(s, a.pid);
    } else if !a.Inject? {
      assert OkProc(s, a.pid);
      if a.Signal? { assert OkObject(s, a.pid); }
    }
  }

  lemma KeepGives(s: State, a: Action, k: Key, v: Resource, past: set<Pid>)
    requires Inv(s) && Next(s, a).Some? && Gives(s, k, v, past) && Untouched(s, [a], k)
    ensures Gives(Next(s, a).value, k, v, past)
  {
    hide Inv, Has;
    var t := Next(s, a).value;
    forall q
      ensures q in t.procs && q !in past && t.procs[q].key == k ==> Has(t, q, past, v)
      ensures q in t.objects && q in t.procs && q !in past && t.procs[q].key == k && t.objects[q].out.Some? ==>
                t.objects[q].out == Some(Ok(v))
    {
      GivesOthers(s, a, k, v, past, q);
    }
  }

  lemma {:induction false} RunGives(s: State, acts: seq<Action>, k: Key, v: Resource, past: set<Pid>)
    requires Inv(s) && Exec(s, acts).Some? && Gives(s, k, v, past) && Untouched(s, acts, k)
    ensures Gives(Exec(s, acts).value, k, v, past)
    decreases |acts|
  {
    hide Inv, Gives, Next;
    if acts != [] {
      assert Untouched(s, [acts[0]], k);
      KeepInv(s, acts[0]);
      KeepGives(s, acts[0], k, v, past);
      RunGives(Next(s, acts[0]).value, acts[1..], k, v, past);
    }
  }

  /** Calls of `k` that are registered, joined or returned from are not of the past. */
  ghost predicate NewCalls(s: State, k: Key, past: set<Pid>) {
    && past <= s.procs.Keys
    && (k in s.calls ==> s.calls[k] !in past)
    && (forall p :: p in s.procs && p !in past && s.procs[p].key == k ==> FromNewCall(s, p, past))
  }

  predicate FromNewCall(s: State, p: Pid, past: set<Pid>)
    requires p in s.procs
  {
    match s.procs[p].phase
    case Joined(c) => c !in past
    case Returned(via, _) => via !in past
    case _ => true
  }

  lemma KeepNewCalls(s: State, a: Action, k: Key, past: set<Pid>)
    requires Next(s, a).Some? && NewCalls(s, k, past)
    ensures NewCalls(Next(s, a).value, k, past)
  {
  }

  lemma {:induction false} RunNewCalls(s: State, acts: seq<Action>, k: Key, past: set<Pid>)
    requires Exec(s, acts).Some? && NewCalls(s, k, past)
    ensures NewCalls(Exec(s, acts).value, k, past)
    decreases |acts|
  {
    hide NewCalls, Next;
    if acts != [] {
      KeepNewCalls(s, acts[0], k, past);
      RunNewCalls(Next(s, acts[0]).value, acts[1..], k, past);
    }
  }

  /** `p` started behind `s`, on key `k`, and has returned. */
  predicate ReturnedSince(s: State, t: State, p: Pid, k: Key) {
    p in t.procs && p !in s.procs && t.procs[p].key == k && t.procs[p].phase.Returned?
  }

  /** Inject(k, v) makes `v` the resource of `k`, whatever was there. While nothing else is injected or stored on
      `k` it stays so, and every GetResource of `k` that starts later returns `v` with no error, unless it joins a
      call that was under way when `v` was put in. */
  lemma InjectedIsReturned(s: State, k: Key, v: Resource, acts: seq<Action>, p: Pid)
    requires Reachable(s)
    requires Next(s, Inject(k, v)).Some? ==> Untouched(Next(s, Inject(k, v)).value, acts, k)
    ensures Next(s, Inject(k, v)).Some?
    ensures var m := Next(s, Inject(k, v)).value;
            && k in m.resources && m.resources[k] == v
            && (Exec(m, acts).Some? ==>
                 var t := Exec(m, acts).value;
                 && k in t.resources && t.resources[k] == v
                 && (ReturnedSince(s, t, p, k) && (k !in s.calls || t.procs[p].phase.via !in s.procs) ==>
                      t.procs[p].phase.out == Ok(v)))
  {
    hide NewCalls, Untouched;
    ReachableInv(s);
    var m := Next(s, Inject(k, v)).value;
    KeepInv(s, Inject(k, v));
    FromThePast(s, m, k, v);
    if Exec(m, acts).Some? {
      RunGives(m, acts, k, v, s.procs.Keys);
      if k !in s.calls {
        RunNewCalls(m, acts, k, s.procs.Keys);
        LastCallNew(Exec(m, acts).value, p, k, s.procs.Keys);
      }
    }
  }

  lemma LastCallNew(t: State, p: Pid, k: Key, past: set<Pid>)
    requires NewCalls(t, k, past)
    ensures p in t.procs && p !in past && t.procs[p].key == k && t.procs[p].phase.Returned? ==>
              t.procs[p].phase.via !in past
  {
  }

  lemma FromThePast(s: State, m: State, k: Key, v: Resource)
    requires Inv(s) && m == Next(s, Inject(k, v)).value
    ensures Gives(m, k, v, s.procs.Keys)
    ensures k !in s.calls ==> NewCalls(m, k, s.procs.Keys)
  {
  }
}
