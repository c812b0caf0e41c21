/** syncx: the in-process SingleFlight and ResourceManager as a transition system, one action per locked section. */
module LocalFlight {
  import opened Common

  type Resource(==, !new)
  type Error(==, 00, !new)
  type Key = string
  /** A GetResource invocation; it also names the call object it creates. */
  type Pid = nat

  datatype Outcome = Ok(res: Resource) | Err(err: Error)

  /** call[T]: (val, err) once written, and the wait group count. */
  datatype Call = Call(out: Option<Outcome>, wg: nat)

  datatype Phase =
    | Joined(call: Pid)          // found a registered call, waits on it
    | Checking                   // registered its own call, fn started
    | Creating                   // resource absent, create() running
    | Storing(res: Resource)     // create() succeeded
    | Finished(out: Outcome)     // fn returned
    | Written                    // c.val, c.err assigned
    | Deleted                    // call removed from the map
    | Returned(via: Pid, out: Outcome)

  datatype Proc = Proc(key: Key, phase: Phase)

  datatype State = State(
    calls: map<Key, Pid>,
    objects: map<Pid, Call>,
    resources: map<Key, Resource>,
    procs: map<Pid, Proc>,
    created: map<Key, seq<Resource>>,    // history: successful creates per key
    injected: set<Key>                   // history: keys given to Inject
  )

  datatype Action =
    | Enter(pid: Pid, key: Key)
    | Check(pid: Pid)
    | CreateOk(pid: Pid, res: Resource)
    | CreateErr(pid: Pid, err: Error)
    | Store(pid: Pid)
    | Write(pid: Pid)
    | Delete(pid: Pid)
    | Signal(pid: Pid)
    | JoinReturn(pid: Pid)
    | Inject(key: Key, res: Resource)

  function Created(s: State, k: Key): seq<Resource> {
    if k in s.created then s.created[k] else []
  }

  function Phased(s: State, p: Pid, f: Phase): State
    requires p in s.procs
  {
    s.(procs := s.procs[p := s.procs[p].(phase := f)])
  }

  /** createCall under the lock: join the registered call or register a new one. */
  function DoEnter(s: State, p: Pid, k: Key): State {
    var hit := k in s.calls;
    s.(procs := s.procs[p := Proc(k, if hit then Joined(s.calls[k]) else Checking)],
       calls := if hit then s.calls else s.calls[k := p],
       objects := if hit then s.objects else s.objects[p := Call(None, 1)])
  }

  function Next(s: State, a: Action): Option<State> {
    match a
    case Enter(p, k) =>
      if p !in s.procs then Some(DoEnter(s, p, k)) else None
    case Check(p) =>
      if p in s.procs && s.procs[p].phase.Checking? then
        var k := s.procs[p].key;
        Some(Phased(s, p, if k in s.resources then Finished(Ok(s.resources[k])) else Creating))
      else None
    case CreateOk(p, v) =>
      if p in s.procs && s.procs[p].phase.Creating? then
        var k := s.procs[p].key;
        Some(Phased(s.(created := s.created[k := Created(s, k) + [v]]), p, Storing(v)))
      else None
    case CreateErr(p, e) =>
      if p in s.procs && s.procs[p].phase.Creating? then Some(Phased(s, p, Finished(Err(e)))) else None
    case Store(p) =>
      if p in s.procs && s.procs[p].phase.Storing? then
        var v := s.procs[p].phase.res;
        Some(Phased(s.(resources := s.resources[s.procs[p].key := v]), p, Finished(Ok(v))))
      else None
    case Write(p) =>
      if p in s.procs && s.procs[p].phase.Finished? && p in s.objects then
        Some(Phased(s.(objects := s.objects[p := s.objects[p].(out := Some(s.procs[p].phase.out))]), p, Written))
      else None
    case Delete(p) =>
      if p in s.procs && s.procs[p].phase.Written? then
        Some(Phased(s.(calls := s.calls - {s.procs[p].key}), p, Deleted))
      else None
    case Signal(p) =>
      if p in s.procs && s.procs[p].phase.Deleted? && p in s.objects && s.objects[p].wg > 0 &&
        s.objects[p].out.Some? then
        Some(Phased(s.(objects := s.objects[p := s.objects[p].(wg := s.objects[p].wg - 1)]), p,
          Returned(p, s.objects[p].out.value)))
      else None
    case JoinReturn(p) =>
      if p in s.procs && s.procs[p].phase.Joined? && s.procs[p].phase.call in s.objects &&
         s.objects[s.procs[p].phase.call].wg == 0 && s.objects[s.procs[p].phase.call].out.Some? then
        Some(Phased(s, p, Returned(s.procs[p].phase.call, s.objects[s.procs[p].phase.call].out.value)))
      else None
    case Inject(k, v) =>
      Some(s.(resources := s.resources[k := v], injected := s.injected + {k}))
  }

  const INIT := State(map[], map[], map[], map[], map[], {})

  function Exec(s: State, acts: seq<Action>): Option<State>
    decreases |acts|
  {
    if acts == [] then Some(s)
    else
      match Next(s, acts[0])
      case None => None
      case Some(t) => Exec(t, acts[1..])
  }

  // ---------------------------------------------------------------- invariant

  /** fn of this call is running or its call is still registered. */
  predicate Registered(f: Phase) {
    f.Checking? || f.Creating? || f.Storing? || f.Finished? || f.Written?
  }

  ghost predicate OkProc(s: State, p: Pid)
    requires p in s.procs
  {
    var k := s.procs[p].key;
    var f := s.procs[p].phase;
    && (Registered(f) ==> k in s.calls && s.calls[k] == p)
    && (Registered(f) || f.Deleted? ==> p in s.objects && s.objects[p].wg == 1)
    && (f.Written? || f.Deleted? ==> p in s.objects && s.objects[p].out.Some?)
    && (f.Returned? && p in s.objects ==> f.via == p)
    && (f.Joined? ==> p !in s.objects && f.call in s.objects && f.call in s.procs && s.procs[f.call].key == k)
    && (f.Returned? ==>
      f.via in s.objects && s.objects[f.via] == Call(Some(f.out), 0) && f.via in s.procs && s.procs[f.via].key == k)
    && (k !in s.injected ==>
         && (f.Creating? ==> k !in s.resources && Created(s, k) == [])
         && (f.Storing? ==> k !in s.resources && Created(s, k) == [f.res])
         && (f.Finished? && f.out.Ok? ==> k in s.resources && s.resources[k] == f.out.res))
  }

  ghost predicate OkObject(s: State, c: Pid)
    requires c in s.objects
  {
    && c in s.procs && !s.procs[c].phase.Joined?
    && s.objects[c].wg <= 1
    && (s.objects[c].wg == 0 ==> s.objects[c].out.Some? && s.procs[c].phase.Returned?)
    && (s.objects[c].out.Some? ==>
      !s.procs[c].phase.Checking? && !s.procs[c].phase.Creating? && !s.procs[c].phase.Storing? &&
      !s.procs[c].phase.Finished?)
    && (s.objects[c].out.Some? && s.objects[c].out.value.Ok? && s.procs[c].key !in s.injected ==>
         s.procs[c].key in s.resources && s.resources[s.procs[c].key] == s.objects[c].out.value.res)
  }

  ghost predicate OkKey(s: State, k: Key) {
    && (k in s.calls ==> s.calls[k] in s.procs && s.procs[s.calls[k]].key == k && Registered(s.procs[s.calls[k]].phase))
    && (k !in s.injected ==>
         && |Created(s, k)| <= 1
         && (k in s.resources ==> Created(s, k) == [s.resources[k]])
         && (k !in s.resources && Created(s, k) != [] ==> k in s.calls && s.procs[s.calls[k]].phase.Storing?))
  }

  ghost predicate Inv(s: State) {
    && (forall p {:trigger OkProc(s, p)} :: p in s.procs ==> OkProc(s, p))
    && (forall c {:trigger OkObject(s, c)} :: c in s.objects ==> OkObject(s, c))
    && (forall k {:trigger OkKey(s, k)} :: OkKey(s, k))
  }

  /** What the invariant says around the acting Do. */
  ghost predicate Actor(s: State, a: Action) {
    && (a.Enter? ==>
      a.pid !in s.objects && (a.key in s.calls ==> s.calls[a.key] in s.procs && OkProc(s, s.calls[a.key])))
    && (!a.Inject? && !a.Enter? && a.pid in s.procs ==>
         && OkProc(s, a.pid)
         && (a.pid in s.objects ==> OkObject(s, a.pid)))
  }

  lemma FreshPid(s: State, p: Pid)
    requires Inv(s) && p !in s.procs
    ensures p !in s.objects
  {
    forall c | c in s.objects ensures c in s.procs { assert OkObject(s, c); }
  }

  lemma ActorOk(s: State, a: Action, t: State)
    requires Inv(s) && Next(s, a) == Some(t)
    ensures Actor(s, a)
    ensures a.Enter? ==> OkKey(s, a.key)
    ensures !a.Inject? && !a.Enter? ==> OkKey(s, s.procs[a.pid].key)
  {
    if a.Enter? {
      assert OkKey(s, a.key);
      if a.key in s.calls { assert OkProc(s, s.calls[a.key]); }
      FreshPid(s, a.pid);
    } else if !a.Inject? {
      assert OkProc(s, a.pid) && OkKey(s, s.procs[a.pid].key);
      if a.pid in s.objects { assert OkObject(s, a.pid); }
    }
  }

  lemma KeepActor(s: State, a: Action, t: State)
    requires Next(s, a) == Some(t) && !a.Inject? && Actor(s, a)
    requires if a.Enter? then OkKey(s, a.key) else OkKey(s, s.procs[a.pid].key)
    ensures a.pid in t.procs && OkProc(t, a.pid)
  {
  }

  predicate Producing(a: Action) {
    a.CreateOk? || a.Store? || a.Inject?
  }

  lemma KeepOtherProducing(s: State, a: Action, t: State, q: Pid)
    requires Next(s, a) == Some(t) && q in t.procs && Actor(s, a) && (!a.Inject? ==> q != a.pid) && Producing(a)
    requires q in s.procs && OkProc(s, q)
    ensures OkProc(t, q)
  {
  }

  lemma KeepOther(s: State, a: Action, t: State, q: Pid)
    requires Next(s, a) == Some(t) && q in t.procs && Actor(s, a) && (!a.Inject? ==> q != a.pid)
    requires q in s.procs && OkProc(s, q)
    ensures OkProc(t, q)
  {
    if Producing(a) { KeepOtherProducing(s, a, t, q); }
  }

  lemma KeepObject(s: State, a: Action, t: State, c: Pid)
    requires Next(s, a) == Some(t) && c in t.objects && Actor(s, a)
    requires c in s.objects ==> OkObject(s, c)
    ensures OkObject(t, c)
  {
  }

  lemma KeepKey(s: State, a: Action, t: State, k: Key)
    requires Next(s, a) == Some(t) && Actor(s, a) && OkKey(s, k)
    ensures OkKey(t, k)
  {
  }

  lemma KeepInv(s: State, a: Action)
    requires Inv(s) && Next(s, a).Some?
    ensures Inv(Next(s, a).value)
  {
    var t := Next(s, a).value;
    ActorOk(s, a, t);
    forall q | q in t.procs ensures OkProc(t, q) {
      if !a.Inject? && q == a.pid {
        KeepActor(s, a, t);
      } else {
        assert OkProc(s, q);
        KeepOther(s, a, t, q);
      }
    }
    forall c | c in t.objects ensures OkObject(t, c) {
      if c in s.objects { assert OkObject(s, c); }
      KeepObject(s, a, t, c);
    }
    forall k ensures OkKey(t, k) {
      assert OkKey(s, k);
      KeepKey(s, a, t, k);
    }
  }

  lemma {:induction false} RunsKeepInv(s: State, acts: seq<Action>)
    requires Inv(s) && Exec(s, acts).Some?
    ensures Inv(Exec(s, acts).value)
    decreases |acts|
  {
    if acts != [] {
      KeepInv(s, acts[0]);
      RunsKeepInv(Next(s, acts[0]).value, acts[1..]);
    }
  }

  // ---------------------------------------------------------------- single flight

  ghost predicate Reachable(s: State) {
    exists acts :: Exec(INIT, acts) == Some(s)
  }

  lemma ReachableInv(s: State)
    requires Reachable(s)
    ensures Inv(s)
  {
    var acts :| Exec(INIT, acts) == Some(s);
    RunsKeepInv(INIT, acts);
  }

  /** At most one Do per key runs fn or has its call registered, and the map holds exactly that call, so
      the delete at the end of makeCall removes only the deleter's own call. */
  lemma OneRunnerPerKey(s: State, p: Pid, q: Pid)
    requires Reachable(s) && p in s.procs && Registered(s.procs[p].phase)
    ensures s.procs[p].key in s.calls && s.calls[s.procs[p].key] == p
    ensures q in s.procs && Registered(s.procs[q].phase) && s.procs[q].key == s.procs[p].key ==> q == p
  {
    ReachableInv(s);
    assert OkProc(s, p);
    if q in s.procs { assert OkProc(s, q); }
  }

  /** Whoever returned got exactly what the executor it joined wrote, which was written before the wait
      group was released, once. */
  lemma JoinersShareResult(s: State, p: Pid)
    requires Reachable(s) && p in s.procs && s.procs[p].phase.Returned?
    ensures var f := s.procs[p].phase;
            && f.via in s.objects && s.objects[f.via] == Call(Some(f.out), 0)
            && f.via in s.procs && s.procs[f.via].key == s.procs[p].key
            && s.procs[f.via].phase.Returned? && s.procs[f.via].phase.out == f.out
  {
    ReachableInv(s);
    assert OkProc(s, p);
    assert OkObject(s, s.procs[p].phase.via);
    assert OkProc(s, s.procs[p].phase.via);
  }

  /** The wait group never goes negative and a woken joiner never reads an unwritten call. */
  lemma ReleasedOnceAfterWrite(s: State, c: Pid)
    requires Reachable(s) && c in s.objects
    ensures s.objects[c].wg <= 1 && (s.objects[c].wg == 0 ==> s.objects[c].out.Some?)
    ensures c in s.procs && s.procs[c].phase.Deleted? ==> s.objects[c].wg == 1 && s.objects[c].out.Some?
  {
    ReachableInv(s);
    assert OkObject(s, c);
    assert OkProc(s, c);
  }

  // ---------------------------------------------------------------- create once

  /** For a key never given to Inject: at most one create succeeds, the stored resource is that one, and
      every successful caller of GetResource gets it. */
  lemma CreateOnce(s: State, k: Key, p: Pid)
    requires Reachable(s) && k !in s.injected
    ensures |Created(s, k)| <= 1
    ensures k in s.resources ==> Created(s, k) == [s.resources[k]]
    ensures p in s.procs && s.procs[p].key == k && s.procs[p].phase.Returned? && s.procs[p].phase.out.Ok? ==>
              k in s.resources && s.resources[k] == s.procs[p].phase.out.res
  {
    ReachableInv(s);
    assert OkKey(s, k);
    if p in s.procs && s.procs[p].phase.Returned? {
      assert OkProc(s, p);
      assert OkObject(s, s.procs[p].phase.via);
    }
  }

  /** A stored resource never goes away. It changes in a step if and only if the step injects another one, or stores
      what a create made that found nothing stored, and that only on a key that Inject has meanwhile filled. */
  lemma ResourceChangesOnlyByInject(s: State, a: Action, k: Key)
    requires Reachable(s) && Next(s, a).Some? && k in s.resources
    ensures k in Next(s, a).value.resources
    ensures Next(s, a).value.resources[k] != s.resources[k] <==>
            || (a.Inject? && a.key == k && a.res != s.resources[k])
            || (a.Store? && s.procs[a.pid].key == k && s.procs[a.pid].phase.res != s.resources[k] && k in s.injected)
  {
    ReachableInv(s);
    if a.Store? { assert OkProc(s, a.pid); }
  }

  /** A failed create stores nothing, whatever was injected; on a key never given to Inject nothing is stored then,
      and the next caller creates again. */
  lemma FailureStoresNothing(s: State, p: Pid, e: Error)
    requires Reachable(s) && Next(s, CreateErr(p, e)).Some?
    ensures var t, k := Next(s, CreateErr(p, e)).value, s.procs[p].key;
            t.resources == s.resources && t.created == s.created &&
              (k !in s.injected ==> k !in t.resources && Created(t, k) == [])
  {
    ReachableInv(s);
    assert OkProc(s, p);
  }
}
