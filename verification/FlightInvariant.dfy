/** The inductive invariant of the cluster protocol, one predicate per kind of entity: Dos, the call objects they
    made, flights, locks, callMap entries, holders of d.lock and handlers. Most steps touch one Do and what belongs to
    it; `Local` says what such a step may do, and `KeepLocal` that the invariant then holds everywhere else. */
module FlightInvariant {
  import opened Common
  import opened CacheItems
  import opened DistributedFlight

  function Rank(st: Stage): nat {
    match st
    case Running => 0 case Ran => 1 case Filled => 2 case Woken => 3
    case Stored => 4 case Unlocked => 5 case Removed => 6
  }

  /** Between winning GetSetNX and deleting the lock. */
  predicate Critical(f: Phase) {
    f.Leader? && Rank(f.stage) <= 4
  }

  /** Has its own entry in its node's callMap. */
  predicate Owning(f: Phase) {
    f.Following? || (f.Leader? && Rank(f.stage) <= 5)
  }

  /** Has created a call object. */
  predicate Creator(f: Phase) {
    f.Following? || f.Collecting? || f.Leader?
  }

  ghost predicate OkProc(s: State, p: Pid)
    requires p in s.procs
  {
    var me := s.procs[p];
    var f := me.phase;
    && me.node in s.inbox
    && (f.Electing? ==> me.node in s.mutex && s.mutex[me.node] == p && (me.node, me.key) !in s.callMap)
    && (f.Electing? || f.Joined? ==> p !in s.calls)
    && (Creator(f) ==> p in s.calls)
    && (Owning(f) ==> (me.node, me.key) in s.callMap && s.callMap[(me.node, me.key)] == p)
    && (Critical(f) ==> me.key in s.locks && s.locks[me.key] == s.calls[p].id)
    && (f.Leader? ==> s.calls[p].id in s.leaderOf && s.leaderOf[s.calls[p].id] == p)
  }

  ghost predicate OkLink(s: State, p: Pid)
    requires p in s.procs
  {
    var f := s.procs[p].phase;
    && (f.Joined? ==> f.call in s.calls && f.call in s.procs && Entry(s, f.call) == Entry(s, p))
    && (f.Returned? ==> Served(s, p))
  }

  /** What a Do hands back: the leader its own outcome, anyone else the unpacked result of the flight
      its call belongs to, or the transport error. */
  ghost predicate Served(s: State, p: Pid)
    requires p in s.procs && s.procs[p].phase.Returned?
  {
    var f := s.procs[p].phase;
    && f.via in s.procs && f.via in s.calls && s.calls[f.via].id in s.leaderOf
    && Entry(s, f.via) == Entry(s, p)
    && var id := s.calls[f.via].id;
       if s.leaderOf[id] == p then id in s.runs && s.runs[id] == NewCacheItem(f.out)
       else (id in s.runs && f.out == Result(s.runs[id])) || f.out == Result(TRANSPORT_ERROR)
  }

  /** A call object: released at most once, filled when released, holding its own flight's result or
      the transport error, and with a live poller while a follower waits on it. */
  ghost predicate OkCall(s: State, c: Pid)
    requires c in s.calls
  {
    var x := s.calls[c];
    && c in s.procs
    && (Creator(s.procs[c].phase) || s.procs[c].phase.Returned?)
    && x.wg == (if x.fired then 0 else 1) && x.closes == (if x.fired then 1 else 0)
    && (x.fired || x.poll.PollFilled? ==> x.item.Some?)
    && x.id in s.leaderOf
    && s.leaderOf[x.id] in s.procs && s.procs[s.leaderOf[x.id]].key == s.procs[c].key
    && (x.item.Some? ==> x.item.value == TRANSPORT_ERROR || (x.id in s.runs && x.item.value == s.runs[x.id]))
    && (s.procs[c].phase.Following? || s.procs[c].phase.Collecting? ==> s.leaderOf[x.id] != c)
    && (s.procs[c].phase.Following? && x.poll.PollOff? ==> x.fired)
    && (s.procs[c].phase.Collecting? || s.procs[c].phase.Returned? ==> x.fired)
    && (s.procs[c].phase.Leader? && Rank(s.procs[c].phase.stage) >= 2 ==> x.item.Some?)
    && (s.procs[c].phase.Leader? && Rank(s.procs[c].phase.stage) >= 3 ==> x.fired)
  }

  /** A flight: its elected leader, that leader's single run of fn, and the stored result. */
  ghost predicate OkFlight(s: State, id: Id)
    requires id in s.leaderOf
  {
    var l := s.leaderOf[id];
    && l in s.procs && l in s.calls && s.calls[l].id == id
    && var f := s.procs[l].phase;
    && (f.Leader? || f.Returned?)
    && (id in s.runs <==> !(f.Leader? && f.stage.Running?))
    && (f.Leader? && id in s.runs ==> s.runs[id] == NewCacheItem(f.out))
    && (id in s.results <==> f.Returned? || Rank(f.stage) >= 4)
    && (id in s.results ==> s.results[id] == s.runs[id])
  }

  ghost predicate OkLock(s: State, k: Key)
    requires k in s.locks
  {
    s.locks[k] in s.leaderOf && var l := s.leaderOf[s.locks[k]];
    l in s.procs && s.procs[l].key == k && Critical(s.procs[l].phase)
  }

  ghost predicate OkEntry(s: State, e: (Node, Key))
    requires e in s.callMap
  {
    var p := s.callMap[e];
    p in s.procs && p in s.calls && Owning(s.procs[p].phase) && e == Entry(s, p)
  }

  ghost predicate OkMutex(s: State, n: Node)
    requires n in s.mutex
  {
    var p := s.mutex[n];
    p in s.procs && s.procs[p].phase.Electing? && s.procs[p].node == n
  }

  ghost predicate OkHandler(s: State, n: Node)
    requires n in s.handler
  {
    var h := s.handler[n];
    && (h.Got? ==> h.call in s.calls)
    && (h.Fetched? ==> h.call in s.calls && s.calls[h.call].item.Some?)
  }

  ghost predicate Procs(s: State) { forall p {:trigger OkProc(s, p)} :: p in s.procs ==> OkProc(s, p) }
  ghost predicate Links(s: State) { forall p {:trigger OkLink(s, p)} :: p in s.procs ==> OkLink(s, p) }
  ghost predicate Calls(s: State) { forall c {:trigger OkCall(s, c)} :: c in s.calls ==> OkCall(s, c) }
  ghost predicate Flights(s: State) { forall i {:trigger OkFlight(s, i)} :: i in s.leaderOf ==> OkFlight(s, i) }
  ghost predicate Locks(s: State) { forall k {:trigger OkLock(s, k)} :: k in s.locks ==> OkLock(s, k) }
  ghost predicate Entries(s: State) { forall e {:trigger OkEntry(s, e)} :: e in s.callMap ==> OkEntry(s, e) }
  ghost predicate Mutexes(s: State) { forall n {:trigger OkMutex(s, n)} :: n in s.mutex ==> OkMutex(s, n) }
  ghost predicate Handlers(s: State) { forall n {:trigger OkHandler(s, n)} :: n in s.handler ==> OkHandler(s, n) }
  ghost predicate History(s: State) {
    && s.results.Keys <= s.leaderOf.Keys && s.runs.Keys <= s.leaderOf.Keys && s.handler.Keys == s.inbox.Keys
    && forall r :: r in s.renewals ==> r.0 == r.1
  }

  ghost predicate Inv(s: State) {
    Procs(s) && Links(s) && Calls(s) && Flights(s) && Locks(s) && Entries(s) && Mutexes(s) && Handlers(s) && History(s)
  }


  // ---------------------------------------------------------------- steps that touch one Do and its call

  /** `t` differs from `s` only in what belongs to Do `p`: its phase, its call, its flight, its key's lock,
      its callMap entry, and those parts of `t` are well formed. */
  ghost predicate Local(s: State, t: State, p: Pid) {
    && p in s.procs && p in t.procs
    && t.procs == s.procs[p := t.procs[p]] && Entry(t, p) == Entry(s, p)
    && t.leaderOf == s.leaderOf && t.mutex == s.mutex && t.inbox.Keys == s.inbox.Keys && t.handler == s.handler
    && (s.procs[p].phase.Electing? <==> t.procs[p].phase.Electing?)
    && (t.locks == s.locks || (Critical(s.procs[p].phase) && t.locks == s.locks - {s.procs[p].key}))
    && (t.callMap == s.callMap || (Owning(s.procs[p].phase) && t.callMap == s.callMap - {Entry(s, p)}))
    && (if p in s.calls then
          var id := s.calls[p].id;
          && p in t.calls && t.calls == s.calls[p := t.calls[p]] && t.calls[p].id == id
          && (s.calls[p].item.Some? ==> t.calls[p].item.Some?)
          && OkCall(t, p)
          && (t.runs == s.runs || (id in t.runs && id !in s.runs && t.runs == s.runs[id := t.runs[id]]))
          && (t.results == s.results ||
            (id in t.results && id !in s.results && t.results == s.results[id := t.results[id]]))
          && id in t.leaderOf && (if t.leaderOf[id] == p then OkFlight(t, id)
            else t.runs == s.runs && t.results == s.results)
        else t.calls == s.calls && t.runs == s.runs && t.results == s.results)
    && OkProc(t, p) && OkLink(t, p)
    && (t.procs[p].key in t.locks ==> OkLock(t, t.procs[p].key))
    && (Entry(t, p) in t.callMap ==> OkEntry(t, Entry(t, p)))
    && History(t)
  }

  lemma LocalProcs(s: State, t: State, p: Pid)
    requires Inv(s) && Local(s, t, p)
    ensures Procs(t)
  {
    assert OkProc(s, p);
    forall q | q in t.procs ensures OkProc(t, q) { assert OkProc(s, q); }
  }

  lemma LocalLinks(s: State, t: State, p: Pid)
    requires Inv(s) && Local(s, t, p)
    ensures Links(t)
  {
    forall q | q in t.procs ensures OkLink(t, q) { assert OkLink(s, q); }
  }

  lemma LocalCalls(s: State, t: State, p: Pid)
    requires Inv(s) && Local(s, t, p)
    ensures Calls(t)
  {
    forall c | c in t.calls ensures OkCall(t, c) { assert OkCall(s, c); }
  }

  lemma LocalFlights(s: State, t: State, p: Pid)
    requires Inv(s) && Local(s, t, p)
    ensures Flights(t)
  {
    forall i | i in t.leaderOf ensures OkFlight(t, i) { assert OkFlight(s, i); }
  }

  lemma LocalRest(s: State, t: State, p: Pid)
    requires Inv(s) && Local(s, t, p)
    ensures Locks(t) && Entries(t) && Mutexes(t) && Handlers(t)
  {
    forall k | k in t.locks ensures OkLock(t, k) { if k != t.procs[p].key { assert OkLock(s, k); } }
    forall e | e in t.callMap ensures OkEntry(t, e) { if e != Entry(t, p) { assert OkEntry(s, e); } }
    forall n | n in t.mutex ensures OkMutex(t, n) { assert OkMutex(s, n); }
    forall n | n in t.handler ensures OkHandler(t, n) { assert OkHandler(s, n); }
  }

  /** A local step keeps the invariant. */
  lemma KeepLocal(s: State, t: State, p: Pid)
    requires Inv(s) && Local(s, t, p)
    ensures Inv(t)
  {
    LocalProcs(s, t, p);
    LocalLinks(s, t, p);
    LocalCalls(s, t, p);
    LocalFlights(s, t, p);
    LocalRest(s, t, p);
  }

  /** Everything the invariant says about one Do. */
  lemma Around(s: State, p: Pid)
    requires Inv(s) && p in s.procs
    ensures OkProc(s, p) && OkLink(s, p)
    ensures p in s.calls ==> OkCall(s, p) && OkFlight(s, s.calls[p].id)
    ensures s.procs[p].key in s.locks ==> OkLock(s, s.procs[p].key)
    ensures Entry(s, p) in s.callMap ==> OkEntry(s, Entry(s, p))
  {
    assert OkProc(s, p) && OkLink(s, p);
    if p in s.calls {
      assert OkCall(s, p);
      assert OkFlight(s, s.calls[p].id);
    }
    if s.procs[p].key in s.locks { assert OkLock(s, s.procs[p].key); }
    if Entry(s, p) in s.callMap { assert OkEntry(s, Entry(s, p)); }
  }

  lemma KeepFnReturn(s: State, p: Pid, out: Outcome)
    requires Inv(s) && AtStage(s, p, Running)
    ensures Inv(DoFnReturn(s, p, out))
  {
    Around(s, p);
    KeepLocal(s, DoFnReturn(s, p, out), p);
  }

  lemma KeepFill(s: State, p: Pid)
    requires Inv(s) && AtStage(s, p, Ran)
    ensures Inv(DoFill(s, p))
  {
    Around(s, p);
    KeepLocal(s, DoFill(s, p), p);
  }

  lemma KeepWake(s: State, p: Pid)
    requires Inv(s) && AtStage(s, p, Filled)
    ensures Inv(DoWake(s, p))
  {
    Around(s, p);
    KeepLocal(s, DoWake(s, p), p);
  }

  lemma KeepStore(s: State, p: Pid)
    requires Inv(s) && AtStage(s, p, Woken)
    ensures Inv(DoStore(s, p))
  {
    Around(s, p);
    KeepLocal(s, DoStore(s, p), p);
  }

  lemma KeepUnlock(s: State, p: Pid)
    requires Inv(s) && AtStage(s, p, Stored)
    ensures Inv(DoUnlock(s, p))
  {
    Around(s, p);
    KeepLocal(s, DoUnlock(s, p), p);
  }

  lemma KeepPublish(s: State, p: Pid)
    requires Inv(s) && AtStage(s, p, Removed)
    ensures Inv(DoPublish(s, p))
  {
    Around(s, p);
    KeepLocal(s, DoPublish(s, p), p);
  }

  lemma KeepRemove(s: State, p: Pid)
    requires Inv(s) && CanRemove(s, p)
    ensures Inv(DoRemove(s, p))
  {
    Around(s, p);
    KeepLocal(s, DoRemove(s, p), p);
  }

  lemma KeepFollowerRemove(s: State, p: Pid)
    requires Inv(s) && CanFollowerRemove(s, p)
    ensures Inv(DoFollowerRemove(s, p))
  {
    Around(s, p);
    KeepLocal(s, DoFollowerRemove(s, p), p);
  }

  lemma KeepCollect(s: State, p: Pid)
    requires Inv(s) && CanCollect(s, p)
    ensures Inv(DoCollect(s, p))
  {
    Around(s, p);
    KeepLocal(s, DoCollect(s, p), p);
  }

  lemma KeepJoinReturn(s: State, p: Pid)
    requires Inv(s) && CanJoinReturn(s, p)
    ensures Inv(DoJoinReturn(s, p))
  {
    Around(s, p);
    Around(s, s.procs[p].phase.call);
    KeepLocal(s, DoJoinReturn(s, p), p);
  }

  /** A call object may only move forward: filled stays filled, released stays released, and the
      poller stops only once the call is released. */
  ghost predicate Forward(s: State, c: Pid, x: Call)
    requires c in s.calls
  {
    var o := s.calls[c];
    && x.id == o.id
    && x.wg == (if x.fired then 0 else 1) && x.closes == (if x.fired then 1 else 0)
    && (o.fired ==> x.fired) && (o.item.Some? ==> x.item.Some?)
    && (x.fired || x.poll.PollFilled? ==> x.item.Some?)
    && (x.poll.PollOff? && !x.fired ==> o.poll.PollOff?)
    && (x.item.Some? ==> x.item.value == TRANSPORT_ERROR || (x.id in s.runs && x.item.value == s.runs[x.id]))
  }

  lemma KeepCall(s: State, c: Pid, x: Call)
    requires Inv(s) && c in s.calls && Forward(s, c, x)
    ensures Inv(s.(calls := s.calls[c := x]))
  {
    assert OkCall(s, c);
    Around(s, c);
    KeepLocal(s, s.(calls := s.calls[c := x]), c);
  }

  lemma KeepPollHit(s: State, c: Pid)
    requires Inv(s) && CanPollHit(s, c)
    ensures Inv(DoPollHit(s, c))
  {
    assert OkCall(s, c) && OkFlight(s, s.calls[c].id);
    KeepCall(s, c, DoPollHit(s, c).calls[c]);
  }

  lemma KeepPollDone(s: State, c: Pid)
    requires Inv(s) && CanPollDone(s, c)
    ensures Inv(DoPollDone(s, c))
  {
    assert OkCall(s, c);
    KeepCall(s, c, DoPollDone(s, c).calls[c]);
  }

  lemma KeepPollExit(s: State, c: Pid)
    requires Inv(s) && CanPollExit(s, c)
    ensures Inv(DoPollExit(s, c))
  {
    assert OkCall(s, c);
    KeepCall(s, c, DoPollExit(s, c).calls[c]);
  }

  // ---------------------------------------------------------------- steps that touch no call

  /** Only the inbox contents, an idle or looked-up handler, or the renewal log change. */
  lemma KeepQuiet(s: State, t: State)
    requires Inv(s)
    requires t == s.(inbox := t.inbox, handler := t.handler, renewals := t.renewals) && t.inbox.Keys == s.inbox.Keys
    requires History(t) && Handlers(t)
    ensures Inv(t)
  {
    forall q | q in t.procs ensures OkProc(t, q) && OkLink(t, q) { assert OkProc(s, q) && OkLink(s, q); }
    forall c | c in t.calls ensures OkCall(t, c) { assert OkCall(s, c); }
    forall i | i in t.leaderOf ensures OkFlight(t, i) { assert OkFlight(s, i); }
    forall k | k in t.locks ensures OkLock(t, k) { assert OkLock(s, k); }
    forall e | e in t.callMap ensures OkEntry(t, e) { assert OkEntry(s, e); }
    forall n | n in t.mutex ensures OkMutex(t, n) { assert OkMutex(s, n); }
  }

  lemma KeepRenew(s: State, p: Pid)
    requires Inv(s) && CanRenew(s, p)
    ensures Inv(DoRenew(s, p))
  {
    Around(s, p);
    var t := DoRenew(s, p);
    forall n | n in t.handler ensures OkHandler(t, n) { assert OkHandler(s, n); }
    KeepQuiet(s, t);
  }

  lemma KeepDeliver(s: State, n: Node)
    requires Inv(s) && CanDeliver(s, n)
    ensures Inv(DoDeliver(s, n))
  {
    var t := DoDeliver(s, n);
    var e := (n, s.inbox[n][0]);
    if e in s.callMap { assert OkEntry(s, e); }
    forall m | m in t.handler ensures OkHandler(t, m) { assert OkHandler(s, m); }
    KeepQuiet(s, t);
  }

  lemma KeepLose(s: State, n: Node)
    requires Inv(s) && CanLose(s, n)
    ensures Inv(DoLose(s, n))
  {
    var t := DoLose(s, n);
    forall m | m in t.handler ensures OkHandler(t, m) { assert OkHandler(s, m); }
    KeepQuiet(s, t);
  }

  /** The subscription goroutine moves to `h` after advancing the call it holds. */
  lemma KeepHandled(s: State, n: Node, x: Call, h: Handler)
    requires Inv(s) && n in s.handler && !s.handler[n].Idle? && s.handler[n].call in s.calls
    requires Forward(s, s.handler[n].call, x)
    requires h.Idle? || (h == Fetched(s.handler[n].call) && x.item.Some?)
    ensures Inv(s.(calls := s.calls[s.handler[n].call := x], handler := s.handler[n := h]))
  {
    var c := s.handler[n].call;
    KeepCall(s, c, x);
    var mid := s.(calls := s.calls[c := x]);
    var t := mid.(handler := s.handler[n := h]);
    forall m | m in t.handler ensures OkHandler(t, m) { assert OkHandler(mid, m); }
    KeepQuiet(mid, t);
  }

  lemma KeepFetch(s: State, n: Node)
    requires Inv(s) && CanFetch(s, n)
    ensures Inv(DoFetch(s, n))
  {
    var c := s.handler[n].call;
    assert OkCall(s, c) && OkFlight(s, s.calls[c].id);
    KeepHandled(s, n, DoFetch(s, n).calls[c], Fetched(c));
  }

  lemma KeepHandlerDone(s: State, n: Node)
    requires Inv(s) && CanHandlerDone(s, n)
    ensures Inv(DoHandlerDone(s, n))
  {
    var c := s.handler[n].call;
    assert OkHandler(s, n) && OkCall(s, c);
    KeepHandled(s, n, DoHandlerDone(s, n).calls[c], Idle);
  }

  // ---------------------------------------------------------------- starting and electing

  lemma FreshPid(s: State, p: Pid)
    requires Inv(s) && p !in s.procs
    ensures p !in s.calls
  {
    forall c | c in s.calls ensures c in s.procs { assert OkCall(s, c); }
  }

  /** `t` is `s` with one more Do, which joined a call or holds its node's d.lock. */
  ghost predicate Started(s: State, t: State, p: Pid) {
    && p !in s.procs && p !in s.calls && p in t.procs
    && t == s.(procs := s.procs[p := t.procs[p]], mutex := t.mutex)
    && (t.procs[p].phase.Joined? || t.procs[p].phase.Electing?)
    && OkProc(t, p) && OkLink(t, p)
    && t.mutex == (if t.procs[p].phase.Joined? then s.mutex else s.mutex[t.procs[p].node := p])
    && (t.procs[p].phase.Electing? ==> t.procs[p].node !in s.mutex)
  }

  lemma StartedProcs(s: State, t: State, p: Pid)
    requires Inv(s) && Started(s, t, p)
    ensures Procs(t) && Links(t)
  {
    forall q | q in t.procs ensures OkProc(t, q) { if q != p { assert OkProc(s, q); } }
    forall q | q in t.procs ensures OkLink(t, q) { if q != p { assert OkLink(s, q); } }
  }

  lemma StartedCalls(s: State, t: State, p: Pid)
    requires Inv(s) && Started(s, t, p)
    ensures Calls(t) && Flights(t)
  {
    forall c | c in t.calls ensures OkCall(t, c) { assert OkCall(s, c); }
    forall i | i in t.leaderOf ensures OkFlight(t, i) { assert OkFlight(s, i); }
  }

  lemma StartedRest(s: State, t: State, p: Pid)
    requires Inv(s) && Started(s, t, p)
    ensures Locks(t) && Entries(t) && Mutexes(t) && Handlers(t) && History(t)
  {
    forall j | j in t.locks ensures OkLock(t, j) { assert OkLock(s, j); }
    forall e | e in t.callMap ensures OkEntry(t, e) { assert OkEntry(s, e); }
    forall m | m in t.mutex ensures OkMutex(t, m) { if m in s.mutex { assert OkMutex(s, m); } }
    forall m | m in t.handler ensures OkHandler(t, m) { assert OkHandler(s, m); }
  }

  lemma KeepStarted(s: State, t: State, p: Pid)
    requires Inv(s) && Started(s, t, p)
    ensures Inv(t)
  {
    StartedProcs(s, t, p);
    StartedCalls(s, t, p);
    StartedRest(s, t, p);
  }

  lemma KeepStart(s: State, p: Pid, n: Node, k: Key)
    requires Inv(s) && CanStart(s, p, n)
    ensures Inv(DoStart(s, p, n, k))
  {
    FreshPid(s, p);
    if (n, k) in s.callMap { assert OkEntry(s, (n, k)); }
    KeepStarted(s, DoStart(s, p, n, k), p);
  }

  lemma ElectProcs(s: State, p: Pid, id: Id)
    requires Inv(s) && CanElect(s, p, id)
    ensures Procs(DoElect(s, p, id))
  {
    var t := DoElect(s, p, id);
    Around(s, p);
    forall q | q in t.procs ensures OkProc(t, q) { assert OkProc(s, q); }
  }

  lemma ElectLinks(s: State, p: Pid, id: Id)
    requires Inv(s) && CanElect(s, p, id)
    ensures Links(DoElect(s, p, id))
  {
    var t := DoElect(s, p, id);
    Around(s, p);
    forall q | q in t.procs ensures OkLink(t, q) { assert OkLink(s, q); }
  }

  lemma ElectCalls(s: State, p: Pid, id: Id)
    requires Inv(s) && CanElect(s, p, id)
    ensures Calls(DoElect(s, p, id)) && Flights(DoElect(s, p, id))
  {
    var t := DoElect(s, p, id);
    Around(s, p);
    forall c | c in t.calls ensures OkCall(t, c) { if c != p { assert OkCall(s, c); } }
    forall i | i in t.leaderOf ensures OkFlight(t, i) { if i in s.leaderOf { assert OkFlight(s, i); } }
  }

  lemma ElectRest(s: State, p: Pid, id: Id)
    requires Inv(s) && CanElect(s, p, id)
    ensures var t := DoElect(s, p, id); Locks(t) && Entries(t) && Mutexes(t) && Handlers(t) && History(t)
  {
    var t := DoElect(s, p, id);
    Around(s, p);
    forall k | k in t.locks ensures OkLock(t, k) { if k in s.locks { assert OkLock(s, k); } }
    forall e | e in t.callMap ensures OkEntry(t, e) { if e != Entry(s, p) { assert OkEntry(s, e); } }
    forall n | n in t.mutex ensures OkMutex(t, n) { assert OkMutex(s, n); }
    forall n | n in t.handler ensures OkHandler(t, n) { assert OkHandler(s, n); }
  }

  lemma KeepElect(s: State, p: Pid, id: Id)
    requires Inv(s) && CanElect(s, p, id)
    ensures Inv(DoElect(s, p, id))
  {
    ElectProcs(s, p, id);
    ElectLinks(s, p, id);
    ElectCalls(s, p, id);
    ElectRest(s, p, id);
  }

  // ---------------------------------------------------------------- every run

  /** Every action of the protocol keeps the invariant. */
  lemma KeepInv(s: State, a: Action)
    requires Inv(s) && Next(s, a).Some?
    ensures Inv(Next(s, a).value)
  {
    match a
    case Start(p, n, k) => KeepStart(s, p, n, k);
    case Elect(p, id) => KeepElect(s, p, id);
    case Renew(p) => KeepRenew(s, p);
    case FnReturn(p, out) => KeepFnReturn(s, p, out);
    case Fill(p) => KeepFill(s, p);
    case Wake(p) => KeepWake(s, p);
    case Store(p) => KeepStore(s, p);
    case Unlock(p) => KeepUnlock(s, p);
    case Remove(p) => KeepRemove(s, p);
    case Publish(p) => KeepPublish(s, p);
    case JoinReturn(p) => KeepJoinReturn(s, p);
    case FollowerRemove(p) => KeepFollowerRemove(s, p);
    case Collect(p) => KeepCollect(s, p);
    case PollHit(c) => KeepPollHit(s, c);
    case PollDone(c) => KeepPollDone(s, c);
    case PollExit(c) => KeepPollExit(s, c);
    case Deliver(n) => KeepDeliver(s, n);
    case Fetch(n) => KeepFetch(s, n);
    case HandlerDone(n) => KeepHandlerDone(s, n);
    case Lose(n) => KeepLose(s, n);
  }

  lemma {:induction false} RunsKeepInv(s: State, acts: seq<Action>)
    requires Inv(s) && Exec(s, acts).Some?
    ensures Inv(Exec(s, acts).value)
    decreases |acts|
  {
    if acts != [] {
      KeepInv(s, acts[0]);
      RunsKeepInv(Next(s, acts[0]).value, acts[1..]);
    }
  }
}
