/** When exactly a newly elected flight is safe from a publish of an older flight of its key. */
module FlightQuiet {
  import opened Common
  import opened CacheItems
  import opened DistributedFlight
  import opened FlightInvariant
  import opened FlightTheorems
  import opened FlightProgress
  import opened FlightClean

  ghost predicate NoMessage(s: State, k: Key, n: Node) {
    n in s.inbox ==> k !in s.inbox[n]
  }

  /** `l` is not a leader of `k` that has deleted its lock and not yet published. */
  ghost predicate NotPending(s: State, k: Key, l: Pid) {
    l in s.procs && s.procs[l].key == k && s.procs[l].phase.Leader? ==> Rank(s.procs[l].phase.stage) < 5
  }

  /** No publish of `k` is under way or still to come from a finished flight. */
  ghost predicate Quiet(s: State, k: Key) {
    && (forall n {:trigger NoMessage(s, k, n)} :: NoMessage(s, k, n))
    && (forall l {:trigger NotPending(s, k, l)} :: NotPending(s, k, l))
  }

  /** Do q returned through a call of flight `id`. */
  predicate Returns(s: State, q: Pid, id: Id) {
    q in s.procs && s.procs[q].phase.Returned? && s.procs[q].phase.via in s.calls &&
      s.calls[s.procs[q].phase.via].id == id
  }

  /** It is the leader, or handed back the flight's own result. */
  predicate Right(s: State, q: Pid, id: Id)
    requires Returns(s, q, id)
  {
    (id in s.leaderOf && s.leaderOf[id] == q) || (id in s.runs && s.procs[q].phase.out == Result(s.runs[id]))
  }

  /** In every continuation everyone served by flight `id` gets that flight's result. */
  ghost predicate AllRight(s: State, id: Id) {
    forall acts, q :: Exec(s, acts).Some? && Returns(Exec(s, acts).value, q, id) ==> Right(Exec(s, acts).value, q, id)
  }

  // ---------------------------------------------------------------- a quiet election is safe

  ghost predicate FineHandler(s: State, id: Id, n: Node) {
    n in s.handler && s.handler[n].Got? && s.handler[n].call in s.calls && s.calls[s.handler[n].call].id == id ==>
      id in s.results
  }

  ghost predicate FineCall(s: State, id: Id, c: Pid) {
    c in s.calls && s.calls[c].id == id && s.calls[c].item.Some? ==> id in s.runs && s.calls[c].item.value == s.runs[id]
  }

  ghost predicate FineReturn(s: State, id: Id, q: Pid) {
    Returns(s, q, id) ==> Right(s, q, id)
  }

  ghost predicate Fine(s: State, k: Key, id: Id) {
    && FlightOf(s, k, id)
    && (id !in s.results ==> Quiet(s, k))
    && (forall n {:trigger FineHandler(s, id, n)} :: FineHandler(s, id, n))
    && (forall c {:trigger FineCall(s, id, c)} :: FineCall(s, id, c))
    && (forall q {:trigger FineReturn(s, id, q)} :: FineReturn(s, id, q))
  }

  /** Pollers, handlers, watchdogs and lost messages move no Do. */
  lemma HelpersKeepProcs(s: State, a: Action, t: State)
    requires Next(s, a) == Some(t)
    requires a.Renew? || a.PollHit? || a.PollDone? || a.PollExit? || a.Deliver? || a.Fetch? || a.HandlerDone? || a.Lose?
    ensures t.procs == s.procs
  {
  }

  lemma PendingFromStart(s: State, a: Action, t: State, l: Pid)
    requires Next(s, a) == Some(t) && (a.Start? || a.Elect?)
    ensures l in t.procs && t.procs[l].phase.Leader? && Rank(t.procs[l].phase.stage) >= 5 ==>
            l in s.procs && s.procs[l] == t.procs[l]
  {
    hide GetSetNX, NewCall;
  }

  lemma PendingFromReturn(s: State, a: Action, t: State, l: Pid)
    requires Next(s, a) == Some(t) && (a.JoinReturn? || a.FollowerRemove? || a.Collect? || a.Publish?)
    ensures l in t.procs && t.procs[l].phase.Leader? ==> l in s.procs && s.procs[l] == t.procs[l]
  {
    hide Result;
  }

  lemma PendingFromLeader(s: State, a: Action, t: State, l: Pid)
    requires Next(s, a) == Some(t) && (a.FnReturn? || a.Fill? || a.Wake? || a.Store? || a.Unlock? || a.Remove?)
    ensures l in t.procs && t.procs[l].phase.Leader? && Rank(t.procs[l].phase.stage) >= 5 ==>
              l in s.procs && s.procs[l].key == t.procs[l].key && s.procs[l].phase.Leader? &&
                Rank(s.procs[l].phase.stage) >= 4
  {
    hide NewCacheItem, Done;
  }

  /** A leader that is past DEL was there before the step, or did DEL in it. */
  lemma PendingFrom(s: State, a: Action, t: State, l: Pid)
    requires Next(s, a) == Some(t)
    ensures l in t.procs && t.procs[l].phase.Leader? && Rank(t.procs[l].phase.stage) >= 5 ==>
              l in s.procs && s.procs[l].key == t.procs[l].key && s.procs[l].phase.Leader? &&
                Rank(s.procs[l].phase.stage) >= 4
  {
    hide Next;
    match a
    case Start(_, _, _) => PendingFromStart(s, a, t, l);
    case Elect(_, _) => PendingFromStart(s, a, t, l);
    case JoinReturn(_) => PendingFromReturn(s, a, t, l);
    case FollowerRemove(_) => PendingFromReturn(s, a, t, l);
    case Collect(_) => PendingFromReturn(s, a, t, l);
    case Publish(_) => PendingFromReturn(s, a, t, l);
    case FnReturn(_, _) => PendingFromLeader(s, a, t, l);
    case Fill(_) => PendingFromLeader(s, a, t, l);
    case Wake(_) => PendingFromLeader(s, a, t, l);
    case Store(_) => PendingFromLeader(s, a, t, l);
    case Unlock(_) => PendingFromLeader(s, a, t, l);
    case Remove(_) => PendingFromLeader(s, a, t, l);
    case _ => HelpersKeepProcs(s, a, t);
  }

  /** While the flight's result is not stored, its leader holds the lock and no other leader of the key can finish. */
  lemma QuietKept(s: State, a: Action, t: State, k: Key, id: Id)
    requires Inv(s) && Next(s, a) == Some(t) && FlightOf(s, k, id) && Quiet(s, k) && id !in s.results
    ensures Quiet(t, k)
  {
    hide Next;
    forall n ensures NoMessage(t, k, n) {
      assert NoMessage(s, k, n);
      if a.Publish? { assert NotPending(s, k, a.pid); }
      InboxFrom(s, a, t, n, k);
    }
    forall l ensures NotPending(t, k, l) {
      assert NotPending(s, k, l);
      assert OkFlight(s, id) && OkProc(s, s.leaderOf[id]);
      if l in s.procs { assert OkProc(s, l); }
      PendingFrom(s, a, t, l);
    }
  }

  lemma FineHandlerKept(s: State, a: Action, t: State, k: Key, id: Id, n: Node)
    requires Inv(s) && Next(s, a) == Some(t) && Grows(s, t) && Fine(s, k, id)
    ensures FineHandler(t, id, n)
  {
    hide Next;
    if n in t.handler && t.handler[n].Got? && t.handler[n].call in t.calls && t.calls[t.handler[n].call].id == id {
      HandlerFrom(s, a, t, n);
      assert OkHandler(s, n) && FineHandler(s, id, n);
      if t.handler[n] != s.handler[n] {
        var e := (n, s.inbox[n][0]);
        assert OkEntry(s, e) && OkCall(s, s.callMap[e]);
        assert k in s.inbox[n];
        assert Quiet(s, k) ==> NoMessage(s, k, n);
      }
    }
  }

  lemma FineCallKept(s: State, a: Action, t: State, k: Key, id: Id, c: Pid)
    requires Inv(s) && Next(s, a) == Some(t) && Grows(s, t) && Fine(s, k, id)
    ensures FineCall(t, id, c)
  {
    hide Next;
    if c in t.calls && t.calls[c].id == id && t.calls[c].item.Some? {
      ItemFrom(s, a, t, c);
      assert FineCall(s, id, c);
      assert OkFlight(s, id);
      if a == Fill(c) && c in s.procs { Around(s, c); }
      if a.Fetch? { assert FineHandler(s, id, a.node); }
    }
  }

  lemma FineReturnKept(s: State, a: Action, t: State, k: Key, id: Id, q: Pid)
    requires Inv(s) && Next(s, a) == Some(t) && Grows(s, t) && Fine(s, k, id)
    ensures FineReturn(t, id, q)
  {
    hide Next;
    if Returns(t, q, id) {
      ReturnFrom(s, a, t, q);
      assert OkLink(s, q) && FineReturn(s, id, q);
      Around(s, q);
      if t.procs[q] != s.procs[q] && a != Publish(q) { assert FineCall(s, id, t.procs[q].phase.via); }
    }
  }

  lemma FineKept(s: State, a: Action, t: State, k: Key, id: Id)
    requires Inv(s) && Next(s, a) == Some(t) && Fine(s, k, id)
    ensures Fine(t, k, id)
  {
    StepGrows(s, a, t);
    if id !in t.results { QuietKept(s, a, t, k, id); }
    forall n ensures FineHandler(t, id, n) { FineHandlerKept(s, a, t, k, id, n); }
    forall c ensures FineCall(t, id, c) { FineCallKept(s, a, t, k, id, c); }
    forall q ensures FineReturn(t, id, q) { FineReturnKept(s, a, t, k, id, q); }
  }

  lemma {:induction false} RunsFine(s: State, acts: seq<Action>, k: Key, id: Id)
    requires Inv(s) && Exec(s, acts).Some? && Fine(s, k, id)
    ensures Fine(Exec(s, acts).value, k, id)
    decreases |acts|
  {
    if acts != [] {
      FineKept(s, acts[0], Next(s, acts[0]).value, k, id);
      KeepInv(s, acts[0]);
      RunsFine(Next(s, acts[0]).value, acts[1..], k, id);
    }
  }

  lemma FineFromElection(s: State, p: Pid, id: Id)
    requires Inv(s) && CanElect(s, p, id) && s.procs[p].key !in s.locks && Quiet(s, s.procs[p].key)
    ensures Fine(DoElect(s, p, id), s.procs[p].key, id)
  {
    var k, t := s.procs[p].key, DoElect(s, p, id);
    assert OkProc(s, p);
    forall n ensures NoMessage(t, k, n) { assert NoMessage(s, k, n); }
    forall l ensures NotPending(t, k, l) { assert NotPending(s, k, l); }
    forall n ensures FineHandler(t, id, n) {
      if n in s.handler && s.handler[n].Got? { assert OkHandler(s, n) && OkCall(s, s.handler[n].call); }
    }
    forall c ensures FineCall(t, id, c) { if c in s.calls { assert OkCall(s, c); } }
    forall q ensures FineReturn(t, id, q) {
      if q in s.procs && s.procs[q].phase.Returned? { assert OkLink(s, q) && OkCall(s, s.procs[q].phase.via); }
    }
  }

  lemma QuietElectionSafe(s: State, p: Pid, id: Id)
    requires Inv(s) && CanElect(s, p, id) && s.procs[p].key !in s.locks && Quiet(s, s.procs[p].key)
    ensures AllRight(DoElect(s, p, id), id)
  {
    var t := DoElect(s, p, id);
    FineFromElection(s, p, id);
    KeepElect(s, p, id);
    forall acts, q | Exec(t, acts).Some? &&
      Returns(Exec(t, acts).value, q, id) ensures Right(Exec(t, acts).value, q, id) {
      RunsFine(t, acts, s.procs[p].key, id);
      assert FineReturn(Exec(t, acts).value, id, q);
    }
  }

  // ---------------------------------------------------------------- any other election can go wrong

  /** Do q is handed the transport error instead of the result of flight `id`. */
  ghost predicate Wrong(s: State, q: Pid, id: Id) {
    Returns(s, q, id) && !Right(s, q, id) && s.procs[q].phase.out == Result(TRANSPORT_ERROR)
  }

  ghost predicate CanGoWrong(s: State, id: Id) {
    exists acts, q :: Exec(s, acts).Some? && Wrong(Exec(s, acts).value, q, id)
  }

  lemma WrongLater(s: State, a: Action, id: Id)
    ensures Next(s, a).Some? && CanGoWrong(Next(s, a).value, id) ==> CanGoWrong(s, id)
  {
    if Next(s, a).None? || !CanGoWrong(Next(s, a).value, id) { return; }
    var acts, q :| Exec(Next(s, a).value, acts).Some? && Wrong(Exec(Next(s, a).value, acts).value, q, id);
    var all := [a] + acts;
    assert all[1..] == acts;
    assert Exec(s, all) == Exec(Next(s, a).value, acts);
  }

  /** Do p leads flight `id` of `k`, its fn still running, and a message for `k` is on its way to node `m`. */
  ghost predicate Scene(s: State, p: Pid, id: Id, k: Key, m: Node) {
    && Inv(s) && AtStage(s, p, Running) && s.calls[p].id == id && s.procs[p].key == k
    && m in s.inbox && k in s.inbox[m]
  }

  /** Moreover node `m` has a call `c` of flight `id`, its d.lock is free, and Do r waits on the call. */
  ghost predicate Waiting(s: State, p: Pid, id: Id, k: Key, m: Node, c: Pid, r: Pid) {
    && Scene(s, p, id, k, m)
    && m !in s.mutex && (m, k) in s.callMap && s.callMap[(m, k)] == c && c in s.calls && s.calls[c].id == id
    && r in s.procs && s.procs[r].phase == Joined(c)
  }

  /** While fn runs the flight has no result, and its lock is held. */
  lemma StillRunning(s: State, p: Pid)
    requires Inv(s) && AtStage(s, p, Running)
    ensures var id := s.calls[p].id;
            id in s.leaderOf && s.leaderOf[id] == p && id !in s.runs && id !in s.results
            && s.procs[p].key in s.locks && s.locks[s.procs[p].key] == id
  {
    Around(s, p);
  }

  lemma WrongReturn(s: State, p: Pid, id: Id, c: Pid, r: Pid)
    requires Inv(s) && AtStage(s, p, Running) && s.calls[p].id == id
    requires CanJoinReturn(s, r) && s.procs[r].phase.call == c && s.calls[c].id == id
    ensures CanGoWrong(s, id)
  {
    StillRunning(s, p);
    assert OkCall(s, c);
    var t := DoJoinReturn(s, r);
    assert Exec(t, []) == Some(t);
    assert Wrong(t, r, id);
    WrongLater(s, JoinReturn(r), id);
  }

  lemma HandlerReleases(s: State, p: Pid, id: Id, m: Node, c: Pid, r: Pid)
    requires Inv(s) && AtStage(s, p, Running) && s.calls[p].id == id
    requires m in s.handler && s.handler[m] == Fetched(c) && c in s.calls && s.calls[c].id == id
    requires r in s.procs && s.procs[r].phase == Joined(c)
    ensures CanHandlerDone(s, m)
    ensures var t := DoHandlerDone(s, m);
            && Inv(t) && AtStage(t, p, Running) && t.calls[p].id == id
            && CanJoinReturn(t, r) && t.procs[r].phase.call == c && t.calls[c].id == id
  {
    assert OkHandler(s, m) && OkCall(s, c);
    hide OkProc, OkFlight, OkLink, OkLock, OkEntry;
    KeepHandlerDone(s, m);
  }

  lemma WrongDone(s: State, p: Pid, id: Id, m: Node, c: Pid, r: Pid)
    requires Inv(s) && AtStage(s, p, Running) && s.calls[p].id == id
    requires m in s.handler && s.handler[m] == Fetched(c) && c in s.calls && s.calls[c].id == id
    requires r in s.procs && s.procs[r].phase == Joined(c)
    ensures CanGoWrong(s, id)
  {
    hide Inv, CanGoWrong, AtStage, CanJoinReturn, DoHandlerDone;
    HandlerReleases(s, p, id, m, c, r);
    WrongReturn(DoHandlerDone(s, m), p, id, c, r);
    WrongLater(s, HandlerDone(m), id);
  }

  lemma WrongFetch(s: State, p: Pid, id: Id, m: Node, c: Pid, r: Pid)
    requires Inv(s) && AtStage(s, p, Running) && s.calls[p].id == id
    requires m in s.handler && s.handler[m] == Got(c) && c in s.calls && s.calls[c].id == id
    requires r in s.procs && s.procs[r].phase == Joined(c)
    ensures CanGoWrong(s, id)
  {
    hide Inv, CanGoWrong;
    KeepFetch(s, m);
    WrongDone(DoFetch(s, m), p, id, m, c, r);
    WrongLater(s, Fetch(m), id);
  }

  lemma LoseEarlier(s: State, p: Pid, id: Id, k: Key, m: Node, c: Pid, r: Pid)
    requires Waiting(s, p, id, k, m, c, r) && m in s.handler && s.handler[m].Idle? && s.inbox[m] != []
    requires s.inbox[m][0] != k
    ensures CanLose(s, m) && DoLose(s, m).handler == s.handler && |DoLose(s, m).inbox[m]| < |s.inbox[m]|
    ensures Waiting(DoLose(s, m), p, id, k, m, c, r)
  {
    hide Inv;
    KeepLose(s, m);
  }

  lemma DeliverHere(s: State, p: Pid, id: Id, k: Key, m: Node, c: Pid, r: Pid)
    requires Waiting(s, p, id, k, m, c, r) && m in s.handler && s.handler[m].Idle? && s.inbox[m] != []
    requires s.inbox[m][0] == k
    ensures CanDeliver(s, m)
    ensures var t := DoDeliver(s, m);
            && Inv(t) && AtStage(t, p, Running) && t.calls[p].id == id && m in t.handler && t.handler[m] == Got(c)
            && c in t.calls && t.calls[c].id == id && r in t.procs && t.procs[r].phase == Joined(c)
  {
    hide Inv;
    KeepDeliver(s, m);
  }

  /** Earlier messages are lost, the one for `k` is delivered. */
  lemma {:induction false} WrongDeliver(s: State, p: Pid, id: Id, k: Key, m: Node, c: Pid, r: Pid)
    requires Waiting(s, p, id, k, m, c, r) && m in s.handler && s.handler[m].Idle?
    ensures CanGoWrong(s, id)
    decreases |s.inbox[m]|
  {
    hide Inv, CanGoWrong, DoDeliver, DoLose, CanDeliver, CanLose, AtStage;
    if s.inbox[m][0] == k {
      DeliverHere(s, p, id, k, m, c, r);
      WrongFetch(DoDeliver(s, m), p, id, m, c, r);
      WrongLater(s, Deliver(m), id);
    } else {
      LoseEarlier(s, p, id, k, m, c, r);
      WrongDeliver(DoLose(s, m), p, id, k, m, c, r);
      WrongLater(s, Lose(m), id);
    }
  }

  lemma WrongFetched(s: State, p: Pid, id: Id, k: Key, m: Node, c: Pid, r: Pid)
    requires Waiting(s, p, id, k, m, c, r) && CanHandlerDone(s, m)
    ensures CanGoWrong(s, id)
  {
    hide Inv, CanGoWrong;
    KeepHandlerDone(s, m);
    WrongDeliver(DoHandlerDone(s, m), p, id, k, m, c, r);
    WrongLater(s, HandlerDone(m), id);
  }

  lemma WrongGot(s: State, p: Pid, id: Id, k: Key, m: Node, c: Pid, r: Pid)
    requires Waiting(s, p, id, k, m, c, r) && CanFetch(s, m)
    ensures CanGoWrong(s, id)
  {
    hide Inv, CanGoWrong;
    KeepFetch(s, m);
    WrongFetched(DoFetch(s, m), p, id, k, m, c, r);
    WrongLater(s, Fetch(m), id);
  }

  /** The node's handler finishes what it is doing first. */
  lemma WrongHandle(s: State, p: Pid, id: Id, k: Key, m: Node, c: Pid, r: Pid)
    requires Waiting(s, p, id, k, m, c, r)
    ensures CanGoWrong(s, id)
  {
    hide CanGoWrong;
    assert m in s.handler.Keys;
    assert OkHandler(s, m);
    if s.handler[m].Idle? {
      WrongDeliver(s, p, id, k, m, c, r);
    } else if s.handler[m].Got? {
      WrongGot(s, p, id, k, m, c, r);
    } else {
      WrongFetched(s, p, id, k, m, c, r);
    }
  }

  /** A new Do of the node joins its call of flight `id`. */
  lemma WrongJoin(s: State, p: Pid, id: Id, k: Key, m: Node)
    requires Scene(s, p, id, k, m) && m !in s.mutex
    requires (m, k) in s.callMap && s.callMap[(m, k)] in s.calls && s.calls[s.callMap[(m, k)]].id == id
    ensures CanGoWrong(s, id)
  {
    var r := UnusedId(s.procs.Keys);
    assert r !in s.procs.Keys;
    KeepStart(s, r, m, k);
    WrongHandle(DoStart(s, r, m, k), p, id, k, m, s.callMap[(m, k)], r);
    WrongLater(s, Start(r, m, k), id);
  }

  /** An electing Do of `k` finds the lock taken and follows flight `id`. */
  lemma WrongFollow(s: State, p: Pid, id: Id, k: Key, m: Node, q: Pid)
    requires Scene(s, p, id, k, m) && q in s.procs && s.procs[q].phase.Electing? && Entry(s, q) == (m, k)
    ensures CanGoWrong(s, id)
  {
    var i := UnusedId(s.leaderOf.Keys);
    assert i !in s.leaderOf.Keys;
    StillRunning(s, p);
    KeepElect(s, q, i);
    WrongJoin(DoElect(s, q, i), p, id, k, m);
    WrongLater(s, Elect(q, i), id);
  }

  lemma WrongStart(s: State, p: Pid, id: Id, k: Key, m: Node)
    requires Scene(s, p, id, k, m) && m !in s.mutex && (m, k) !in s.callMap
    ensures CanGoWrong(s, id)
  {
    var q := UnusedId(s.procs.Keys);
    assert q !in s.procs.Keys;
    KeepStart(s, q, m, k);
    WrongFollow(DoStart(s, q, m, k), p, id, k, m, q);
    WrongLater(s, Start(q, m, k), id);
  }

  /** A released follower of an older flight leaves its entry. */
  lemma WrongFired(s: State, p: Pid, id: Id, k: Key, m: Node, c: Pid)
    requires Scene(s, p, id, k, m) && m !in s.mutex && (m, k) in s.callMap && s.callMap[(m, k)] == c
    requires c in s.procs && s.procs[c].phase.Following? && c in s.calls && s.calls[c].fired
    ensures CanGoWrong(s, id)
  {
    assert OkEntry(s, (m, k)) && OkCall(s, c);
    KeepFollowerRemove(s, c);
    WrongStart(DoFollowerRemove(s, c), p, id, k, m);
    WrongLater(s, FollowerRemove(c), id);
  }

  lemma WrongFilled(s: State, p: Pid, id: Id, k: Key, m: Node, c: Pid)
    requires Scene(s, p, id, k, m) && m !in s.mutex && (m, k) in s.callMap && s.callMap[(m, k)] == c
    requires c in s.procs && s.procs[c].phase.Following? && CanPollDone(s, c)
    ensures CanGoWrong(s, id)
  {
    KeepPollDone(s, c);
    WrongFired(DoPollDone(s, c), p, id, k, m, c);
    WrongLater(s, PollDone(c), id);
  }

  lemma WrongPolled(s: State, p: Pid, id: Id, k: Key, m: Node, c: Pid)
    requires Scene(s, p, id, k, m) && m !in s.mutex && (m, k) in s.callMap && s.callMap[(m, k)] == c
    requires c in s.procs && s.procs[c].phase.Following? && CanPollHit(s, c)
    ensures CanGoWrong(s, id)
  {
    KeepPollHit(s, c);
    WrongFilled(DoPollHit(s, c), p, id, k, m, c);
    WrongLater(s, PollHit(c), id);
  }

  lemma WrongUnlocked(s: State, p: Pid, id: Id, k: Key, m: Node, c: Pid)
    requires Scene(s, p, id, k, m) && m !in s.mutex && (m, k) in s.callMap && s.callMap[(m, k)] == c
    requires AtStage(s, c, Unlocked)
    ensures CanGoWrong(s, id)
  {
    assert OkEntry(s, (m, k));
    StillRunning(s, p);
    KeepRemove(s, c);
    WrongStart(DoRemove(s, c), p, id, k, m);
    WrongLater(s, Remove(c), id);
  }

  /** An entry of another flight belongs to one that has stored its result. */
  lemma StaleEntry(s: State, p: Pid, id: Id, k: Key, m: Node)
    requires Scene(s, p, id, k, m) && (m, k) in s.callMap
    ensures var c := s.callMap[(m, k)];
            && c in s.procs && c in s.calls && (s.procs[c].phase.Following? || s.procs[c].phase.Leader?)
            && (s.calls[c].id != id && s.procs[c].phase.Leader? ==> AtStage(s, c, Unlocked))
            && (s.calls[c].id != id && s.procs[c].phase.Following? ==>
                  s.calls[c].fired || CanPollDone(s, c) || CanPollHit(s, c))
  {
    StillRunning(s, p);
    var c := s.callMap[(m, k)];
    assert OkEntry(s, (m, k)) && OkProc(s, c) && OkCall(s, c);
    var i := s.calls[c].id;
    assert OkFlight(s, i) && OkProc(s, s.leaderOf[i]);
  }

  lemma WrongFree(s: State, p: Pid, id: Id, k: Key, m: Node)
    requires Scene(s, p, id, k, m) && m !in s.mutex
    ensures CanGoWrong(s, id)
  {
    hide Inv, CanGoWrong;
    if (m, k) !in s.callMap {
      WrongStart(s, p, id, k, m);
    } else {
      var c := s.callMap[(m, k)];
      StaleEntry(s, p, id, k, m);
      if s.calls[c].id == id {
        WrongJoin(s, p, id, k, m);
      } else if s.procs[c].phase.Leader? {
        WrongUnlocked(s, p, id, k, m, c);
      } else if s.calls[c].fired {
        WrongFired(s, p, id, k, m, c);
      } else if CanPollDone(s, c) {
        WrongFilled(s, p, id, k, m, c);
      } else {
        WrongPolled(s, p, id, k, m, c);
      }
    }
  }

  lemma WrongElsewhere(s: State, p: Pid, id: Id, k: Key, m: Node, q: Pid)
    requires Scene(s, p, id, k, m) && m in s.mutex && s.mutex[m] == q && q in s.procs && s.procs[q].phase.Electing?
    requires s.procs[q].node == m
    ensures CanGoWrong(s, id)
  {
    var i := UnusedId(s.leaderOf.Keys);
    assert i !in s.leaderOf.Keys;
    KeepElect(s, q, i);
    WrongFree(DoElect(s, q, i), p, id, k, m);
    WrongLater(s, Elect(q, i), id);
  }

  /** A message for the key that meets a running flight can hand that flight's waiters the transport error. */
  lemma WrongScene(s: State, p: Pid, id: Id, k: Key, m: Node)
    requires Scene(s, p, id, k, m)
    ensures CanGoWrong(s, id)
  {
    hide CanGoWrong;
    if m in s.mutex {
      var q := s.mutex[m];
      assert OkMutex(s, m);
      if s.procs[q].key == k { WrongFollow(s, p, id, k, m, q); } else { WrongElsewhere(s, p, id, k, m, q); }
    } else {
      WrongFree(s, p, id, k, m);
    }
  }

  /** A leader of the key that has still to publish puts such a message on its way to every node. */
  lemma WrongPublish(s: State, p: Pid, id: Id, k: Key, l: Pid)
    requires Inv(s) && AtStage(s, p, Running) && s.calls[p].id == id && s.procs[p].key == k
    requires AtStage(s, l, Removed) && s.procs[l].key == k
    ensures CanGoWrong(s, id)
  {
    assert OkProc(s, p);
    var m := s.procs[p].node;
    KeepPublish(s, l);
    WrongScene(DoPublish(s, l), p, id, k, m);
    WrongLater(s, Publish(l), id);
  }

  lemma WrongRemove(s: State, p: Pid, id: Id, k: Key, l: Pid)
    requires Inv(s) && AtStage(s, p, Running) && s.calls[p].id == id && s.procs[p].key == k
    requires CanRemove(s, l) && s.procs[l].key == k
    ensures CanGoWrong(s, id)
  {
    KeepRemove(s, l);
    WrongPublish(DoRemove(s, l), p, id, k, l);
    WrongLater(s, Remove(l), id);
  }

  lemma WrongPending(s: State, p: Pid, id: Id, k: Key, l: Pid)
    requires Inv(s) && AtStage(s, p, Running) && s.calls[p].id == id && s.procs[p].key == k
    requires !NotPending(s, k, l)
    ensures CanGoWrong(s, id)
  {
    assert OkProc(s, l);
    if s.procs[l].phase.stage.Removed? {
      WrongPublish(s, p, id, k, l);
    } else if s.procs[l].node !in s.mutex {
      WrongRemove(s, p, id, k, l);
    } else {
      assert OkProc(s, p);
      var a, t := FreeLock(s, s.procs[l].node);
      WrongRemove(t, p, id, k, l);
      WrongLater(s, a, id);
    }
  }

  lemma UnquietElectionWrong(s: State, p: Pid, id: Id)
    requires Inv(s) && CanElect(s, p, id) && s.procs[p].key !in s.locks && !Quiet(s, s.procs[p].key)
    ensures CanGoWrong(DoElect(s, p, id), id)
  {
    var k, t := s.procs[p].key, DoElect(s, p, id);
    KeepElect(s, p, id);
    if m :| !NoMessage(s, k, m) {
      WrongScene(t, p, id, k, m);
    } else {
      var l :| !NotPending(s, k, l);
      WrongPending(t, p, id, k, l);
    }
  }

  /** The exact condition under which "no waiter is handed a spurious transport error" holds of a flight: when its
      leader wins the election, no publish of the key may be on its way and no earlier leader of the key may have
      deleted its lock without having published yet. Then every Do served by the flight, in every continuation, gets
      the flight's result; otherwise some continuation hands one the transport error. */
  lemma CleanElection(s: State, p: Pid, id: Id)
    requires Reachable(s) && CanElect(s, p, id) && s.procs[p].key !in s.locks
    ensures AllRight(DoElect(s, p, id), id) <==> Quiet(s, s.procs[p].key)
    ensures CanGoWrong(DoElect(s, p, id), id) <==> !Quiet(s, s.procs[p].key)
  {
    ReachableInv(s);
    if Quiet(s, s.procs[p].key) {
      QuietElectionSafe(s, p, id);
    } else {
      UnquietElectionWrong(s, p, id);
    }
  }
}
