/** When can a waiter be handed the transport error although no Redis command failed?
    Only when a publish of an older, already finished flight of the same key reaches a newer call. */
module FlightClean {
  import opened Common
  import opened CacheItems
  import opened DistributedFlight
  import opened FlightInvariant
  import opened FlightTheorems

  /** `id` was elected for key `k`. */
  ghost predicate FlightOf(s: State, k: Key, id: Id) {
    id in s.leaderOf && s.leaderOf[id] in s.procs && s.procs[s.leaderOf[id]].key == k
  }

  /** Flight `id` of key `k` has stored its result. */
  ghost predicate Finished(s: State, k: Key, id: Id) {
    FlightOf(s, k, id) && id in s.results
  }

  ghost predicate SomeFinished(s: State, k: Key) {
    exists i :: Finished(s, k, i)
  }

  ghost predicate OtherFinished(s: State, k: Key, id: Id) {
    exists i :: i != id && Finished(s, k, i)
  }

  /** A message for `k`, or a handler acting on one, exists only after some flight of `k` finished. */
  ghost predicate Posted(s: State, n: Node) {
    && (n in s.inbox ==> forall k :: k in s.inbox[n] ==> SomeFinished(s, k))
    && (n in s.handler && s.handler[n].Got? && s.handler[n].call in s.procs ==>
      SomeFinished(s, s.procs[s.handler[n].call].key))
  }

  /** A call holds its own flight's result, or another flight of its key had finished. */
  ghost predicate Explained(s: State, c: Pid) {
    c in s.calls && c in s.procs && s.calls[c].item.Some? ==>
      || (s.calls[c].id in s.runs && s.calls[c].item.value == s.runs[s.calls[c].id])
      || OtherFinished(s, s.procs[c].key, s.calls[c].id)
  }

  /** A Do handed back its own outcome or its flight's result, or another flight of its key had finished. */
  ghost predicate ExplainedReturn(s: State, p: Pid) {
    p in s.procs && s.procs[p].phase.Returned? && s.procs[p].phase.via in s.calls ==>
      var id := s.calls[s.procs[p].phase.via].id;
      || (id in s.leaderOf && s.leaderOf[id] == p)
      || (id in s.runs && s.procs[p].phase.out == Result(s.runs[id]))
      || OtherFinished(s, s.procs[p].key, id)
  }

  ghost predicate AllExplained(s: State) {
    && (forall n {:trigger Posted(s, n)} :: Posted(s, n))
    && (forall c {:trigger Explained(s, c)} :: Explained(s, c))
    && (forall p {:trigger ExplainedReturn(s, p)} :: ExplainedReturn(s, p))
  }

  // ---------------------------------------------------------------- what one step can do

  /** Histories only grow, and a Do never changes its node, key or call. */
  ghost predicate Grows(s: State, t: State) {
    && (forall p :: p in s.procs ==> p in t.procs && Entry(t, p) == Entry(s, p))
    && (forall i :: i in s.leaderOf ==> i in t.leaderOf && t.leaderOf[i] == s.leaderOf[i])
    && (forall i :: i in s.runs ==> i in t.runs && t.runs[i] == s.runs[i])
    && s.results.Keys <= t.results.Keys
    && (forall c :: c in s.calls ==> c in t.calls && t.calls[c].id == s.calls[c].id)
  }

  lemma ProcKept(s: State, a: Action, t: State, p: Pid)
    ensures Next(s, a) == Some(t) && p in s.procs ==>
            p in t.procs && t.procs[p].node == s.procs[p].node && t.procs[p].key == s.procs[p].key
  {
    hide NewCacheItem, Result, Done, NewCall, FetchItem, GetSetNX;
  }

  lemma ResultKept(s: State, a: Action, t: State, id: Id)
    ensures Next(s, a) == Some(t) && id in s.results ==> id in t.results
  {
    hide NewCacheItem, Result, Done, NewCall, FetchItem, GetSetNX;
  }

  lemma CallKept(s: State, a: Action, t: State, c: Pid)
    ensures Next(s, a) == Some(t) && c in s.calls && (a.Elect? ==> a.pid != c) ==>
            c in t.calls && t.calls[c].id == s.calls[c].id
  {
    hide NewCacheItem, Result, FetchItem;
  }

  lemma StepGrows(s: State, a: Action, t: State)
    requires Inv(s) && Next(s, a) == Some(t)
    ensures Grows(s, t)
  {
    forall p | p in s.procs ensures p in t.procs && Entry(t, p) == Entry(s, p) { ProcKept(s, a, t, p); }
    forall i | i in s.leaderOf ensures i in t.leaderOf && t.leaderOf[i] == s.leaderOf[i] { LeaderKept(s, a, i); }
    forall i | i in s.runs ensures i in t.runs && t.runs[i] == s.runs[i] { RunFixed(s, a, i); }
    forall i | i in s.results ensures i in t.results { ResultKept(s, a, t, i); }
    forall c | c in s.calls ensures c in t.calls && t.calls[c].id == s.calls[c].id {
      if a.Elect? { assert OkProc(s, a.pid); }
      CallKept(s, a, t, c);
    }
  }

  lemma InboxFrom(s: State, a: Action, t: State, n: Node, k: Key)
    ensures Next(s, a) == Some(t) && n in t.inbox && k in t.inbox[n] ==>
      n in s.inbox && (k in s.inbox[n] || (a.Publish? && AtStage(s, a.pid, Removed) && k == s.procs[a.pid].key))
  {
    hide NewCacheItem, Result, Done, NewCall, FetchItem, GetSetNX;
  }

  lemma HandlerFrom(s: State, a: Action, t: State, n: Node)
    ensures Next(s, a) == Some(t) && n in t.handler && t.handler[n].Got? ==>
      n in s.handler && (t.handler[n] == s.handler[n] ||
              (a == Deliver(n) && CanDeliver(s, n) && var e := (n, s.inbox[n][0]);
                e in s.callMap && t.handler[n].call == s.callMap[e]))
  {
    hide NewCacheItem, Result, Done, NewCall, FetchItem, GetSetNX;
  }

  lemma ItemFrom(s: State, a: Action, t: State, c: Pid)
    ensures Next(s, a) == Some(t) && c in t.calls && t.calls[c].item.Some? ==>
      || (c in s.calls && t.calls[c].item == s.calls[c].item && t.calls[c].id == s.calls[c].id)
      || (a == Fill(c) && AtStage(s, c, Ran) && t.calls[c].item.value == NewCacheItem(s.procs[c].phase.out))
      || (a == PollHit(c) && CanPollHit(s, c) && t.calls[c].item.value == s.results[s.calls[c].id])
      || (a.Fetch? && CanFetch(s, a.node) && s.handler[a.node] == Got(c) &&
        t.calls[c].item.value == FetchItem(s.results, s.calls[c].id))
  {
    hide NewCacheItem, Result, FetchItem, GetSetNX;
  }

  lemma ReturnFrom(s: State, a: Action, t: State, p: Pid)
    ensures Next(s, a) == Some(t) && p in t.procs && t.procs[p].phase.Returned? ==>
      p in s.procs && (t.procs[p] == s.procs[p]
      || (a == Publish(p) && AtStage(s, p, Removed) && t.procs[p].phase.via == p)
      || (var c := t.procs[p].phase.via;
           ((a == JoinReturn(p) && CanJoinReturn(s, p) && c == s.procs[p].phase.call) ||
             (a == Collect(p) && CanCollect(s, p) && c == p)) &&
           c in s.calls && s.calls[c].item.Some? && t.procs[p].phase.out == Result(s.calls[c].item.value)))
  {
    hide NewCacheItem, Done, FetchItem, GetSetNX, NewCall;
  }

  // ---------------------------------------------------------------- keeping the explanation

  lemma FinishedKept(s: State, t: State, k: Key)
    requires Grows(s, t)
    ensures SomeFinished(s, k) ==> SomeFinished(t, k)
    ensures forall id :: OtherFinished(s, k, id) ==> OtherFinished(t, k, id)
  {
    assert forall i :: Finished(s, k, i) ==> Finished(t, k, i);
  }

  lemma PostedKept(s: State, a: Action, t: State, n: Node)
    requires Inv(s) && Next(s, a) == Some(t) && Grows(s, t) && Posted(s, n)
    ensures Posted(t, n)
  {
    if n in t.inbox {
      forall k | k in t.inbox[n] ensures SomeFinished(t, k) {
        InboxFrom(s, a, t, n, k);
        if k !in s.inbox[n] {
          Around(s, a.pid);
          assert Finished(s, k, s.calls[a.pid].id);
        }
        FinishedKept(s, t, k);
      }
    }
    if n in t.handler && t.handler[n].Got? && t.handler[n].call in t.procs {
      HandlerFrom(s, a, t, n);
      assert OkHandler(s, n);
      if t.handler[n] == s.handler[n] {
        assert OkCall(s, s.handler[n].call);
      } else {
        assert OkEntry(s, (n, s.inbox[n][0]));
      }
      FinishedKept(s, t, t.procs[t.handler[n].call].key);
    }
  }

  lemma ExplainedKept(s: State, a: Action, t: State, c: Pid)
    requires Inv(s) && Next(s, a) == Some(t) && Grows(s, t) && AllExplained(s)
    ensures Explained(t, c)
  {
    hide Next;
    if c in t.calls && c in t.procs && t.calls[c].item.Some? {
      ItemFrom(s, a, t, c);
      assert OkCall(s, c);
      assert OkFlight(s, s.calls[c].id);
      assert Explained(s, c);
      FinishedKept(s, t, s.procs[c].key);
      if a == Fill(c) { Around(s, c); }
      if a.Fetch? { assert Posted(s, a.node); }
    }
  }

  lemma ReturnKept(s: State, a: Action, t: State, p: Pid)
    requires Inv(s) && Next(s, a) == Some(t) && Grows(s, t) && AllExplained(s)
    ensures ExplainedReturn(t, p)
  {
    hide Next;
    if p in t.procs && t.procs[p].phase.Returned? && t.procs[p].phase.via in t.calls {
      ReturnFrom(s, a, t, p);
      assert OkLink(s, p) && ExplainedReturn(s, p);
      Around(s, p);
      FinishedKept(s, t, s.procs[p].key);
      var via := t.procs[p].phase.via;
      if t.procs[p] != s.procs[p] && a != Publish(p) {
        assert Explained(s, via);
        Around(s, via);
      }
    }
  }

  lemma {:induction false} RunsExplained(s: State, acts: seq<Action>)
    requires Inv(s) && AllExplained(s) && Exec(s, acts).Some?
    ensures AllExplained(Exec(s, acts).value)
    decreases |acts|
  {
    if acts != [] {
      var a, t := acts[0], Next(s, acts[0]).value;
      StepGrows(s, a, t);
      forall n ensures Posted(t, n) { assert Posted(s, n); PostedKept(s, a, t, n); }
      forall c ensures Explained(t, c) { ExplainedKept(s, a, t, c); }
      forall p ensures ExplainedReturn(t, p) { ReturnKept(s, a, t, p); }
      KeepInv(s, a);
      RunsExplained(t, acts[1..]);
    }
  }

  lemma InitExplained(nodes: set<Node>)
    ensures Inv(Init(nodes)) && AllExplained(Init(nodes))
  {
  }

  lemma ReachableExplained(s: State)
    requires Reachable(s)
    ensures Inv(s) && AllExplained(s)
  {
    hide AllExplained, Inv;
    var nodes, acts :| Exec(Init(nodes), acts) == Some(s);
    InitExplained(nodes);
    RunsExplained(Init(nodes), acts);
    RunsKeepInv(Init(nodes), acts);
  }

  lemma ReturnedWell(s: State, p: Pid)
    requires Inv(s) && ExplainedReturn(s, p) && p in s.procs && s.procs[p].phase.Returned?
    requires forall i, j :: FlightOf(s, s.procs[p].key, i) && FlightOf(s, s.procs[p].key, j) ==> i == j
    ensures var f := s.procs[p].phase;
            && f.via in s.calls && s.calls[f.via].id in s.leaderOf && s.calls[f.via].id in s.runs
            && (s.leaderOf[s.calls[f.via].id] == p || f.out == Result(s.runs[s.calls[f.via].id]))
  {
    assert OkLink(s, p);
    assert OkCall(s, s.procs[p].phase.via);
    var id := s.calls[s.procs[p].phase.via].id;
    assert OkFlight(s, id);
    assert FlightOf(s, s.procs[p].key, id);
    assert !OtherFinished(s, s.procs[p].key, id);
  }

  /** If only one leader was ever elected for a key, no Do on that key is handed anything but its flight's
      outcome: the spurious transport error needs an older finished flight of the same key. */
  lemma NoSpuriousErrorInOneFlight(s: State, p: Pid)
    requires Reachable(s) && p in s.procs && s.procs[p].phase.Returned?
    requires forall i, j :: FlightOf(s, s.procs[p].key, i) && FlightOf(s, s.procs[p].key, j) ==> i == j
    ensures var f := s.procs[p].phase;
            && f.via in s.calls && s.calls[f.via].id in s.leaderOf && s.calls[f.via].id in s.runs
            && (s.leaderOf[s.calls[f.via].id] == p || f.out == Result(s.runs[s.calls[f.via].id]))
  {
    ReachableExplained(s);
    assert ExplainedReturn(s, p);
    ReturnedWell(s, p);
  }

  // ---------------------------------------------------------------- two flights do suffice

  /** A node, a key, three Dos and two ids to play the counterexample with. */
  datatype Cast = Cast(n: Node, k: Key, p: Pid, q: Pid, r: Pid, i: Id, j: Id, out: Outcome) {
    predicate Distinct() {
      p != q && p != r && q != r && i != j
    }

    function Item(): CacheItem {
      NewCacheItem(out)
    }

    function Old(): Call {
      Call(i, Some(Item()), 0, true, 1, PollOff)
    }

    /** Do p leads flight i, its call released. */
    function FirstWoken(): State {
      State(map[k := i], map[], map[(n, k) := p], map[], map[n := []], map[n := Idle],
            map[p := Old()], map[p := Proc(n, k, Leader(Woken, out))], map[i := p], map[i := Item()], {})
    }

    /** Do p is about to publish. */
    function FirstRemoved(): State {
      State(map[], map[i := Item()], map[], map[], map[n := []], map[n := Idle],
            map[p := Old()], map[p := Proc(n, k, Leader(Removed, out))], map[i := p], map[i := Item()], {})
    }

    /** Do q leads flight j, and Do r of the same node waits on it. */
    function SecondRunning(): State {
      State(map[k := j], map[i := Item()], map[(n, k) := q], map[], map[n := []], map[n := Idle],
            map[p := Old(), q := NewCall(j, false)],
            map[p := Proc(n, k, Leader(Removed, out)), q := Proc(n, k, Leader(Running, Outcome(ZERO, None))),
              r := Proc(n, k, Joined(q))],
            map[i := p, j := q], map[i := Item()], {})
    }
  }

  /** Whatever is possible in a reachable state leads to a reachable state. */
  lemma Reach(s: State, a: Action)
    requires Reachable(s)
    ensures a.Start? && CanStart(s, a.pid, a.node) ==> Reachable(DoStart(s, a.pid, a.node, a.key))
    ensures a.Elect? && CanElect(s, a.pid, a.id) ==> Reachable(DoElect(s, a.pid, a.id))
    ensures a.FnReturn? && AtStage(s, a.pid, Running) ==> Reachable(DoFnReturn(s, a.pid, a.out))
    ensures a.Fill? && AtStage(s, a.pid, Ran) ==> Reachable(DoFill(s, a.pid))
    ensures a.Wake? && AtStage(s, a.pid, Filled) ==> Reachable(DoWake(s, a.pid))
    ensures a.Store? && AtStage(s, a.pid, Woken) ==> Reachable(DoStore(s, a.pid))
    ensures a.Unlock? && AtStage(s, a.pid, Stored) ==> Reachable(DoUnlock(s, a.pid))
    ensures a.Remove? && CanRemove(s, a.pid) ==> Reachable(DoRemove(s, a.pid))
    ensures a.Publish? && AtStage(s, a.pid, Removed) ==> Reachable(DoPublish(s, a.pid))
    ensures a.Deliver? && CanDeliver(s, a.node) ==> Reachable(DoDeliver(s, a.node))
    ensures a.Fetch? && CanFetch(s, a.node) ==> Reachable(DoFetch(s, a.node))
    ensures a.HandlerDone? && CanHandlerDone(s, a.node) ==> Reachable(DoHandlerDone(s, a.node))
    ensures a.JoinReturn? && CanJoinReturn(s, a.pid) ==> Reachable(DoJoinReturn(s, a.pid))
  {
    hide Reachable, AtStage, CanStart, DoStart, CanElect, DoElect, DoFnReturn, DoFill, DoWake, DoStore, DoUnlock,
      CanRemove, DoRemove, DoPublish,
      CanDeliver, DoDeliver, CanFetch, DoFetch, CanHandlerDone, DoHandlerDone, CanJoinReturn, DoJoinReturn;
    if Next(s, a).Some? { ReachableStep(s, a, Next(s, a).value); }
  }

  lemma FirstStarted(c: Cast) returns (s: State)
    ensures Reachable(s)
    ensures s == State(map[], map[], map[], map[c.n := c.p], map[c.n := []], map[c.n := Idle],
                       map[], map[c.p := Proc(c.n, c.k, Electing)], map[], map[], {})
  {
    var s0 := Init({c.n});
    assert Exec(s0, []) == Some(s0);
    Reach(s0, Start(c.p, c.n, c.k));
    s := DoStart(s0, c.p, c.n, c.k);
    assert s.inbox == map[c.n := []] && s.handler == map[c.n := Idle];
  }

  lemma FirstElected(c: Cast) returns (s: State)
    ensures Reachable(s)
    ensures s == c.FirstWoken().(calls := map[c.p := NewCall(c.i, false)], runs := map[],
                                 procs := map[c.p := Proc(c.n, c.k, Leader(Running, Outcome(ZERO, None)))])
  {
    var s1 := FirstStarted(c);
    Reach(s1, Elect(c.p, c.i));
    s := DoElect(s1, c.p, c.i);
  }

  lemma FirstRan(c: Cast) returns (s: State)
    ensures Reachable(s)
    ensures s ==
            c.FirstWoken().(calls := map[c.p := NewCall(c.i, false)],
            procs := map[c.p := Proc(c.n, c.k, Leader(Ran, c.out))])
  {
    var s2 := FirstElected(c);
    Reach(s2, FnReturn(c.p, c.out));
    s := DoFnReturn(s2, c.p, c.out);
  }

  lemma FirstFilled(c: Cast) returns (s: State)
    ensures Reachable(s)
    ensures s == c.FirstWoken().(calls := map[c.p := NewCall(c.i, false).(item := Some(c.Item()))],
                                 procs := map[c.p := Proc(c.n, c.k, Leader(Filled, c.out))])
  {
    hide Reachable;
    var s3 := FirstRan(c);
    Reach(s3, Fill(c.p));
    s := DoFill(s3, c.p);
  }

  lemma FirstWokenReachable(c: Cast)
    ensures Reachable(c.FirstWoken())
  {
    hide Reachable;
    var s4 := FirstFilled(c);
    Reach(s4, Wake(c.p));
    assert DoWake(s4, c.p) == c.FirstWoken();
  }

  lemma FirstStored(c: Cast) returns (s: State)
    ensures Reachable(s)
    ensures s ==
            c.FirstWoken().(results := map[c.i := c.Item()], procs := map[c.p := Proc(c.n, c.k, Leader(Stored, c.out))])
  {
    FirstWokenReachable(c);
    Reach(c.FirstWoken(), Store(c.p));
    s := DoStore(c.FirstWoken(), c.p);
  }

  lemma FirstUnlocked(c: Cast) returns (s: State)
    ensures Reachable(s)
    ensures s ==
            c.FirstRemoved().(callMap := map[(c.n, c.k) := c.p],
            procs := map[c.p := Proc(c.n, c.k, Leader(Unlocked, c.out))])
  {
    var s6 := FirstStored(c);
    Reach(s6, Unlock(c.p));
    s := DoUnlock(s6, c.p);
  }

  lemma FirstRemovedReachable(c: Cast)
    ensures Reachable(c.FirstRemoved())
  {
    var s7 := FirstUnlocked(c);
    Reach(s7, Remove(c.p));
    assert DoRemove(s7, c.p) == c.FirstRemoved();
  }

  lemma SecondStarted(c: Cast) returns (s: State)
    requires c.Distinct()
    ensures Reachable(s)
    ensures s == c.FirstRemoved().(mutex := map[c.n := c.q],
                  procs := map[c.p := Proc(c.n, c.k, Leader(Removed, c.out)), c.q := Proc(c.n, c.k, Electing)])
  {
    FirstRemovedReachable(c);
    Reach(c.FirstRemoved(), Start(c.q, c.n, c.k));
    s := DoStart(c.FirstRemoved(), c.q, c.n, c.k);
  }

  lemma ElectSecond(c: Cast, s: State)
    requires c.Distinct()
    requires s == c.FirstRemoved().(mutex := map[c.n := c.q],
                  procs := map[c.p := Proc(c.n, c.k, Leader(Removed, c.out)), c.q := Proc(c.n, c.k, Electing)])
    ensures CanElect(s, c.q, c.j)
    ensures DoElect(s, c.q, c.j) == c.SecondRunning().(procs := map[c.p := Proc(c.n, c.k, Leader(Removed, c.out)),
                                                 c.q := Proc(c.n, c.k, Leader(Running, Outcome(ZERO, None)))])
  {
  }

  lemma SecondElected(c: Cast) returns (s: State)
    requires c.Distinct()
    ensures Reachable(s)
    ensures s == c.SecondRunning().(procs := map[c.p := Proc(c.n, c.k, Leader(Removed, c.out)),
                                                 c.q := Proc(c.n, c.k, Leader(Running, Outcome(ZERO, None)))])
  {
    var s9 := SecondStarted(c);
    ElectSecond(c, s9);
    Reach(s9, Elect(c.q, c.j));
    s := DoElect(s9, c.q, c.j);
  }

  lemma SecondRunningReachable(c: Cast)
    requires c.Distinct()
    ensures Reachable(c.SecondRunning())
  {
    var s10 := SecondElected(c);
    Reach(s10, Start(c.r, c.n, c.k));
    assert DoStart(s10, c.r, c.n, c.k) == c.SecondRunning();
  }

  /** Do p's publish is delivered to Do q's call. */
  lemma SecondNotified(c: Cast) returns (s: State)
    requires c.Distinct()
    ensures Reachable(s)
    ensures s ==
            c.SecondRunning().(handler := map[c.n := Got(c.q)],
            procs := c.SecondRunning().procs[c.p := Proc(c.n, c.k, Returned(c.p, c.out))])
  {
    hide Reachable, DoStart, DoElect, DoFnReturn, DoFill, DoWake, DoStore, DoUnlock, DoRemove, DoFetch,
      DoHandlerDone, DoJoinReturn;
    SecondRunningReachable(c);
    var s11 := c.SecondRunning();
    Reach(s11, Publish(c.p));
    var s12 := DoPublish(s11, c.p);
    Reach(s12, Deliver(c.n));
    s := DoDeliver(s12, c.n);
  }

  /** The claim "a waiter never sees a spurious transport error" fails: Do p deletes its lock before it
      publishes, so its publish can reach flight j of the same key before that flight has a result, and
      Do r returns the transport error although every Redis command succeeded. */
  lemma SpuriousErrorPossible(c: Cast)
    requires c.Distinct()
    ensures exists s :: Reachable(s) && c.r in s.procs && s.procs[c.r].phase == Returned(c.q, Result(TRANSPORT_ERROR))
  {
    hide Reachable, DoStart, DoElect, DoFnReturn, DoFill, DoWake, DoStore, DoUnlock, DoRemove, DoPublish, DoDeliver;
    var s13 := SecondNotified(c);
    Reach(s13, Fetch(c.n));
    var s14 := DoFetch(s13, c.n);
    Reach(s14, HandlerDone(c.n));
    var s15 := DoHandlerDone(s14, c.n);
    Reach(s15, JoinReturn(c.r));
  }
}
