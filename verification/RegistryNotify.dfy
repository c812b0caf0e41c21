/** Who is told about a change when everything else runs in between. A change's loop walks the slice header it read
    for a name, outside the lock: registrations, evictions and other loops go on, and removals shift the array under it.
    What keeps a subscriber ahead of the loop is a fact about the array, not about the list. */
module RegistryNotify {
  import opened Common
  import opened RegistryTables
  import opened SliceHeap
  import opened RegistryRuns
  import opened RegistryHeaders

  // ---------------------------------------------------------------- notifications

  /** Loop `t` is walking n's list. */
  predicate Walks(s: State, t: Tid, n: Name) {
    t in s.loops && !s.loops[t].phase.Between? && s.loops[t].phase.name == n
  }

  /** Loop `t` has sent `x` its change of `n`, has `n` still to do, has `x` ahead of it in the list it walks, or has
      found that x has no client. */
  ghost predicate Pending(s: State, t: Tid, n: Name, x: Addr) {
    && t in s.loops
    && var l := s.loops[t];
       || (n, x) in l.sent
       || n in l.todo
       || (Walks(s, t, n) &&
         (Ahead(s.lists, Subscribers(n), l.phase.head, l.phase.next, x) || (l.phase.Cleaning? && l.phase.addr == x)))
  }

  /** The step takes `x` from loop `t`: the removal of another subscriber pulls x out from under it, or a new
      subscriber overwrites the stale copy of x it would still have met. */
  ghost predicate Loses(s: State, a: Action, t: Tid, n: Name, x: Addr)
    requires Wf(s.lists)
  {
    && Walks(s, t, n) && (n, x) !in s.loops[t].sent
    && Readable(s.lists, s.loops[t].phase.head)
    && var f := s.loops[t].phase;
       || (Removes(s, a, n).Some? && Removes(s, a, n).value != x && Next(s, a).Some? &&
           PullsOut(s.lists, Subscribers(n), f.head, f.next, Removes(s, a, n).value, x))
       || (a.DiscoverSubscribe? && Next(s, a).Some? && s.discoveries[a.tid].name == n &&
           Overwrites(s.lists, Subscribers(n), f.head, f.next, s.discoveries[a.tid].caller, x))
  }

  /** The step is the moment loop `t` reads n's list. */
  predicate Reads(s: State, a: Action, t: Tid, n: Name) {
    a == BeginName(t) && t in s.loops && s.loops[t].todo != [] && s.loops[t].todo[0] == n
  }

  /** If loop `t` reads n's list, x is on it; and the step neither unsubscribes x from n nor takes it from the loop. */
  ghost predicate Stays(s: State, a: Action, t: Tid, n: Name, x: Addr)
    requires Wf(s.lists)
  {
    && (Reads(s, a, t, n) ==> x in At(s.view.subscribers, n))
    && Removes(s, a, n) != Some(x) && !Loses(s, a, t, n, x)
  }

  ghost predicate StaysThroughout(s: State, acts: seq<Action>, t: Tid, n: Name, x: Addr)
    requires Wf(s.lists)
    decreases |acts|
  {
    acts == [] || (Stays(s, acts[0], t, n, x) && (Next(s, acts[0]).Some? ==>
      StaysThroughout(Next(s, acts[0]).value, acts[1..], t, n, x)))
  }

  lemma {:induction false} InsertAllKeepsAhead(u: Table, n: Name, h: Header, next: nat, x: Addr, services: seq<Name>,
          a: Addr, spares: seq<nat>)
    requires Wf(u) && Ahead(u, Subscribers(n), h, next, x) && |spares| == |services|
    ensures Ahead(InsertAll(u, services, a, spares), Subscribers(n), h, next, x)
  {
    if services != [] {
      var i := |services| - 1;
      InsertAllKeepsAhead(u, n, h, next, x, services[..i], a, spares[..i]);
      InsertKeepsAhead(InsertAll(u, services[..i], a, spares[..i]), Subscribers(n), h, next, x, Servers(services[i]),
        a, spares[i]);
    }
  }

  lemma {:induction false} RemoveAllKeepsAhead(u: Table, n: Name, h: Header, next: nat, x: Addr, gone: seq<Name>,
          a: Addr)
    requires Wf(u) && Ahead(u, Subscribers(n), h, next, x)
    ensures Ahead(RemoveAll(u, gone, a), Subscribers(n), h, next, x)
  {
    if gone != [] {
      var i := |gone| - 1;
      RemoveAllKeepsAhead(u, n, h, next, x, gone[..i], a);
      RemoveElsewhereKeepsAhead(RemoveAll(u, gone[..i], a), Subscribers(n), h, next, x, Servers(gone[i]), a);
    }
  }

  lemma RemoveSubscriberKeepsAhead(s: State, m: Name, y: Addr, n: Name, h: Header, next: nat, x: Addr)
    requires Shows(s) && Consistent(s.view) && Ahead(s.lists, Subscribers(n), h, next, x) && (m == n ==> y != x)
    ensures Ahead(RemoveSubscriber(s, m, y).lists, Subscribers(n), h, next, x) <==>
            !(m == n && PullsOut(s.lists, Subscribers(n), h, next, y, x))
  {
    if m == n {
      assert Get(s.lists, Subscribers(n)) == At(s.view.subscribers, n);
      RemoveKeepsAhead(s.lists, Subscribers(n), h, next, x, y);
    } else {
      RemoveElsewhereKeepsAhead(s.lists, Subscribers(n), h, next, x, Subscribers(m), y);
    }
  }

  /** Whatever the step does to the slices, an `x` it does not remove and that is not sent yet stays ahead of the
      loop's position, unless the step is one of the two that take it away. */
  lemma StepKeepsAhead(s: State, a: Action, t: Tid, n: Name, x: Addr)
    requires Inv(s) && Next(s, a).Some? && Removes(s, a, n) != Some(x) && Walks(s, t, n) && (n, x) !in s.loops[t].sent
    requires Ahead(s.lists, Subscribers(n), s.loops[t].phase.head, s.loops[t].phase.next, x)
    ensures Ahead(Next(s, a).value.lists, Subscribers(n), s.loops[t].phase.head, s.loops[t].phase.next, x) <==>
            !Loses(s, a, t, n, x)
  {
    var h, next := s.loops[t].phase.head, s.loops[t].phase.next;
    assert OkLoop(s, t);
    match a
    case Register(_, addr, services, spares) => InsertAllKeepsAhead(s.lists, n, h, next, x, services, addr, spares);
    case Evict(_, addr) => RemoveAllKeepsAhead(s.lists, n, h, next, x, At(s.view.names, addr), addr);
    case Clean(u) => RemoveSubscriberKeepsAhead(s, s.loops[u].phase.name, s.loops[u].phase.addr, n, h, next, x);
    case SendFails(_, m, addr) => RemoveSubscriberKeepsAhead(s, m, addr, n, h, next, x);
    case DiscoverSubscribe(u, spare) =>
      InsertKeepsAhead(s.lists, Subscribers(n), h, next, x, Subscribers(s.discoveries[u].name),
        s.discoveries[u].caller, spare);
    case _ =>
  }

  /** A name's loop starts with every current subscriber ahead of it. */
  lemma BeginPending(s: State, t: Tid, n: Name, x: Addr)
    requires Inv(s) && Next(s, BeginName(t)).Some? && s.loops[t].todo[0] == n && x in At(s.view.subscribers, n)
    ensures Pending(Next(s, BeginName(t)).value, t, n, x)
  {
    var xs := Get(s.lists, Subscribers(n));
    assert xs == At(s.view.subscribers, n);
    var i :| 0 <= i < |xs| && xs[i] == x;
    var h := s.lists.index[Subscribers(n)];
    assert s.lists.heap[h.arr][i] == x;
    assert Ahead(s.lists, Subscribers(n), h, 0, x);
  }

  /** Visiting one subscriber sends to it, finds it without a client, or leaves the others ahead. */
  lemma VisitPending(s: State, t: Tid, n: Name, x: Addr)
    requires Inv(s) && Next(s, Visit(t)).Some? && Pending(s, t, n, x)
    ensures Pending(Next(s, Visit(t)).value, t, n, x)
  {
    var f := s.loops[t].phase;
    if f.name == n && s.lists.heap[f.head.arr][f.next] != x && Ahead(s.lists, Subscribers(n), f.head, f.next, x) {
      assert Ahead(s.lists, Subscribers(n), f.head, f.next + 1, x);
    }
  }

  lemma StepPending(s: State, a: Action, t: Tid, n: Name, x: Addr)
    requires Inv(s) && Next(s, a).Some? && Pending(s, t, n, x) && Stays(s, a, t, n, x)
    ensures Pending(Next(s, a).value, t, n, x)
  {
    hide Consistent, Registered, Evicted, Subscribed, Unsubscribed, InsertAll, RemoveAll, Insert, Remove;
    if a == Visit(t) {
      VisitPending(s, t, n, x);
    } else if a == BeginName(t) && s.loops[t].todo[0] == n {
      BeginPending(s, t, n, x);
    } else if Walks(s, t, n) && (n, x) !in s.loops[t].sent &&
      Ahead(s.lists, Subscribers(n), s.loops[t].phase.head, s.loops[t].phase.next, x) {
      StepKeepsAhead(s, a, t, n, x);
    }
  }

  lemma {:induction false} RunPending(s: State, acts: seq<Action>, t: Tid, n: Name, x: Addr)
    requires Inv(s) && Exec(s, acts).Some? && Pending(s, t, n, x) && StaysThroughout(s, acts, t, n, x)
    ensures Pending(Exec(s, acts).value, t, n, x)
    decreases |acts|
  {
    if acts != [] {
      StepPending(s, acts[0], t, n, x);
      KeepInv(s, acts[0]);
      RunPending(Next(s, acts[0]).value, acts[1..], t, n, x);
    }
  }

  /** A committed change of name n, whose loop is `t`. */
  predicate Changes(s: State, a: Action, t: Tid, n: Name) {
    match a
    case Register(u, _, services, _) => u == t && n in services
    case Evict(u, addr) => u == t && n in At(s.view.names, addr)
    case _ => false
  }

  predicate Through(s: State, t: Tid) {
    t in s.loops && s.loops[t].phase.Between? && s.loops[t].todo == []
  }

  /** No notification is lost: in every interleaving, whoever is subscribed to a changed name when the change's loop
      reads the list, is not unsubscribed and not taken from the loop, is sent that change once the loop is through. */
  lemma NoLostNotification(s: State, change: Action, u: State, after: seq<Action>, v: State, t: Tid, n: Name, x: Addr)
    requires Reachable(s) && Wf(s.lists) && Changes(s, change, t, n) && Next(s, change) == Some(u)
    requires Exec(u, after) == Some(v) && StaysThroughout(u, after, t, n, x)
    ensures t in v.loops && (Through(v, t) ==> (n, x) in v.loops[t].sent)
  {
    ReachableInv(s);
    KeepInv(s, change);
    RunPending(u, after, t, n, x);
  }

  // ---------------------------------------------------------------- without removals

  ghost predicate NoRemoval(s: State, acts: seq<Action>, n: Name)
    requires Wf(s.lists)
    decreases |acts|
  {
    acts == [] || (Removes(s, acts[0], n).None? && (Next(s, acts[0]).Some? ==>
      NoRemoval(Next(s, acts[0]).value, acts[1..], n)))
  }

  /** If loop `t` walks n's list, its header still shows what it showed when the loop read it. */
  ghost predicate WalksSnapshot(s: State, t: Tid, n: Name) {
    Walks(s, t, n) ==> Snapshot(s.lists, Subscribers(n), s.loops[t].phase.head)
  }

  lemma Listed(s: State, n: Name)
    requires Inv(s)
    ensures Get(s.lists, Subscribers(n)) == At(s.view.subscribers, n) && NoDup(At(s.view.subscribers, n))
  {
  }

  /** A subscriber that is not removed stays subscribed. */
  lemma StepKeepsSubscribed(s: State, a: Action, n: Name, x: Addr)
    requires Inv(s) && Next(s, a).Some? && Removes(s, a, n) != Some(x) && x in At(s.view.subscribers, n)
    ensures x in At(Next(s, a).value.view.subscribers, n)
  {
    Listed(s, n);
    if Removes(s, a, n).Some? { RemoveFirstIsWithout(At(s.view.subscribers, n), Removes(s, a, n).value); }
    hide Inv, InsertAll, RemoveAll, Insert, Remove, AddTo, CutFrom, RemoveFirst;
  }

  /** While nobody is removed from n's list nothing takes a subscriber from the loop. */
  lemma NothingLost(s: State, a: Action, t: Tid, n: Name, x: Addr)
    requires Inv(s) && Next(s, a).Some? && WalksSnapshot(s, t, n) && Removes(s, a, n).None?
    ensures !Loses(s, a, t, n, x)
  {
  }

  lemma StepStays(s: State, a: Action, t: Tid, n: Name, x: Addr)
    requires Inv(s) && Next(s, a).Some? && WalksSnapshot(s, t, n) && Removes(s, a, n).None?
    requires x in At(s.view.subscribers, n)
    ensures Stays(s, a, t, n, x)
  {
    NothingLost(s, a, t, n, x);
  }

  lemma BeginSnapshot(s: State, t: Tid, n: Name)
    requires Inv(s) && Next(s, BeginName(t)).Some?
    ensures WalksSnapshot(Next(s, BeginName(t)).value, t, n)
  {
  }

  lemma StepWalksSnapshot(s: State, a: Action, t: Tid, n: Name)
    requires Inv(s) && Next(s, a).Some? && t in s.loops && WalksSnapshot(s, t, n) && Removes(s, a, n).None?
    ensures t in Next(s, a).value.loops && WalksSnapshot(Next(s, a).value, t, n)
  {
    hide Consistent, Registered, Evicted, Subscribed, Unsubscribed, InsertAll, RemoveAll, Insert, Remove, Snapshot,
      ShowsServers, ShowsSubscribers;
    if a == BeginName(t) {
      BeginSnapshot(s, t, n);
    } else if Walks(s, t, n) {
      ListsWf(s);
      StepKeepsSnapshot(s, a, Subscribers(n), s.loops[t].phase.head);
    }
  }

  lemma ListsWf(s: State)
    requires Inv(s)
    ensures Wf(s.lists)
  {
  }

  lemma {:induction false} NoRemovalStays(s: State, acts: seq<Action>, t: Tid, n: Name, x: Addr)
    requires Inv(s) && Exec(s, acts).Some? && t in s.loops && WalksSnapshot(s, t, n)
    requires NoRemoval(s, acts, n) && x in At(s.view.subscribers, n)
    ensures StaysThroughout(s, acts, t, n, x)
    decreases |acts|
  {
    if acts != [] {
      StepStays(s, acts[0], t, n, x);
      StepWalksSnapshot(s, acts[0], t, n);
      StepKeepsSubscribed(s, acts[0], n, x);
      KeepInv(s, acts[0]);
      NoRemovalStays(Next(s, acts[0]).value, acts[1..], t, n, x);
    }
  }

  /** If nobody is removed from n's subscribers after a change of n is committed, then everyone subscribed at that
      moment has been sent the change once its loop is through, whatever else registers, subscribes or is evicted. */
  lemma EveryoneIsTold(s: State, change: Action, u: State, after: seq<Action>, v: State, t: Tid, n: Name, x: Addr)
    requires Reachable(s) && Wf(s.lists) && Changes(s, change, t, n) && Next(s, change) == Some(u)
    requires Exec(u, after) == Some(v) && NoRemoval(u, after, n) && x in At(s.view.subscribers, n)
    ensures t in v.loops && (Through(v, t) ==> (n, x) in v.loops[t].sent)
  {
    ReachableInv(s);
    KeepInv(s, change);
    StepKeepsSubscribed(s, change, n, x);
    NoRemovalStays(u, after, t, n, x);
    NoLostNotification(s, change, u, after, v, t, n, x);
  }
}
