/** Exactly when a subscriber is not told about a change, and what follows in every continuation. */
module RegistryLoss {
  import opened Common
  import opened RegistryTables
  import opened SliceHeap
  import opened RegistryRuns
  import opened RegistryHeaders
  import opened RegistryNotify

  /** `x` is subscribed to n, but loop `t` is past it for good, or about to unsubscribe it for want of a client. */
  ghost predicate Missed(s: State, t: Tid, n: Name, x: Addr)
    requires Wf(s.lists)
  {
    && t in s.loops && (n, x) !in s.loops[t].sent && n !in s.loops[t].todo && x in At(s.view.subscribers, n)
    && (Walks(s, t, n) ==> Behind(s.lists, Subscribers(n), s.loops[t].phase.head, s.loops[t].phase.next, x) ||
                           (s.loops[t].phase.Cleaning? && s.loops[t].phase.addr == x))
  }

  ghost predicate NeverRemoved(s: State, acts: seq<Action>, n: Name, x: Addr)
    requires Wf(s.lists)
    decreases |acts|
  {
    acts == [] || (Removes(s, acts[0], n) != Some(x) && (Next(s, acts[0]).Some? ==>
      NeverRemoved(Next(s, acts[0]).value, acts[1..], n, x)))
  }

  lemma {:induction false} InsertAllKeepsBehind(u: Table, n: Name, h: Header, next: nat, x: Addr,
          services: seq<Name>, a: Addr, spares: seq<nat>)
    requires Wf(u) && Behind(u, Subscribers(n), h, next, x) && |spares| == |services|
    ensures Behind(InsertAll(u, services, a, spares), Subscribers(n), h, next, x)
  {
    if services != [] {
      var i := |services| - 1;
      InsertAllKeepsBehind(u, n, h, next, x, services[..i], a, spares[..i]);
      InsertKeepsBehind(InsertAll(u, services[..i], a, spares[..i]), Subscribers(n), h, next, x,
        Servers(services[i]), a, spares[i]);
    }
  }

  lemma {:induction false} RemoveAllKeepsBehind(u: Table, n: Name, h: Header, next: nat, x: Addr, gone: seq<Name>,
          a: Addr)
    requires Wf(u) && Behind(u, Subscribers(n), h, next, x)
    ensures Behind(RemoveAll(u, gone, a), Subscribers(n), h, next, x)
  {
    if gone != [] {
      var i := |gone| - 1;
      RemoveAllKeepsBehind(u, n, h, next, x, gone[..i], a);
      RemoveElsewhereKeepsBehind(RemoveAll(u, gone[..i], a), Subscribers(n), h, next, x, Servers(gone[i]), a);
    }
  }

  lemma RemoveSubscriberKeepsBehind(s: State, m: Name, y: Addr, n: Name, h: Header, next: nat, x: Addr)
    requires Shows(s) && Consistent(s.view) && Behind(s.lists, Subscribers(n), h, next, x) && (m == n ==> y != x)
    ensures Behind(RemoveSubscriber(s, m, y).lists, Subscribers(n), h, next, x)
  {
    if m == n {
      assert Get(s.lists, Subscribers(n)) == At(s.view.subscribers, n);
      RemoveKeepsBehind(s.lists, Subscribers(n), h, next, x, y);
    } else {
      RemoveElsewhereKeepsBehind(s.lists, Subscribers(n), h, next, x, Subscribers(m), y);
    }
  }

  lemma StepKeepsBehind(s: State, a: Action, n: Name, h: Header, next: nat, x: Addr)
    requires Inv(s) && Next(s, a).Some? && Removes(s, a, n) != Some(x) && Behind(s.lists, Subscribers(n), h, next, x)
    ensures Behind(Next(s, a).value.lists, Subscribers(n), h, next, x)
  {
    match a
    case Register(_, addr, services, spares) => InsertAllKeepsBehind(s.lists, n, h, next, x, services, addr, spares);
    case Evict(_, addr) => RemoveAllKeepsBehind(s.lists, n, h, next, x, At(s.view.names, addr), addr);
    case Clean(u) => RemoveSubscriberKeepsBehind(s, s.loops[u].phase.name, s.loops[u].phase.addr, n, h, next, x);
    case SendFails(_, m, addr) => RemoveSubscriberKeepsBehind(s, m, addr, n, h, next, x);
    case DiscoverSubscribe(u, spare) =>
      InsertKeepsBehind(s.lists, Subscribers(n), h, next, x, Subscribers(s.discoveries[u].name),
        s.discoveries[u].caller, spare);
    case _ =>
  }

  lemma VisitMissed(s: State, t: Tid, n: Name, x: Addr)
    requires Inv(s) && Next(s, Visit(t)).Some? && Missed(s, t, n, x) && Inv(Next(s, Visit(t)).value)
    ensures Missed(Next(s, Visit(t)).value, t, n, x)
  {
    hide Consistent, Shows;
    var f := s.loops[t].phase;
    if f.name == n {
      assert s.lists.heap[f.head.arr][f.next] != x;
      assert Behind(s.lists, Subscribers(n), f.head, f.next + 1, x);
    }
  }

  /** Only its own steps move a loop. */
  lemma LoopKept(s: State, a: Action, t: Tid)
    requires Inv(s)
    ensures Wf(s.lists)
    ensures Next(s, a).Some? && t in s.loops && a != Visit(t) && a != BeginName(t) && a != Clean(t) &&
            a != EndName(t) ==>
      t in Next(s, a).value.loops && Next(s, a).value.loops[t] == s.loops[t]
  {
  }

  lemma StepMissed(s: State, a: Action, t: Tid, n: Name, x: Addr)
    requires Inv(s) && Next(s, a).Some? && Missed(s, t, n, x) && Removes(s, a, n) != Some(x)
    ensures Inv(Next(s, a).value) && Missed(Next(s, a).value, t, n, x)
  {
    hide Consistent, Registered, Evicted, Subscribed, Unsubscribed, InsertAll, RemoveAll, Insert, Remove, Shows, Behind;
    KeepInv(s, a);
    StepKeepsSubscribed(s, a, n, x);
    LoopKept(s, a, t);
    if Walks(s, t, n) && !(s.loops[t].phase.Cleaning? && s.loops[t].phase.addr == x) {
      StepKeepsBehind(s, a, n, s.loops[t].phase.head, s.loops[t].phase.next, x);
    }
    if a == Visit(t) {
      VisitMissed(s, t, n, x);
    } else if a == BeginName(t) || a == Clean(t) || a == EndName(t) {
      assert Next(s, a).value.loops[t].sent == s.loops[t].sent;
    }
  }

  lemma {:induction false} RunMissed(s: State, acts: seq<Action>, t: Tid, n: Name, x: Addr)
    requires Inv(s) && Exec(s, acts).Some? && Missed(s, t, n, x) && NeverRemoved(s, acts, n, x)
    ensures t in Exec(s, acts).value.loops && (n, x) !in Exec(s, acts).value.loops[t].sent
    decreases |acts|
  {
    if acts != [] {
      StepMissed(s, acts[0], t, n, x);
      RunMissed(Next(s, acts[0]).value, acts[1..], t, n, x);
    }
  }

  /** The two ways of losing x put it behind the loop for good. */
  lemma LossIsMissed(s: State, a: Action, t: Tid, n: Name, x: Addr)
    requires Inv(s) && Next(s, a).Some? && Loses(s, a, t, n, x) && n !in s.loops[t].todo
    requires x in At(s.view.subscribers, n)
    requires Removes(s, a, n) != Some(x)
    ensures Inv(Next(s, a).value) && Missed(Next(s, a).value, t, n, x)
  {
    hide Consistent, Registered, Evicted, Subscribed, Unsubscribed, InsertAll, RemoveAll, Insert, Remove, Behind,
      PullsOut, Overwrites;
    KeepInv(s, a);
    StepKeepsSubscribed(s, a, n, x);
    var f := s.loops[t].phase;
    Listed(s, n);
    assert OkLoop(s, t);
    if a.DiscoverSubscribe? {
      OverwriteLoses(s.lists, Subscribers(n), f.head, f.next, s.discoveries[a.tid].caller, x, a.spare);
    } else {
      SkipLoses(s.lists, Subscribers(n), f.head, f.next, Removes(s, a, n).value, x);
    }
  }

  /** Who is lost is never sent that change: once a step takes x from the loop's last round over n, no continuation
      in which x stays subscribed sends it, loop through or not. */
  lemma LostForGood(s: State, a: Action, u: State, after: seq<Action>, v: State, t: Tid, n: Name, x: Addr)
    requires Reachable(s) && Wf(s.lists) && Next(s, a) == Some(u) && Loses(s, a, t, n, x) && Removes(s, a, n) != Some(x)
    requires n !in s.loops[t].todo && x in At(s.view.subscribers, n)
    requires Exec(u, after) == Some(v) && NeverRemoved(u, after, n, x)
    ensures t in v.loops && (n, x) !in v.loops[t].sent
  {
    ReachableInv(s);
    LossIsMissed(s, a, t, n, x);
    RunMissed(u, after, t, n, x);
  }

  ghost predicate NeverLost(s: State, acts: seq<Action>, t: Tid, n: Name, x: Addr)
    requires Wf(s.lists)
    decreases |acts|
  {
    acts == [] || (!Loses(s, acts[0], t, n, x) && (Next(s, acts[0]).Some? ==>
      NeverLost(Next(s, acts[0]).value, acts[1..], t, n, x)))
  }

  /** Loop steps never put a name back on the list of those to do. */
  lemma TodoShrinks(s: State, a: Action, t: Tid, n: Name)
    requires Inv(s) && Next(s, a).Some? && t in s.loops && n !in s.loops[t].todo
    ensures t in Next(s, a).value.loops && n !in Next(s, a).value.loops[t].todo
  {
    LoopKept(s, a, t);
  }

  lemma {:induction false} RunSentExactly(s: State, acts: seq<Action>, t: Tid, n: Name, x: Addr)
    requires Inv(s) && Exec(s, acts).Some? && t in s.loops && Pending(s, t, n, x) && n !in s.loops[t].todo
    requires x in At(s.view.subscribers, n) && NeverRemoved(s, acts, n, x) && Through(Exec(s, acts).value, t)
    ensures (n, x) in Exec(s, acts).value.loops[t].sent <==> NeverLost(s, acts, t, n, x)
    decreases |acts|
  {
    hide Pending, Missed, Loses, Next;
    if acts == [] {
      LastPending(s, t, n, x);
    } else {
      var a := acts[0];
      StepKeepsSubscribed(s, a, n, x);
      TodoShrinks(s, a, t, n);
      KeepInv(s, a);
      if Loses(s, a, t, n, x) {
        LossIsMissed(s, a, t, n, x);
        RunMissed(Next(s, a).value, acts[1..], t, n, x);
      } else {
        assert !Reads(s, a, t, n);
        StepPending(s, a, t, n, x);
        RunSentExactly(Next(s, a).value, acts[1..], t, n, x);
      }
    }
  }

  lemma LastPending(s: State, t: Tid, n: Name, x: Addr)
    requires Pending(s, t, n, x) && Through(s, t)
    ensures (n, x) in s.loops[t].sent
  {
  }

  /** Exactly when a subscriber is told: x is subscribed when loop `t` reads n's list for the last time and stays so.
      Once the loop is through, x has been sent the change if and only if no step took x from the loop, by a removal
      below the loop's position while x was next and no copy of it behind, or by overwriting its last stale copy. */
  lemma SentUnlessLost(s: State, u: State, after: seq<Action>, v: State, t: Tid, n: Name, x: Addr)
    requires Reachable(s) && Wf(s.lists) && Reads(s, BeginName(t), t, n) && Next(s, BeginName(t)) == Some(u)
    requires n !in s.loops[t].todo[1..] && x in At(s.view.subscribers, n)
    requires Exec(u, after) == Some(v) && NeverRemoved(u, after, n, x) && Through(v, t)
    ensures (n, x) in v.loops[t].sent <==> NeverLost(u, after, t, n, x)
  {
    ReachableInv(s);
    KeepInv(s, BeginName(t));
    BeginPending(s, t, n, x);
    RunSentExactly(u, after, t, n, x);
  }

  // ---------------------------------------------------------------- the loop's own clean-up does it

  /** When the loop cleans up a subscriber without a client at a lower place of the list than its own, the next
      subscriber is lost unless a copy of it is left at or behind the list's end; if the list is as long as the
      header the loop walks, unless it is the last. */
  lemma CleanUpSkipsNext(s: State, t: Tid, x: Addr)
    requires Inv(s) && t in s.loops && s.loops[t].phase.Cleaning? && OkLoop(s, t)
    requires var f := s.loops[t].phase;
             Skips(s.lists, Subscribers(f.name), f.head, f.next, f.addr, x) && (f.name, x) !in s.loops[t].sent
    ensures Next(s, Clean(t)).Some?
    ensures var f := s.loops[t].phase; var n := |At(s.view.subscribers, f.name)|;
            && 0 < n && (Loses(s, Clean(t), t, f.name, x) <==> !ShowsFrom(s.lists, f.head, n - 1, x))
            && (f.head.len == n ==> (Loses(s, Clean(t), t, f.name, x) <==> f.next < n - 1))
  {
    hide Consistent, Registered, Evicted, Subscribed, Unsubscribed, InsertAll, RemoveAll, Insert;
    var f := s.loops[t].phase;
    Listed(s, f.name);
    var xs := Get(s.lists, Subscribers(f.name));
    assert f.addr != x;
    if f.head.len == |xs| { assert s.lists.heap[f.head.arr][|xs| - 1] == xs[|xs| - 1]; }
  }
}
