/** What a Discover call answers when everything else runs in between, and what the notifications add to it. The call
    keeps the slice header it read, subscribes in a later section, and copies what the header then shows, which
    registrations and evictions may meanwhile have changed. */
module RegistryDiscover {
  import opened Common
  import opened RegistryTables
  import opened SliceHeap
  import opened RegistryRuns
  import opened RegistryHeaders
  import opened RegistryNotify
  import opened RegistryLoss

  // ---------------------------------------------------------------- the answer and the list read

  /** Discover call `t` holds a header of n that shows `xs`, or has answered `xs`. */
  ghost predicate WillAnswer(s: State, t: Tid, n: Name, xs: seq<Addr>) {
    && t in s.discoveries
    && var d := s.discoveries[t];
       if d.Replied? then d.addrs == xs
       else d.name == n && Owned(s.lists, Servers(n), d.head) && Read(s.lists, d.head) == xs
  }

  /** The step does not show through the header that call `t` still holds. */
  predicate Unseen(s: State, a: Action, t: Tid, n: Name)
    requires Wf(s.lists)
  {
    t in s.discoveries && !s.discoveries[t].Replied? ==> !ShowsThrough(s, a, n, s.discoveries[t].head)
  }

  ghost predicate UnseenThroughout(s: State, acts: seq<Action>, t: Tid, n: Name)
    requires Wf(s.lists)
    decreases |acts|
  {
    acts == [] || (Unseen(s, acts[0], t, n) && (Next(s, acts[0]).Some? ==>
      UnseenThroughout(Next(s, acts[0]).value, acts[1..], t, n)))
  }

  /** Per step, exactly: what a call is about to answer changes if and only if the step shows through its header. */
  lemma StepWillAnswer(s: State, a: Action, t: Tid, n: Name, xs: seq<Addr>)
    requires Inv(s) && Next(s, a).Some? && WillAnswer(s, t, n, xs)
    ensures WillAnswer(Next(s, a).value, t, n, xs) <==> Unseen(s, a, t, n)
  {
    hide Consistent, Registered, Evicted, Subscribed, Unsubscribed, InsertAll, RemoveAll, Insert, Remove, ShowsThrough;
    if !s.discoveries[t].Replied? { StepShowsThrough(s, a, n, s.discoveries[t].head); }
  }

  lemma {:induction false} RunWillAnswer(s: State, acts: seq<Action>, t: Tid, n: Name, xs: seq<Addr>)
    requires Inv(s) && Exec(s, acts).Some? && WillAnswer(s, t, n, xs) && UnseenThroughout(s, acts, t, n)
    ensures WillAnswer(Exec(s, acts).value, t, n, xs)
    decreases |acts|
  {
    if acts != [] {
      StepWillAnswer(s, acts[0], t, n, xs);
      KeepInv(s, acts[0]);
      RunWillAnswer(Next(s, acts[0]).value, acts[1..], t, n, xs);
    }
  }

  /** Discover copies a slice it read in an earlier critical section. It nevertheless answers exactly the list of that
      moment if no step in between shows through its header: no eviction moves elements in view and no registration
      writes into a slot that evictions have freed. */
  lemma DiscoverAnswersUnlessSeen(s: State, t: Tid, n: Name, caller: Addr, u: State, after: seq<Action>, v: State)
    requires Reachable(s) && Wf(s.lists) && Next(s, DiscoverRead(t, n, caller)) == Some(u)
    requires Wf(u.lists) && Exec(u, after) == Some(v) && UnseenThroughout(u, after, t, n)
    ensures t in v.discoveries && (v.discoveries[t].Replied? ==> v.discoveries[t].addrs == At(s.view.servers, n) != [])
  {
    ReachableInv(s);
    KeepInv(s, DiscoverRead(t, n, caller));
    assert Get(s.lists, Servers(n)) == At(s.view.servers, n);
    RunWillAnswer(u, after, t, n, At(s.view.servers, n));
  }

  ghost predicate NoEvictionFrom(s: State, acts: seq<Action>, n: Name)
    requires Wf(s.lists)
    decreases |acts|
  {
    acts == [] || (!EvictsFrom(s, acts[0], n) && (Next(s, acts[0]).Some? ==>
      NoEvictionFrom(Next(s, acts[0]).value, acts[1..], n)))
  }

  ghost predicate HoldsSnapshot(s: State, t: Tid, n: Name) {
    t in s.discoveries && (!s.discoveries[t].Replied? ==> Snapshot(s.lists, Servers(n), s.discoveries[t].head))
  }

  lemma StepHoldsSnapshot(s: State, a: Action, t: Tid, n: Name)
    requires Wf(s.lists) && Next(s, a).Some? && HoldsSnapshot(s, t, n) && !EvictsFrom(s, a, n)
    ensures HoldsSnapshot(Next(s, a).value, t, n) && Unseen(s, a, t, n)
  {
    hide InsertAll, RemoveAll, Insert, Remove, Registered, Evicted;
    if !s.discoveries[t].Replied? { StepKeepsSnapshot(s, a, Servers(n), s.discoveries[t].head); }
  }

  lemma {:induction false} NoEvictionUnseen(s: State, acts: seq<Action>, t: Tid, n: Name)
    requires Wf(s.lists) && Exec(s, acts).Some? && HoldsSnapshot(s, t, n) && NoEvictionFrom(s, acts, n)
    ensures UnseenThroughout(s, acts, t, n)
    decreases |acts|
  {
    if acts != [] {
      StepHoldsSnapshot(s, acts[0], t, n);
      NoEvictionUnseen(Next(s, acts[0]).value, acts[1..], t, n);
    }
  }

  /** In particular it answers the list read whatever registers, subscribes or unsubscribes in between, if no server
      of the name is evicted. */
  lemma DiscoverAnswersListRead(s: State, t: Tid, n: Name, caller: Addr, u: State, after: seq<Action>, v: State)
    requires Reachable(s) && Wf(s.lists) && Next(s, DiscoverRead(t, n, caller)) == Some(u)
    requires Wf(u.lists) && Exec(u, after) == Some(v) && NoEvictionFrom(u, after, n)
    ensures t in v.discoveries && (v.discoveries[t].Replied? ==> v.discoveries[t].addrs == At(s.view.servers, n) != [])
  {
    NoEvictionUnseen(u, after, t, n);
    DiscoverAnswersUnlessSeen(s, t, n, caller, u, after, v);
  }

  // ---------------------------------------------------------------- no address is made up

  /** The registrations for n among `acts`, each with its loop. */
  function Announced(acts: seq<Action>, n: Name): set<(Tid, Addr)> {
    if acts == [] then {}
    else
      (if acts[0].Register? && n in acts[0].services then {(acts[0].tid, acts[0].addr)} else {}) +
      Announced(acts[1..], n)
  }

  /** All that call `t` can still answer, or has answered, is among `ys`. */
  ghost predicate AnswersAmong(s: State, t: Tid, n: Name, ys: set<Addr>) {
    && t in s.discoveries
    && var d := s.discoveries[t];
       if d.Replied? then forall x :: x in d.addrs ==> x in ys
         else d.name == n && Among(s.lists, Servers(n), d.head, ys)
  }

  lemma {:induction false} RunAnswersAmong(s: State, acts: seq<Action>, t: Tid, n: Name, ys: set<Addr>)
    requires Wf(s.lists) && Exec(s, acts).Some? && AnswersAmong(s, t, n, ys) && forall r ::
             r in Announced(acts, n) ==> r.1 in ys
    ensures AnswersAmong(Exec(s, acts).value, t, n, ys)
    decreases |acts|
  {
    if acts != [] {
      var a := acts[0];
      assert a.Register? && n in a.services ==> (a.tid, a.addr) in Announced(acts, n);
      if !s.discoveries[t].Replied? { StepKeepsAmong(s, a, n, s.discoveries[t].head, ys); }
      RunAnswersAmong(Next(s, a).value, acts[1..], t, n, ys);
    }
  }

  lemma StartAmong(s: State, t: Tid, n: Name, caller: Addr, u: State, ys: set<Addr>)
    requires Reachable(s) && Wf(s.lists) && Next(s, DiscoverRead(t, n, caller)) == Some(u)
    requires forall x :: x in At(s.view.servers, n) ==> x in ys
    ensures AnswersAmong(u, t, n, ys)
  {
    hide Reachable, Consistent;
    ReachableInv(s);
    var xs, h := At(s.view.servers, n), u.discoveries[t].head;
    assert Get(s.lists, Servers(n)) == xs;
    hide Inv, ShowsServers, ShowsSubscribers;
    forall j | 0 <= j < h.len ensures u.lists.heap[h.arr][j] in ys { assert xs[j] == u.lists.heap[h.arr][j]; }
  }

  /** Whatever happens in between, evictions included: every address a Discover call answers was in the list it read,
      or was registered for the name since. */
  lemma AnswersOnlyServers(s: State, t: Tid, n: Name, caller: Addr, u: State, after: seq<Action>, v: State)
    requires Reachable(s) && Wf(s.lists) && Next(s, DiscoverRead(t, n, caller)) == Some(u) && Exec(u, after) == Some(v)
    ensures t in v.discoveries
    ensures v.discoveries[t].Replied? ==>
              forall x :: x in v.discoveries[t].addrs ==> x in At(s.view.servers, n) || exists r ::
                r in Announced(after, n) && r.1 == x
  {
    hide Reachable, Next, Among;
    var ys := (set x | x in At(s.view.servers, n)) + (set r | r in Announced(after, n) :: r.1);
    StartAmong(s, t, n, caller, u, ys);
    RunAnswersAmong(u, after, t, n, ys);
  }

  // ---------------------------------------------------------------- answer and notifications together

  /** Discover call `d` has not subscribed its caller yet. */
  ghost predicate NotYet(s: State, d: Tid) {
    d in s.discoveries && s.discoveries[d].HasRead?
  }

  /** Between its two sections Discover call `d` is not overtaken: no loop of a change made since (not in `earlier`)
      reads n's list. Afterwards the caller is neither unsubscribed nor taken from such a loop. */
  ghost predicate Keeps(s: State, a: Action, d: Tid, n: Name, caller: Addr, earlier: set<Tid>)
    requires Wf(s.lists)
  {
    if NotYet(s, d) then forall t :: t !in earlier ==> !Reads(s, a, t, n)
    else Removes(s, a, n) != Some(caller) && forall t :: t !in earlier ==> !Loses(s, a, t, n, caller)
  }

  ghost predicate KeepsThroughout(s: State, acts: seq<Action>, d: Tid, n: Name, caller: Addr, earlier: set<Tid>)
    requires Wf(s.lists)
    decreases |acts|
  {
    acts == [] || (Keeps(s, acts[0], d, n, caller, earlier) &&
                   (Next(s, acts[0]).Some? ==>
                     KeepsThroughout(Next(s, acts[0]).value, acts[1..], d, n, caller, earlier)))
  }

  /** Loop `t` will reach the caller: it has n still to read while the call has not subscribed, and later has it
      pending. */
  ghost predicate WillTell(s: State, d: Tid, n: Name, caller: Addr, t: Tid) {
    t in s.loops && (if NotYet(s, d) then n in s.loops[t].todo else Pending(s, t, n, caller))
  }

  /** The call has answered `a`, or its header still has it in view. */
  ghost predicate InAnswer(s: State, d: Tid, n: Name, a: Addr)
    requires d in s.discoveries
  {
    if s.discoveries[d].Replied? then a in s.discoveries[d].addrs
      else Kept(s.lists, Servers(n), s.discoveries[d].head, a)
  }

  /** Every server of n is in the answer, or a loop started since will tell. */
  ghost predicate Covered(s: State, d: Tid, n: Name, caller: Addr, earlier: set<Tid>, regs: set<(Tid, Addr)>) {
    && d in s.discoveries && (s.discoveries[d].HasRead? ==>
      s.discoveries[d].name == n && s.discoveries[d].caller == caller)
    && earlier <= s.loops.Keys
    && (NotYet(s, d) || caller in At(s.view.subscribers, n))
    && forall a :: a in At(s.view.servers, n) ==> InAnswer(s, d, n, a) || TellsOf(s, d, n, caller, earlier, regs, a)
  }

  /** One of the registrations of `a` is by a loop that will tell. */
  ghost predicate TellsOf(s: State, d: Tid, n: Name, caller: Addr, earlier: set<Tid>, regs: set<(Tid, Addr)>, a: Addr) {
    exists t :: (t, a) in regs && t !in earlier && WillTell(s, d, n, caller, t)
  }

  /** Only a registration adds a server to n. */
  lemma ServersFrom(s: State, a: Action, n: Name, addr: Addr)
    requires Inv(s) && Next(s, a).Some? && addr in At(Next(s, a).value.view.servers, n)
    ensures addr in At(s.view.servers, n) || (a.Register? && a.addr == addr && n in a.services && a.tid !in s.loops)
  {
    if a.Evict? { RemoveFirstIsWithout(At(s.view.servers, n), a.addr); }
  }

  /** Until it reads n's list, a loop keeps n among the names it has to do. */
  lemma StepKeepsTodo(s: State, a: Action, n: Name, t: Tid)
    requires Inv(s) && Next(s, a).Some? && t in s.loops && n in s.loops[t].todo && !Reads(s, a, t, n)
    ensures t in Next(s, a).value.loops && n in Next(s, a).value.loops[t].todo
  {
    LoopKept(s, a, t);
    hide Consistent, Registered, Evicted, Subscribed, Unsubscribed, InsertAll, RemoveAll, Insert, Remove, Shows;
  }

  lemma StepWillTell(s: State, a: Action, d: Tid, n: Name, caller: Addr, t: Tid, earlier: set<Tid>)
    requires Inv(s) && Next(s, a).Some? && d in s.discoveries && Keeps(s, a, d, n, caller, earlier) && t !in earlier
    requires WillTell(s, d, n, caller, t)
    requires NotYet(s, d) || caller in At(s.view.subscribers, n)
    ensures WillTell(Next(s, a).value, d, n, caller, t)
  {
    if NotYet(s, d) {
      assert !Reads(s, a, t, n);
      StepKeepsTodo(s, a, n, t);
      hide Inv, Next, Loses;
    } else {
      StepPending(s, a, t, n, caller);
      StillNot(s, a, d);
      hide Inv, Next, Loses, Pending;
    }
  }

  lemma StillNot(s: State, a: Action, d: Tid)
    requires Inv(s) && Next(s, a).Some? && d in s.discoveries && !NotYet(s, d)
    ensures !NotYet(Next(s, a).value, d)
  {
    hide Consistent, Registered, Evicted, Subscribed, Unsubscribed, InsertAll, RemoveAll, Insert, Remove, Shows;
    ListsWf(s);
  }

  /** A discovery keeps its name and caller until it subscribes, and then has subscribed. */
  lemma StepDiscovery(s: State, a: Action, d: Tid, n: Name, caller: Addr)
    requires Inv(s) && Next(s, a).Some? && d in s.discoveries
    requires (s.discoveries[d].HasRead? ==> s.discoveries[d].name == n && s.discoveries[d].caller == caller)
    ensures var u := Next(s, a).value;
            && d in u.discoveries && (u.discoveries[d].HasRead? ==>
              u.discoveries[d] == s.discoveries[d]) && s.loops.Keys <= u.loops.Keys
            && (NotYet(s, d) && !NotYet(u, d) ==> caller in At(u.view.subscribers, n))
  {
    hide Consistent, Registered, Evicted, InsertAll, RemoveAll, Insert, Remove;
  }

  lemma ServersProper(s: State, n: Name)
    requires Inv(s)
    ensures Wf(s.lists) && NoDup(At(s.view.servers, n))
  {
  }

  /** Who is still a server of n was not evicted from it. */
  lemma NotEvicted(s: State, a: Action, n: Name, addr: Addr)
    requires Inv(s) && Next(s, a).Some? && addr in At(Next(s, a).value.view.servers, n)
    ensures !(EvictsFrom(s, a, n) && a.addr == addr)
  {
    hide InsertAll, RemoveAll, Insert, Remove, Registered;
    if EvictsFrom(s, a, n) {
      ServersProper(s, n);
      RemoveFirstIsWithout(At(s.view.servers, n), a.addr);
    }
  }

  lemma KeptIsRead(t: Table, k: ListKey, h: Header, x: Addr)
    requires Kept(t, k, h, x)
    ensures x in Read(t, h)
  {
    var i :| 0 <= i < h.len && t.heap[h.arr][i] == x;
    assert Read(t, h)[i] == x;
  }

  lemma StepInAnswer(s: State, a: Action, d: Tid, n: Name, addr: Addr)
    requires Inv(s) && Next(s, a).Some? && d in s.discoveries && InAnswer(s, d, n, addr)
    requires addr in At(Next(s, a).value.view.servers, n)
    ensures d in Next(s, a).value.discoveries && InAnswer(Next(s, a).value, d, n, addr)
  {
    hide Consistent, Registered, Evicted, InsertAll, RemoveAll, Insert, Remove, Kept, EvictsFrom, Read;
    if !s.discoveries[d].Replied? {
      NotEvicted(s, a, n, addr);
      StepKeepsKept(s, a, n, s.discoveries[d].head, addr);
      KeptIsRead(s.lists, Servers(n), s.discoveries[d].head, addr);
    }
  }

  lemma StepTellsOf(s: State, a: Action, d: Tid, n: Name, caller: Addr, earlier: set<Tid>, regs: set<(Tid, Addr)>,
          addr: Addr)
    requires Inv(s) && Next(s, a).Some? && Covered(s, d, n, caller, earlier, regs) && Keeps(s, a, d, n, caller, earlier)
    requires addr in At(Next(s, a).value.view.servers, n)
    ensures d in Next(s, a).value.discoveries
    ensures InAnswer(Next(s, a).value, d, n, addr) ||
            TellsOf(Next(s, a).value, d, n, caller, earlier, regs + Announced([a], n), addr)
  {
    hide Inv, Next, Loses, WillTell, Pending, Keeps, InAnswer;
    ServersFrom(s, a, n, addr);
    StepDiscovery(s, a, d, n, caller);
    if addr in At(s.view.servers, n) {
      if InAnswer(s, d, n, addr) {
        StepInAnswer(s, a, d, n, addr);
      } else {
        var t :| (t, addr) in regs && t !in earlier && WillTell(s, d, n, caller, t);
        StepWillTell(s, a, d, n, caller, t, earlier);
        assert (t, addr) in regs + Announced([a], n);
      }
    } else {
      JustRegistered(s, a, d, n, caller);
      assert (a.tid, addr) in Announced([a], n);
    }
  }

  lemma StepCovered(s: State, a: Action, d: Tid, n: Name, caller: Addr, earlier: set<Tid>, regs: set<(Tid, Addr)>)
    requires Inv(s) && Next(s, a).Some? && Covered(s, d, n, caller, earlier, regs) && Keeps(s, a, d, n, caller, earlier)
    ensures Covered(Next(s, a).value, d, n, caller, earlier, regs + Announced([a], n))
  {
    hide Consistent, Next, TellsOf, Loses;
    var u := Next(s, a).value;
    StepDiscovery(s, a, d, n, caller);
    if !NotYet(s, d) { StepKeepsSubscribed(s, a, n, caller); }
    forall addr | addr in At(u.view.servers, n)
      ensures InAnswer(u, d, n, addr) || TellsOf(u, d, n, caller, earlier, regs + Announced([a], n), addr)
    {
      StepTellsOf(s, a, d, n, caller, earlier, regs, addr);
    }
  }

  lemma JustRegistered(s: State, a: Action, d: Tid, n: Name, caller: Addr)
    requires Inv(s) && Next(s, a).Some? && a.Register? && n in a.services
    ensures WillTell(Next(s, a).value, d, n, caller, a.tid)
  {
  }

  lemma AnnouncedSplit(acts: seq<Action>, n: Name)
    requires acts != []
    ensures Announced(acts, n) == Announced([acts[0]], n) + Announced(acts[1..], n)
  {
    assert [acts[0]][1..] == [];
  }

  lemma {:induction false} RunCovered(s: State, acts: seq<Action>, d: Tid, n: Name, caller: Addr, earlier: set<Tid>,
          regs: set<(Tid, Addr)>)
    requires Inv(s) && Exec(s, acts).Some? && Covered(s, d, n, caller, earlier, regs)
    requires KeepsThroughout(s, acts, d, n, caller, earlier)
    ensures Covered(Exec(s, acts).value, d, n, caller, earlier, regs + Announced(acts, n))
    decreases |acts|
  {
    if acts == [] {
      assert regs + Announced(acts, n) == regs;
    } else {
      var first := Announced([acts[0]], n);
      AnnouncedSplit(acts, n);
      assert regs + Announced(acts, n) == regs + first + Announced(acts[1..], n);
      KeepInv(s, acts[0]);
      StepCovered(s, acts[0], d, n, caller, earlier, regs);
      RunCovered(Next(s, acts[0]).value, acts[1..], d, n, caller, earlier, regs + first);
    }
  }

  /** One of the registrations of `a` is by a loop that has told the caller once it is through. */
  ghost predicate Told(s: State, n: Name, caller: Addr, regs: set<(Tid, Addr)>, a: Addr) {
    exists t :: (t, a) in regs && t in s.loops && (Through(s, t) ==> (n, caller) in s.loops[t].sent)
  }

  lemma TellsThenTold(s: State, d: Tid, n: Name, caller: Addr, earlier: set<Tid>, regs: set<(Tid, Addr)>, a: Addr)
    requires !NotYet(s, d) && TellsOf(s, d, n, caller, earlier, regs, a)
    ensures Told(s, n, caller, regs, a)
  {
    var t :| (t, a) in regs && t !in earlier && WillTell(s, d, n, caller, t);
    assert (t, a) in regs && t in s.loops && (Through(s, t) ==> (n, caller) in s.loops[t].sent);
  }

  lemma StartCovered(s: State, d: Tid, n: Name, caller: Addr, u: State)
    requires Reachable(s) && Wf(s.lists) && Next(s, DiscoverRead(d, n, caller)) == Some(u)
    ensures Inv(u) && Covered(u, d, n, caller, u.loops.Keys, {})
  {
    ReachableInv(s);
    KeepInv(s, DiscoverRead(d, n, caller));
    var xs, h := At(s.view.servers, n), u.discoveries[d].head;
    assert Get(s.lists, Servers(n)) == xs;
    forall a | a in xs ensures InAnswer(u, d, n, a) {
      var i :| 0 <= i < |xs| && xs[i] == a;
      assert u.lists.heap[h.arr][i] == a;
    }
  }

  /** Nothing is missed between a Discover answer and the notifications: once the call has answered, every server of
      the name is in the answer or was registered since by a call whose loop has sent the caller its change when it
      is through, also if evictions shift the list under the answer. Needed is that no such loop reads the
      subscribers between the call's two sections, and that the caller is then neither unsubscribed nor taken from
      those loops. */
  lemma DiscoverCovers(s: State, d: Tid, n: Name, caller: Addr, u: State, after: seq<Action>, v: State)
    requires Reachable(s) && Wf(s.lists) && Next(s, DiscoverRead(d, n, caller)) == Some(u)
    requires Exec(u, after) == Some(v) && KeepsThroughout(u, after, d, n, caller, u.loops.Keys)
    ensures d in v.discoveries
    ensures v.discoveries[d].Replied? ==>
              forall a ::
                a in At(v.view.servers, n) ==> a in v.discoveries[d].addrs || Told(v, n, caller, Announced(after, n), a)
  {
    hide Told, TellsOf, KeepsThroughout, Reachable, Inv, Next;
    StartCovered(s, d, n, caller, u);
    RunCovered(u, after, d, n, caller, u.loops.Keys, {});
    assert {} + Announced(after, n) == Announced(after, n);
    if v.discoveries[d].Replied? {
      forall a | a in At(v.view.servers, n) &&
        a !in v.discoveries[d].addrs ensures Told(v, n, caller, Announced(after, n), a) {
        TellsThenTold(v, d, n, caller, u.loops.Keys, Announced(after, n), a);
      }
    }
  }

  // ---------------------------------------------------------------- the same in terms a caller can read

  /** No loop started since reads n's list between the two sections of Discover call `d`. */
  ghost predicate NotOvertaken(s: State, acts: seq<Action>, d: Tid, n: Name, earlier: set<Tid>)
    requires Wf(s.lists)
    decreases |acts|
  {
    acts == [] || (
      && (NotYet(s, d) ==> forall t :: t !in earlier ==> !Reads(s, acts[0], t, n))
      && (Next(s, acts[0]).Some? ==> NotOvertaken(Next(s, acts[0]).value, acts[1..], d, n, earlier)))
  }

  /** Every loop started since walks n's list as it was when the loop read it. */
  ghost predicate LaterSnapshots(s: State, n: Name, earlier: set<Tid>) {
    forall t {:trigger WalksSnapshot(s, t, n)} :: t !in earlier ==> WalksSnapshot(s, t, n)
  }

  lemma StepLaterSnapshots(s: State, a: Action, n: Name, earlier: set<Tid>)
    requires Inv(s) && Next(s, a).Some? && LaterSnapshots(s, n, earlier) && Removes(s, a, n).None?
    ensures LaterSnapshots(Next(s, a).value, n, earlier)
  {
    hide WalksSnapshot;
    var u := Next(s, a).value;
    forall t | t !in earlier ensures WalksSnapshot(u, t, n) {
      assert WalksSnapshot(s, t, n);
      if t in s.loops { StepWalksSnapshot(s, a, t, n); } else { StartsSnapshot(s, a, t, n); }
    }
  }

  /** A loop that has just started walks nothing yet. */
  lemma StartsSnapshot(s: State, a: Action, t: Tid, n: Name)
    requires Inv(s) && Next(s, a).Some? && t !in s.loops
    ensures WalksSnapshot(Next(s, a).value, t, n)
  {
  }

  lemma {:induction false} NoRemovalKeeps(s: State, acts: seq<Action>, d: Tid, n: Name, caller: Addr, earlier: set<Tid>)
    requires Inv(s) && Exec(s, acts).Some? && LaterSnapshots(s, n, earlier)
    requires NoRemoval(s, acts, n) && NotOvertaken(s, acts, d, n, earlier)
    ensures KeepsThroughout(s, acts, d, n, caller, earlier)
    decreases |acts|
  {
    hide Loses, WalksSnapshot;
    if acts != [] {
      var a := acts[0];
      forall t | t !in earlier ensures !Loses(s, a, t, n, caller) {
        assert WalksSnapshot(s, t, n);
        NothingLost(s, a, t, n, caller);
      }
      StepLaterSnapshots(s, a, n, earlier);
      KeepInv(s, a);
      NoRemovalKeeps(Next(s, a).value, acts[1..], d, n, caller, earlier);
    }
  }

  lemma NoneLater(s: State, n: Name)
    ensures LaterSnapshots(s, n, s.loops.Keys)
  {
  }

  /** If nobody is removed from n's subscribers after Discover has read n's servers, and no loop started since reads
      n's subscribers before Discover has subscribed its caller, then answer and notifications together tell the
      caller every server of n. */
  lemma DiscoverMissesNothing(s: State, d: Tid, n: Name, caller: Addr, u: State, after: seq<Action>, v: State)
    requires Reachable(s) && Wf(s.lists) && Next(s, DiscoverRead(d, n, caller)) == Some(u)
    requires Exec(u, after) == Some(v) && NoRemoval(u, after, n) && NotOvertaken(u, after, d, n, u.loops.Keys)
    ensures d in v.discoveries
    ensures v.discoveries[d].Replied? ==>
            forall a :: a in At(v.view.servers, n) ==>
                          a in v.discoveries[d].addrs || Told(v, n, caller, Announced(after, n), a)
  {
    hide Told, KeepsThroughout, Reachable, NoRemoval, NotOvertaken, LaterSnapshots;
    ReachableInv(s);
    KeepInv(s, DiscoverRead(d, n, caller));
    NoneLater(u, n);
    NoRemovalKeeps(u, after, d, n, caller, u.loops.Keys);
    DiscoverCovers(s, d, n, caller, u, after, v);
  }
}
