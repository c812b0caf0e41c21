/** What every step leaves of a header that a loop or a Discover call read earlier. */
module RegistryHeaders {
  import opened Common
  import opened RegistryTables
  import opened SliceHeap
  import opened RegistryRuns

  /** The subscriber a step cuts out of n's list, if it is a removeSubscriber on n. */
  function Removes(s: State, a: Action, n: Name): Option<Addr> {
    match a
    case Clean(t) =>
      if t in s.loops && s.loops[t].phase.Cleaning? && s.loops[t].phase.name == n then Some(s.loops[t].phase.addr)
        else None
    case SendFails(_, m, addr) => if m == n then Some(addr) else None
    case _ => None
  }

  predicate EvictsFrom(s: State, a: Action, n: Name) {
    a.Evict? && n in At(s.view.names, a.addr)
  }

  /** The step may cut an element out of list `k`. */
  predicate MayCut(s: State, a: Action, k: ListKey) {
    match k
    case Servers(n) => EvictsFrom(s, a, n)
    case Subscribers(n) => Removes(s, a, n).Some?
  }

  // ---------------------------------------------------------------- steps that cut nothing out

  lemma {:induction false} InsertAllKeepsSnapshot(t: Table, k: ListKey, h: Header, services: seq<Name>, a: Addr,
          spares: seq<nat>)
    requires Wf(t) && Snapshot(t, k, h) && |spares| == |services|
    ensures Snapshot(InsertAll(t, services, a, spares), k, h)
    ensures Read(InsertAll(t, services, a, spares), h) == Read(t, h)
  {
    if services != [] {
      var i := |services| - 1;
      InsertAllKeepsSnapshot(t, k, h, services[..i], a, spares[..i]);
      AppendKeepsSnapshot(InsertAll(t, services[..i], a, spares[..i]), k, h, Servers(services[i]), a, spares[i]);
    }
  }

  lemma RemoveElsewhereKeepsSnapshot(t: Table, k: ListKey, h: Header, j: ListKey, a: Addr)
    requires Wf(t) && Snapshot(t, k, h) && j != k
    ensures Snapshot(Remove(t, j, a), k, h) && Read(Remove(t, j, a), h) == Read(t, h)
    ensures Snapshot(RemoveOrDrop(t, j, a), k, h) && Read(RemoveOrDrop(t, j, a), h) == Read(t, h)
  {
    if a in Get(t, j) { CutElsewhereKeepsSnapshot(t, k, h, j, IndexOf(Get(t, j), a)); }
  }

  lemma {:induction false} RemoveAllKeepsSnapshot(t: Table, k: ListKey, h: Header, gone: seq<Name>, a: Addr)
    requires Wf(t) && Snapshot(t, k, h) && forall m :: m in gone ==> Servers(m) != k
    ensures Snapshot(RemoveAll(t, gone, a), k, h) && Read(RemoveAll(t, gone, a), h) == Read(t, h)
  {
    if gone != [] {
      var i := |gone| - 1;
      RemoveAllKeepsSnapshot(t, k, h, gone[..i], a);
      RemoveElsewhereKeepsSnapshot(RemoveAll(t, gone[..i], a), k, h, Servers(gone[i]), a);
    }
  }

  /** Unless the step may cut from the list itself, the header goes on showing what it showed. */
  lemma StepKeepsSnapshot(s: State, a: Action, k: ListKey, h: Header)
    requires Wf(s.lists) && Next(s, a).Some? && Snapshot(s.lists, k, h) && !MayCut(s, a, k)
    ensures var u := Next(s, a).value; Snapshot(u.lists, k, h) && Read(u.lists, h) == Read(s.lists, h)
  {
    match a
    case Register(_, addr, services, spares) => InsertAllKeepsSnapshot(s.lists, k, h, services, addr, spares);
    case Evict(_, addr) => RemoveAllKeepsSnapshot(s.lists, k, h, At(s.view.names, addr), addr);
    case Clean(t) => RemoveElsewhereKeepsSnapshot(s.lists, k, h, Subscribers(s.loops[t].phase.name),
      s.loops[t].phase.addr);
    case SendFails(_, m, addr) => RemoveElsewhereKeepsSnapshot(s.lists, k, h, Subscribers(m), addr);
    case DiscoverSubscribe(t, spare) =>
      AppendKeepsSnapshot(s.lists, k, h, Subscribers(s.discoveries[t].name), s.discoveries[t].caller, spare);
    case _ =>
  }

  // ---------------------------------------------------------------- exactly when a server list's header shows a change

  lemma {:induction false} InsertAllSameList(t: Table, n: Name, h: Header, services: seq<Name>, a: Addr,
          spares: seq<nat>)
    requires Wf(t) && Owned(t, Servers(n), h) && |spares| == |services| && n !in services
    ensures SameList(t, InsertAll(t, services, a, spares), Servers(n), h)
  {
    if services != [] {
      var i := |services| - 1;
      InsertAllSameList(t, n, h, services[..i], a, spares[..i]);
      InsertAllKeepsOwned(t, Servers(n), h, services[..i], a, spares[..i]);
      InsertSameList(InsertAll(t, services[..i], a, spares[..i]), Servers(n), h, Servers(services[i]), a, spares[i]);
    }
  }

  /** One more round of Register's loop. */
  lemma RoundShowsThrough(t: Table, part: Table, n: Name, h: Header, m: Name, a: Addr, spare: nat, before: bool)
    requires Wf(t) && Wf(part) && Owned(t, Servers(n), h) && Owned(part, Servers(n), h)
    requires if before then a in Get(part, Servers(n)) else SameList(t, part, Servers(n), h)
    requires Read(part, h) == Read(t, h) <==> !(before && WritesUnder(t, Servers(n), h, a))
    ensures var u := Insert(part, Servers(m), a, spare);
            && Wf(u) && Readable(u, h) && (before || m == n ==> a in Get(u, Servers(n)))
            && (Read(u, h) == Read(t, h) <==> !((before || m == n) && WritesUnder(t, Servers(n), h, a)))
  {
    InsertMeans(part, Servers(m), a, spare);
    if m != n {
      InsertSameList(part, Servers(n), h, Servers(m), a, spare);
    } else if !before {
      InsertShowsThrough(part, Servers(n), h, a, spare);
    }
  }

  /** Registering in several services at once shows through like a single insertion into the header's list. */
  lemma {:induction false} InsertAllShowsThrough(t: Table, n: Name, h: Header, services: seq<Name>, a: Addr,
          spares: seq<nat>)
    requires Wf(t) && Owned(t, Servers(n), h) && |spares| == |services|
    ensures var u := InsertAll(t, services, a, spares);
            && Owned(u, Servers(n), h) && (n in services ==> a in Get(u, Servers(n)))
            && (Read(u, h) == Read(t, h) <==> !(n in services && WritesUnder(t, Servers(n), h, a)))
  {
    hide Insert, WritesUnder, SameList, Get;
    InsertAllKeepsOwned(t, Servers(n), h, services, a, spares);
    if services != [] {
      var i := |services| - 1;
      var part := InsertAll(t, services[..i], a, spares[..i]);
      assert services == services[..i] + [services[i]];
      InsertAllShowsThrough(t, n, h, services[..i], a, spares[..i]);
      if n !in services[..i] { InsertAllSameList(t, n, h, services[..i], a, spares[..i]); }
      RoundShowsThrough(t, part, n, h, services[i], a, spares[i], n in services[..i]);
    }
  }

  lemma {:induction false} RemoveAllSameList(t: Table, n: Name, h: Header, gone: seq<Name>, a: Addr)
    requires Wf(t) && Owned(t, Servers(n), h) && n !in gone
    ensures SameList(t, RemoveAll(t, gone, a), Servers(n), h)
  {
    if gone != [] {
      var i := |gone| - 1;
      RemoveAllSameList(t, n, h, gone[..i], a);
      RemoveAllKeepsOwned(t, Servers(n), h, gone[..i], a);
      RemoveSameList(RemoveAll(t, gone[..i], a), Servers(n), h, Servers(gone[i]), a);
    }
  }

  /** One more round of the eviction loop. */
  lemma RoundCutsThrough(t: Table, part: Table, n: Name, h: Header, m: Name, a: Addr, before: bool)
    requires Wf(t) && Wf(part) && Owned(t, Servers(n), h) && Owned(part, Servers(n), h) && NoDup(Get(part, Servers(n)))
    requires if before then a !in Get(part, Servers(n)) else SameList(t, part, Servers(n), h)
    requires Read(part, h) == Read(t, h) <==> !(before && CutsUnder(t, Servers(n), h, a))
    ensures var u := RemoveOrDrop(part, Servers(m), a);
            && Wf(u) && Readable(u, h) && NoDup(Get(u, Servers(n))) && (before || m == n ==> a !in Get(u, Servers(n)))
            && (Read(u, h) == Read(t, h) <==> !((before || m == n) && CutsUnder(t, Servers(n), h, a)))
  {
    hide RemoveFirst;
    RemoveOrDropMeans(part, Servers(m), a);
    RemoveFirstIsWithout(Get(part, Servers(n)), a);
    if m != n {
      RemoveSameList(part, Servers(n), h, Servers(m), a);
    } else {
      RemoveShowsThrough(part, Servers(n), h, a);
    }
  }

  /** Evicting from several services at once shows through like a single removal from the header's list. */
  lemma {:induction false} RemoveAllShowsThrough(t: Table, n: Name, h: Header, gone: seq<Name>, a: Addr)
    requires Wf(t) && Owned(t, Servers(n), h) && NoDup(Get(t, Servers(n)))
    ensures var u := RemoveAll(t, gone, a);
            && Owned(u, Servers(n), h) && NoDup(Get(u, Servers(n))) && (n in gone ==> a !in Get(u, Servers(n)))
            && (Read(u, h) == Read(t, h) <==> !(n in gone && CutsUnder(t, Servers(n), h, a)))
  {
    hide RemoveOrDrop, CutsUnder, SameList, Get;
    RemoveAllKeepsOwned(t, Servers(n), h, gone, a);
    if gone != [] {
      var i := |gone| - 1;
      assert gone == gone[..i] + [gone[i]];
      RemoveAllShowsThrough(t, n, h, gone[..i], a);
      RemoveAllKeepsOwned(t, Servers(n), h, gone[..i], a);
      if n !in gone[..i] { RemoveAllSameList(t, n, h, gone[..i], a); }
      RoundCutsThrough(t, RemoveAll(t, gone[..i], a), n, h, gone[i], a, n in gone[..i]);
    }
  }

  /** The step changes what header `h` of n's servers shows: an eviction moves elements in view, or a registration
      writes into a slot in view that evictions have freed. */
  predicate ShowsThrough(s: State, a: Action, n: Name, h: Header)
    requires Wf(s.lists)
  {
    || (a.Register? && n in a.services && WritesUnder(s.lists, Servers(n), h, a.addr))
    || (EvictsFrom(s, a, n) && CutsUnder(s.lists, Servers(n), h, a.addr))
  }

  lemma StepShowsThrough(s: State, a: Action, n: Name, h: Header)
    requires Inv(s) && Next(s, a).Some? && Owned(s.lists, Servers(n), h)
    ensures var u := Next(s, a).value;
            Owned(u.lists, Servers(n), h) && (Read(u.lists, h) == Read(s.lists, h) <==> !ShowsThrough(s, a, n, h))
  {
    StepKeepsOwned(s, a, Servers(n), h);
    assert Get(s.lists, Servers(n)) == At(s.view.servers, n);
    match a
    case Register(_, addr, services, spares) => InsertAllShowsThrough(s.lists, n, h, services, addr, spares);
    case Evict(_, addr) => RemoveAllShowsThrough(s.lists, n, h, At(s.view.names, addr), addr);
    case Clean(t) => RemoveSameList(s.lists, Servers(n), h, Subscribers(s.loops[t].phase.name), s.loops[t].phase.addr);
    case SendFails(_, m, addr) => RemoveSameList(s.lists, Servers(n), h, Subscribers(m), addr);
    case DiscoverSubscribe(t, spare) =>
      InsertSameList(s.lists, Servers(n), h, Subscribers(s.discoveries[t].name), s.discoveries[t].caller, spare);
    case _ =>
  }

  // ---------------------------------------------------------------- who stays in view, and who can come into view

  lemma {:induction false} InsertAllKeepsKept(t: Table, k: ListKey, h: Header, x: Addr, services: seq<Name>, a: Addr,
          spares: seq<nat>)
    requires Wf(t) && Kept(t, k, h, x) && |spares| == |services|
    ensures Kept(InsertAll(t, services, a, spares), k, h, x)
  {
    if services != [] {
      var i := |services| - 1;
      InsertAllKeepsKept(t, k, h, x, services[..i], a, spares[..i]);
      InsertKeepsKept(InsertAll(t, services[..i], a, spares[..i]), k, h, x, Servers(services[i]), a, spares[i]);
    }
  }

  lemma {:induction false} RemoveAllKeepsKept(t: Table, k: ListKey, h: Header, x: Addr, gone: seq<Name>, a: Addr)
    requires Wf(t) && Kept(t, k, h, x) && (a == x ==> forall m :: m in gone ==> Servers(m) != k)
    ensures Kept(RemoveAll(t, gone, a), k, h, x)
  {
    if gone != [] {
      var i := |gone| - 1;
      RemoveAllKeepsKept(t, k, h, x, gone[..i], a);
      RemoveKeepsKept(RemoveAll(t, gone[..i], a), k, h, x, Servers(gone[i]), a);
    }
  }

  /** A server the step does not evict stays in view of the header, wherever the step moves it. */
  lemma StepKeepsKept(s: State, a: Action, n: Name, h: Header, x: Addr)
    requires Inv(s) && Next(s, a).Some? && Kept(s.lists, Servers(n), h, x) && !(EvictsFrom(s, a, n) && a.addr == x)
    ensures Kept(Next(s, a).value.lists, Servers(n), h, x)
  {
    match a
    case Register(_, addr, services, spares) => InsertAllKeepsKept(s.lists, Servers(n), h, x, services, addr, spares);
    case Evict(_, addr) => RemoveAllKeepsKept(s.lists, Servers(n), h, x, At(s.view.names, addr), addr);
    case Clean(t) => RemoveKeepsKept(s.lists, Servers(n), h, x, Subscribers(s.loops[t].phase.name),
      s.loops[t].phase.addr);
    case SendFails(_, m, addr) => RemoveKeepsKept(s.lists, Servers(n), h, x, Subscribers(m), addr);
    case DiscoverSubscribe(t, spare) =>
      InsertKeepsKept(s.lists, Servers(n), h, x, Subscribers(s.discoveries[t].name), s.discoveries[t].caller, spare);
    case _ =>
  }

  lemma {:induction false} InsertAllKeepsAmong(t: Table, k: ListKey, h: Header, ys: set<Addr>, services: seq<Name>,
          a: Addr, spares: seq<nat>)
    requires Wf(t) && Among(t, k, h, ys) && |spares| == |services| && forall m ::
             m in services && Servers(m) == k ==> a in ys
    ensures Among(InsertAll(t, services, a, spares), k, h, ys)
  {
    if services != [] {
      var i := |services| - 1;
      InsertAllKeepsAmong(t, k, h, ys, services[..i], a, spares[..i]);
      InsertKeepsAmong(InsertAll(t, services[..i], a, spares[..i]), k, h, ys, Servers(services[i]), a, spares[i]);
    }
  }

  lemma {:induction false} RemoveAllKeepsAmong(t: Table, k: ListKey, h: Header, ys: set<Addr>, gone: seq<Name>, a: Addr)
    requires Wf(t) && Among(t, k, h, ys)
    ensures Among(RemoveAll(t, gone, a), k, h, ys)
  {
    if gone != [] {
      var i := |gone| - 1;
      RemoveAllKeepsAmong(t, k, h, ys, gone[..i], a);
      RemoveKeepsAmong(RemoveAll(t, gone[..i], a), k, h, ys, Servers(gone[i]), a);
    }
  }

  /** Only a registration brings a new address into view. */
  lemma StepKeepsAmong(s: State, a: Action, n: Name, h: Header, ys: set<Addr>)
    requires Wf(s.lists) && Next(s, a).Some? && Among(s.lists, Servers(n), h, ys)
    requires (a.Register? && n in a.services ==> a.addr in ys)
    ensures Among(Next(s, a).value.lists, Servers(n), h, ys)
  {
    match a
    case Register(_, addr, services, spares) => InsertAllKeepsAmong(s.lists, Servers(n), h, ys, services, addr, spares);
    case Evict(_, addr) => RemoveAllKeepsAmong(s.lists, Servers(n), h, ys, At(s.view.names, addr), addr);
    case Clean(t) => RemoveKeepsAmong(s.lists, Servers(n), h, ys, Subscribers(s.loops[t].phase.name),
      s.loops[t].phase.addr);
    case SendFails(_, m, addr) => RemoveKeepsAmong(s.lists, Servers(n), h, ys, Subscribers(m), addr);
    case DiscoverSubscribe(t, spare) =>
      InsertKeepsAmong(s.lists, Servers(n), h, ys, Subscribers(s.discoveries[t].name), s.discoveries[t].caller, spare);
    case _ =>
  }
}
