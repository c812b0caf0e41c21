/** The registry under any interleaving of calls, evictions, notification loops and failing sends, step by step. */
module RegistryRuns {
  import opened Common
  import opened RegistryTables
  import opened SliceHeap

  type Tid = nat

  /** A change's notification loop: names still to do, and the header of the name being notified with the
      index of the next subscriber to visit. `Cleaning` is between finding no client and removeSubscriber. */
  datatype LoopPhase =
    | Between
    | Visiting(name: Name, head: Header, next: nat)
    | Cleaning(name: Name, head: Header, next: nat, addr: Addr)
  datatype Loop = Loop(todo: seq<Name>, phase: LoopPhase, sent: set<(Name, Addr)>)

  /** A Discover call: header read, then subscribed, then the response copied. */
  datatype Discovery =
    | HasRead(name: Name, caller: Addr, head: Header)
    | HasSubscribed(name: Name, head: Header)
    | Replied(addrs: seq<Addr>)

  /** `lists` is what the program stores; `view` the same as plain lists, with the name table and clients. */
  datatype State = State(lists: Table, view: Registry, loops: map<Tid, Loop>, discoveries: map<Tid, Discovery>)

  datatype Action =
    | Register(tid: Tid, addr: Addr, services: seq<Name>, spares: seq<nat>)
    | Evict(tid: Tid, addr: Addr)
    | BeginName(tid: Tid)
    | Visit(tid: Tid)
    | Clean(tid: Tid)
    | EndName(tid: Tid)
    | SendFails(tid: Tid, name: Name, addr: Addr)
    | DiscoverRead(tid: Tid, name: Name, caller: Addr)
    | DiscoverSubscribe(tid: Tid, spare: nat)
    | DiscoverReply(tid: Tid)

  /** Register's loop over the services; `spares` is the room Go leaves in each list's array if it has to grow. */
  function InsertAll(t: Table, services: seq<Name>, a: Addr, spares: seq<nat>): (u: Table)
    requires Wf(t) && |spares| == |services|
    ensures Wf(u)
  {
    if services == [] then t
    else
      var i := |services| - 1;
      var part := InsertAll(t, services[..i], a, spares[..i]);
      InsertMeans(part, Servers(services[i]), a, spares[i]);
      Insert(part, Servers(services[i]), a, spares[i])
  }

  function RemoveAll(t: Table, gone: seq<Name>, a: Addr): (u: Table)
    requires Wf(t)
    ensures Wf(u)
  {
    if gone == [] then t
    else
      var part := RemoveAll(t, gone[..|gone| - 1], a);
      RemoveOrDropMeans(part, Servers(gone[|gone| - 1]), a);
      RemoveOrDrop(part, Servers(gone[|gone| - 1]), a)
  }

  const NIL := Header(0, 0)

  function HeaderOf(t: Table, k: ListKey): Header {
    if k in t.index then t.index[k] else NIL
  }

  function InPhase(s: State, t: Tid, f: LoopPhase): State
    requires t in s.loops
  {
    s.(loops := s.loops[t := s.loops[t].(phase := f)])
  }

  /** removeSubscriber as one locked section. */
  function RemoveSubscriber(s: State, n: Name, a: Addr): (t: State)
    requires Wf(s.lists)
    ensures Wf(t.lists)
  {
    RemoveMeans(s.lists, Subscribers(n), a);
    s.(lists := Remove(s.lists, Subscribers(n), a), view := Unsubscribed(s.view, n, a))
  }

  function DoVisit(s: State, t: Tid): State
    requires t in s.loops && s.loops[t].phase.Visiting? && Readable(s.lists, s.loops[t].phase.head)
    requires s.loops[t].phase.next < s.loops[t].phase.head.len
  {
    var l := s.loops[t];
    var f := l.phase;
    var a := s.lists.heap[f.head.arr][f.next];
    if a in s.view.store then
      s.(loops := s.loops[t := Loop(l.todo, Visiting(f.name, f.head, f.next + 1), l.sent + {(f.name, a)})])
    else InPhase(s, t, Cleaning(f.name, f.head, f.next + 1, a))
  }

  function Next(s: State, a: Action): (r: Option<State>)
    requires Wf(s.lists)
    ensures r.Some? ==> Wf(r.value.lists)
  {
    match a
    case Register(t, addr, services, spares) =>
      if t in s.loops || |spares| != |services| then None
      else Some(State(InsertAll(s.lists, services, addr, spares), Registered(s.view, addr, services),
                      s.loops[t := Loop(services, Between, {})], s.discoveries))
    case Evict(t, addr) =>
      var gone := At(s.view.names, addr);
      if t in s.loops then None
      else Some(State(RemoveAll(s.lists, gone, addr), Evicted(s.view, addr),
                      s.loops[t := Loop(gone, Between, {})], s.discoveries))
    case BeginName(t) =>
      if t in s.loops && s.loops[t].phase.Between? && s.loops[t].todo != [] then
        var l := s.loops[t];
        var head := HeaderOf(s.lists, Subscribers(l.todo[0]));
        Some(s.(loops := s.loops[t := Loop(l.todo[1..], if head.len == 0 then Between
          else Visiting(l.todo[0], head, 0), l.sent)]))
      else None
    case Visit(t) =>
      if t in s.loops && s.loops[t].phase.Visiting? && Readable(s.lists, s.loops[t].phase.head) &&
         s.loops[t].phase.next < s.loops[t].phase.head.len then Some(DoVisit(s, t))
      else None
    case Clean(t) =>
      if t in s.loops && s.loops[t].phase.Cleaning? then
        var f := s.loops[t].phase;
        Some(InPhase(RemoveSubscriber(s, f.name, f.addr), t, Visiting(f.name, f.head, f.next)))
      else None
    case EndName(t) =>
      if t in s.loops && s.loops[t].phase.Visiting? && s.loops[t].phase.next == s.loops[t].phase.head.len then
        Some(InPhase(s, t, Between))
      else None
    case SendFails(t, n, addr) =>
      if t in s.loops && (n, addr) in s.loops[t].sent then Some(RemoveSubscriber(s, n, addr)) else None
    case DiscoverRead(t, n, caller) =>
      var head := HeaderOf(s.lists, Servers(n));
      if t !in s.discoveries && head.len > 0
        then Some(s.(discoveries := s.discoveries[t := HasRead(n, caller, head)])) else None
    case DiscoverSubscribe(t, spare) =>
      if t in s.discoveries && s.discoveries[t].HasRead? then
        var d := s.discoveries[t];
        InsertMeans(s.lists, Subscribers(d.name), d.caller, spare);
        Some(s.(lists := Insert(s.lists, Subscribers(d.name), d.caller, spare),
          view := Subscribed(s.view, d.name, d.caller),
                discoveries := s.discoveries[t := HasSubscribed(d.name, d.head)]))
      else None
    case DiscoverReply(t) =>
      if t in s.discoveries && s.discoveries[t].HasSubscribed? && Readable(s.lists, s.discoveries[t].head) then
        Some(s.(discoveries := s.discoveries[t := Replied(Read(s.lists, s.discoveries[t].head))]))
      else None
  }

  const START := State(Table([], map[]), EMPTY, map[], map[])

  function Exec(s: State, acts: seq<Action>): (r: Option<State>)
    requires Wf(s.lists)
    ensures r.Some? ==> Wf(r.value.lists)
    decreases |acts|
  {
    if acts == [] then Some(s)
    else
      match Next(s, acts[0])
      case None => None
      case Some(t) => Exec(t, acts[1..])
  }

  // ---------------------------------------------------------------- the stored slices show the lists

  ghost predicate ShowsServers(t: Table, m: map<Name, seq<Addr>>) {
    Wf(t) && forall n :: (Servers(n) in t.index <==> n in m) && Get(t, Servers(n)) == At(m, n)
  }

  ghost predicate ShowsSubscribers(t: Table, m: map<Name, seq<Addr>>) {
    Wf(t) && forall n :: Get(t, Subscribers(n)) == At(m, n)
  }

  lemma InsertShows(t: Table, m: map<Name, seq<Addr>>, subs: map<Name, seq<Addr>>, n: Name, a: Addr, spare: nat)
    requires ShowsServers(t, m) && ShowsSubscribers(t, subs)
    ensures var u := Insert(t, Servers(n), a, spare);
            ShowsServers(u, m[n := AddOnce(At(m, n), a)]) && ShowsSubscribers(u, subs)
  {
    hide Insert, Get, Wf;
    InsertMeans(t, Servers(n), a, spare);
  }

  lemma RemoveShows(t: Table, m: map<Name, seq<Addr>>, subs: map<Name, seq<Addr>>, n: Name, a: Addr)
    requires ShowsServers(t, m) && ShowsSubscribers(t, subs)
    ensures var u := RemoveOrDrop(t, Servers(n), a);
            ShowsServers(u, CutOne(m, n, a)) && ShowsSubscribers(u, subs)
  {
    hide RemoveOrDrop, Get, RemoveFirst, Wf;
    RemoveOrDropMeans(t, Servers(n), a);
    if a !in At(m, n) { RemoveAbsent(At(m, n), a); }
  }

  lemma {:induction false} InsertAllShows(t: Table, m: map<Name, seq<Addr>>, subs: map<Name, seq<Addr>>,
          services: seq<Name>, a: Addr, spares: seq<nat>)
    requires ShowsServers(t, m) && ShowsSubscribers(t, subs) && |spares| == |services|
    ensures var u := InsertAll(t, services, a, spares);
            ShowsServers(u, AddTo(m, services, a)) && ShowsSubscribers(u, subs)
  {
    if services == [] {
      assert AddTo(m, services, a) == m;
    } else {
      var i := |services| - 1;
      InsertAllShows(t, m, subs, services[..i], a, spares[..i]);
      InsertShows(InsertAll(t, services[..i], a, spares[..i]), AddTo(m, services[..i], a), subs, services[i], a,
        spares[i]);
      AddToStep(m, services, i, a);
      assert services[..i + 1] == services;
    }
  }

  lemma {:induction false} RemoveAllShows(t: Table, m: map<Name, seq<Addr>>, subs: map<Name, seq<Addr>>,
          gone: seq<Name>, a: Addr)
    requires ShowsServers(t, m) && ShowsSubscribers(t, subs) && ProperLists(m)
    ensures var u := RemoveAll(t, gone, a);
            ShowsServers(u, CutFrom(m, gone, a)) && ShowsSubscribers(u, subs)
  {
    if gone == [] {
      assert CutFrom(m, gone, a) == m;
    } else {
      var i := |gone| - 1;
      RemoveAllShows(t, m, subs, gone[..i], a);
      RemoveShows(RemoveAll(t, gone[..i], a), CutFrom(m, gone[..i], a), subs, gone[i], a);
      CutFromStep(m, gone, i, a);
      assert gone[..i + 1] == gone;
    }
  }

  // ---------------------------------------------------------------- every interleaving

  /** The header a loop walks belongs to its name's subscriber list, or to nobody any more. */
  ghost predicate OkLoop(s: State, t: Tid)
    requires t in s.loops
  {
    var f := s.loops[t].phase;
    !f.Between? ==> Owned(s.lists, Subscribers(f.name), f.head) && f.next <= f.head.len
  }

  ghost predicate OkDiscovery(s: State, t: Tid)
    requires t in s.discoveries
  {
    var d := s.discoveries[t];
    !d.Replied? ==> Owned(s.lists, Servers(d.name), d.head)
  }

  ghost predicate Shows(s: State) {
    ShowsServers(s.lists, s.view.servers) && ShowsSubscribers(s.lists, s.view.subscribers)
  }

  ghost predicate Inv(s: State) {
    && Shows(s) && Consistent(s.view)
    && (forall t {:trigger OkLoop(s, t)} :: t in s.loops ==> OkLoop(s, t))
    && (forall t {:trigger OkDiscovery(s, t)} :: t in s.discoveries ==> OkDiscovery(s, t))
  }

  lemma {:induction false} InsertAllKeepsOwned(t: Table, k: ListKey, h: Header, services: seq<Name>, a: Addr,
          spares: seq<nat>)
    requires Wf(t) && Owned(t, k, h) && |spares| == |services|
    ensures Owned(InsertAll(t, services, a, spares), k, h)
  {
    if services != [] {
      var i := |services| - 1;
      InsertAllKeepsOwned(t, k, h, services[..i], a, spares[..i]);
      InsertKeepsOwned(InsertAll(t, services[..i], a, spares[..i]), k, h, Servers(services[i]), a, spares[i]);
    }
  }

  lemma {:induction false} RemoveAllKeepsOwned(t: Table, k: ListKey, h: Header, gone: seq<Name>, a: Addr)
    requires Wf(t) && Owned(t, k, h)
    ensures Owned(RemoveAll(t, gone, a), k, h)
  {
    if gone != [] {
      var i := |gone| - 1;
      RemoveAllKeepsOwned(t, k, h, gone[..i], a);
      RemoveKeepsOwned(RemoveAll(t, gone[..i], a), k, h, Servers(gone[i]), a);
    }
  }

  /** No step takes an array away from the list it belonged to. */
  lemma StepKeepsOwned(s: State, a: Action, k: ListKey, h: Header)
    requires Wf(s.lists) && Next(s, a).Some? && Owned(s.lists, k, h)
    ensures Owned(Next(s, a).value.lists, k, h)
  {
    match a
    case Register(_, addr, services, spares) => InsertAllKeepsOwned(s.lists, k, h, services, addr, spares);
    case Evict(_, addr) => RemoveAllKeepsOwned(s.lists, k, h, At(s.view.names, addr), addr);
    case Clean(t) => RemoveKeepsOwned(s.lists, k, h, Subscribers(s.loops[t].phase.name), s.loops[t].phase.addr);
    case SendFails(_, n, addr) => RemoveKeepsOwned(s.lists, k, h, Subscribers(n), addr);
    case DiscoverSubscribe(t, spare) =>
      InsertKeepsOwned(s.lists, k, h, Subscribers(s.discoveries[t].name), s.discoveries[t].caller, spare);
    case _ =>
  }

  lemma RemoveSubscriberShows(s: State, n: Name, a: Addr)
    requires Shows(s) && Consistent(s.view)
    ensures Shows(RemoveSubscriber(s, n, a)) && Consistent(RemoveSubscriber(s, n, a).view)
  {
    RemoveMeans(s.lists, Subscribers(n), a);
    UnsubscribedConsistent(s.view, n, a);
    if a !in At(s.view.subscribers, n) { RemoveAbsent(At(s.view.subscribers, n), a); }
  }

  lemma RegisterShows(s: State, a: Action)
    requires Shows(s) && Consistent(s.view) && a.Register? && Next(s, a).Some?
    ensures Shows(Next(s, a).value) && Consistent(Next(s, a).value.view)
  {
    hide InsertAll, Consistent, Get, AddTo;
    InsertAllShows(s.lists, s.view.servers, s.view.subscribers, a.services, a.addr, a.spares);
    RegisteredConsistent(s.view, a.addr, a.services);
  }

  lemma EvictShows(s: State, a: Action)
    requires Shows(s) && Consistent(s.view) && a.Evict? && Next(s, a).Some?
    ensures Shows(Next(s, a).value) && Consistent(Next(s, a).value.view)
  {
    assert ProperLists(s.view.servers);
    hide RemoveAll, Consistent, Get, CutFrom;
    RemoveAllShows(s.lists, s.view.servers, s.view.subscribers, At(s.view.names, a.addr), a.addr);
    EvictedConsistent(s.view, a.addr);
  }

  lemma SubscribeShows(s: State, a: Action)
    requires Shows(s) && Consistent(s.view) && a.DiscoverSubscribe? && Next(s, a).Some?
    ensures Shows(Next(s, a).value) && Consistent(Next(s, a).value.view)
  {
    hide Insert, Consistent, Get, Wf, AddOnce;
    var d := s.discoveries[a.tid];
    InsertMeans(s.lists, Subscribers(d.name), d.caller, a.spare);
    SubscribedConsistent(s.view, d.name, d.caller);
  }

  lemma StepShows(s: State, a: Action)
    requires Shows(s) && Consistent(s.view) && Next(s, a).Some?
    ensures Shows(Next(s, a).value) && Consistent(Next(s, a).value.view)
  {
    hide Consistent, ShowsServers, ShowsSubscribers, Registered, Evicted, Subscribed, Unsubscribed;
    match a
    case Register(_, _, _, _) => RegisterShows(s, a);
    case Evict(_, _) => EvictShows(s, a);
    case Clean(t) => RemoveSubscriberShows(s, s.loops[t].phase.name, s.loops[t].phase.addr);
    case SendFails(_, n, addr) => RemoveSubscriberShows(s, n, addr);
    case DiscoverSubscribe(_, _) => SubscribeShows(s, a);
    case _ =>
  }

  /** A header just read from the index is its list's own. */
  lemma ReadOwned(t: Table, k: ListKey)
    requires Wf(t)
    ensures HeaderOf(t, k).len > 0 ==> Owned(t, k, HeaderOf(t, k))
  {
  }

  lemma StepLoops(s: State, a: Action, t: Tid)
    requires Inv(s) && Next(s, a).Some? && t in Next(s, a).value.loops
    ensures OkLoop(Next(s, a).value, t)
  {
    hide Consistent, Registered, Evicted, Subscribed, Unsubscribed, InsertAll, RemoveAll, Insert, Remove, Owned,
      ShowsSubscribers, HeaderOf;
    if t in s.loops {
      assert OkLoop(s, t);
      var f := s.loops[t].phase;
      if !f.Between? {
        StepKeepsOwned(s, a, Subscribers(f.name), f.head);
      } else if a == BeginName(t) {
        ReadOwned(s.lists, Subscribers(s.loops[t].todo[0]));
      }
    }
  }

  lemma StepDiscoveries(s: State, a: Action, t: Tid)
    requires Inv(s) && Next(s, a).Some? && t in Next(s, a).value.discoveries
    ensures OkDiscovery(Next(s, a).value, t)
  {
    hide Consistent, Registered, Evicted, Subscribed, Unsubscribed, InsertAll, RemoveAll, Insert, Remove, Owned,
      ShowsSubscribers, HeaderOf;
    if t in s.discoveries {
      assert OkDiscovery(s, t);
      var d := s.discoveries[t];
      if !d.Replied? { StepKeepsOwned(s, a, Servers(d.name), d.head); }
    } else {
      ReadOwned(s.lists, Servers(a.name));
    }
  }

  lemma KeepInv(s: State, a: Action)
    requires Inv(s) && Next(s, a).Some?
    ensures Inv(Next(s, a).value)
  {
    StepShows(s, a);
    var u := Next(s, a).value;
    forall t | t in u.loops ensures OkLoop(u, t) { StepLoops(s, a, t); }
    forall t | t in u.discoveries ensures OkDiscovery(u, t) { StepDiscoveries(s, a, t); }
  }

  lemma {:induction false} RunsKeepInv(s: State, acts: seq<Action>)
    requires Inv(s)
    ensures Exec(s, acts).Some? ==> Inv(Exec(s, acts).value)
    decreases |acts|
  {
    if acts != [] && Next(s, acts[0]).Some? {
      KeepInv(s, acts[0]);
      RunsKeepInv(Next(s, acts[0]).value, acts[1..]);
    }
  }

  ghost predicate Reachable(s: State) {
    exists acts :: Exec(START, acts) == Some(s)
  }

  lemma ReachableInv(s: State)
    requires Reachable(s)
    ensures Inv(s)
  {
    var acts :| Exec(START, acts) == Some(s);
    RunsKeepInv(START, acts);
  }

  /** In every interleaving of any number of calls, loops and failing sends, the shared slices show exactly the
      lists the committed sections made, and these are consistent: no duplicates, no empty service entry, clients
      and recorded names for the same addresses, and every recorded name listing its address back. */
  lemma AlwaysConsistent(acts: seq<Action>)
    requires Exec(START, acts).Some?
    ensures var s := Exec(START, acts).value; Shows(s) && Consistent(s.view)
  {
    RunsKeepInv(START, acts);
  }

  // ---------------------------------------------------------------- runs as histories of sections

  /** The section a step commits, if it commits one. */
  function SectionOf(s: State, a: Action): seq<Section> {
    match a
    case Register(_, addr, services, _) => [Section.Register(addr, services)]
    case Evict(_, addr) => [Section.Evict(addr)]
    case Clean(t) => if t in s.loops && s.loops[t].phase.Cleaning?
      then [Unsubscribe(s.loops[t].phase.name, s.loops[t].phase.addr)] else []
    case SendFails(_, n, addr) => [Unsubscribe(n, addr)]
    case DiscoverSubscribe(t, _) =>
      if t in s.discoveries && s.discoveries[t].HasRead?
        then [Subscribe(s.discoveries[t].name, s.discoveries[t].caller)] else []
    case _ => []
  }

  function Sections(s: State, acts: seq<Action>): seq<Section>
    requires Wf(s.lists)
    decreases |acts|
  {
    if acts == [] then []
    else
      SectionOf(s, acts[0]) +
      match Next(s, acts[0])
      case None => []
      case Some(t) => Sections(t, acts[1..])
  }

  lemma StepCommits(s: State, a: Action)
    requires Wf(s.lists) && Next(s, a).Some?
    ensures |SectionOf(s, a)| <= 1
    ensures Next(s, a).value.view == if SectionOf(s, a) == [] then s.view else Commit(s.view, SectionOf(s, a)[0])
  {
  }

  lemma {:induction false} RunsAreHistories(s: State, acts: seq<Action>)
    requires Wf(s.lists) && Exec(s, acts).Some?
    ensures Exec(s, acts).value.view == History(s.view, Sections(s, acts))
    decreases |acts|
  {
    if acts != [] {
      var first, rest := SectionOf(s, acts[0]), Sections(Next(s, acts[0]).value, acts[1..]);
      StepCommits(s, acts[0]);
      RunsAreHistories(Next(s, acts[0]).value, acts[1..]);
      assert Sections(s, acts) == first + rest;
      if first == [] { assert first + rest == rest; } else { assert (first + rest)[1..] == rest; }
    }
  }

  /** Every interleaving commits its sections one after the other: the registry it ends with is their history. If each
      re-registration among them covers the one before, the name and address tables are inverse. */
  lemma InterleavingIsHistory(acts: seq<Action>)
    requires Exec(START, acts).Some?
    ensures var s := Exec(START, acts).value;
            s.view == History(EMPTY, Sections(START, acts)) &&
              (AllCover(EMPTY, Sections(START, acts)) ==> Inverse(s.view))
  {
    RunsAreHistories(START, acts);
    HistoryConsistent(EMPTY, Sections(START, acts));
  }
}
