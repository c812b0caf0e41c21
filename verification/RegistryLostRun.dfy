/** A run of the registry, from its start, in which a subscriber is not told about a change: three subscribers d, x
    and y of one service, of which d has no client. The change's loop finds d without a client and cuts it out of the
    list, which moves x below the loop's position; the loop goes on with y, meets the stale copy of y that the cut
    left behind, and ends. Throughout, x is subscribed and has a client. */
module RegistryLostRun {
  import opened Common
  import opened RegistryTables
  import opened SliceHeap
  import opened RegistryRuns
  import opened RegistryHeaders
  import opened RegistryNotify
  import opened RegistryLoss
  import Slices

  lemma {:induction false} ExecSnoc(s: State, acts: seq<Action>, a: Action)
    requires Wf(s.lists) && Exec(s, acts).Some?
    ensures Exec(s, acts + [a]) == Next(Exec(s, acts).value, a)
    decreases |acts|
  {
    if acts == [] {
      assert Exec(s, [a]) == Next(s, a);
    } else {
      assert (acts + [a])[1..] == acts[1..] + [a];
      ExecSnoc(Next(s, acts[0]).value, acts[1..], a);
    }
  }

  lemma Reach(s: State, a: Action, t: State)
    requires Reachable(s) && Wf(s.lists) && Next(s, a) == Some(t)
    ensures Reachable(t)
  {
    var acts :| Exec(START, acts) == Some(s);
    ExecSnoc(START, acts, a);
  }

  /** From `s`, loop 0 can be brought through without x being unsubscribed and without n's change being sent to it. */
  ghost predicate CanPassOver(s: State, n: Name, x: Addr)
    requires Wf(s.lists)
  {
    exists acts :: Exec(s, acts).Some? && NeverRemoved(s, acts, n, x) && PassedOver(Exec(s, acts).value, n, x)
  }

  predicate PassedOver(s: State, n: Name, x: Addr) {
    Through(s, 0) && x in At(s.view.subscribers, n) && x in s.view.store && (n, x) !in s.loops[0].sent
  }

  lemma StepThen(s: State, a: Action, t: State, n: Name, x: Addr)
    requires Wf(s.lists) && Next(s, a) == Some(t) && Removes(s, a, n) != Some(x) && CanPassOver(t, n, x)
    ensures CanPassOver(s, n, x)
  {
    var acts :| Exec(t, acts).Some? && NeverRemoved(t, acts, n, x) && PassedOver(Exec(t, acts).value, n, x);
    var all := [a] + acts;
    assert all[1..] == acts;
    assert Exec(s, all) == Exec(t, acts) && NeverRemoved(s, all, n, x);
  }

  /** A service name, a server of it, a subscriber without a client, and two subscribers that have one. */
  datatype Cast = Cast(n: Name, sv: Addr, d: Addr, x: Addr, y: Addr) {
    predicate Distinct() {
      sv != d && sv != x && sv != y && d != x && d != y && x != y
    }

    /** Everyone registered, the first `len` of d, x, y subscribed. */
    function Scene(arr: seq<Addr>, len: nat, subs: seq<Addr>, main: Loop, discoveries: map<Tid, Discovery>): State {
      State(Table([[sv], arr], map[Servers(n) := Header(0, 1), Subscribers(n) := Header(1, len)]),
            Registry(map[n := [sv]], map[sv := [n], x := [], y := []], map[n := subs], {sv, x, y}),
            map[0 := main, 1 := Loop([], Between, {}), 2 := Loop([], Between, {})], discoveries)
    }

    function Waiting(): Loop {
      Loop([n], Between, {})
    }

    /** Loop 0 walking the list of three. */
    function Walking(f: LoopPhase, sent: set<(Name, Addr)>): Loop {
      Loop([], f, sent)
    }

    function Full(discoveries: map<Tid, Discovery>): State {
      Scene([d, x, y], 3, [d, x, y], Waiting(), discoveries)
    }
  }

  lemma Registrations(c: Cast) returns (s: State)
    requires c.Distinct()
    ensures Reachable(s)
    ensures s == State(Table([[c.sv]], map[Servers(c.n) := Header(0, 1)]),
                       Registry(map[c.n := [c.sv]], map[c.sv := [c.n], c.x := [], c.y := []], map[], {c.sv, c.x, c.y}),
                       map[0 := c.Waiting(), 1 := Loop([], Between, {}), 2 := Loop([], Between, {})], map[])
  {
    var s1 := RegistersServer(c);
    var s2 := RegistersNothing(s1, 1, c.x);
    s := RegistersNothing(s2, 2, c.y);
  }

  lemma InsertAllOne(t: Table, n: Name, a: Addr, spare: nat)
    requires Wf(t)
    ensures InsertAll(t, [n], a, [spare]) == Insert(t, Servers(n), a, spare)
  {
    assert [n][..0] == [];
    assert InsertAll(t, [n][..0], a, [spare][..0]) == t;
  }

  lemma FirstServer(c: Cast)
    ensures Insert(START.lists, Servers(c.n), c.sv, 0) == Table([[c.sv]], map[Servers(c.n) := Header(0, 1)])
  {
    assert Slices.Grown([], c.sv, 0) == [c.sv];
  }

  lemma FirstRegistered(c: Cast)
    ensures Registered(EMPTY, c.sv, [c.n]) == Registry(map[c.n := [c.sv]], map[c.sv := [c.n]], map[], {c.sv})
  {
    var m := AddTo(map[], [c.n], c.sv);
    assert forall k :: k in [c.n] <==> k == c.n;
    assert c.n in m && m[c.n] == [c.sv];
    assert forall k :: k in m ==> k in [c.n];
    assert m == map[c.n := [c.sv]];
  }

  lemma RegistersServer(c: Cast) returns (s: State)
    ensures Reachable(s)
    ensures s ==
            State(Table([[c.sv]], map[Servers(c.n) := Header(0, 1)]),
            Registry(map[c.n := [c.sv]], map[c.sv := [c.n]], map[], {c.sv}),
                       map[0 := c.Waiting()], map[])
  {
    hide Reachable, Insert, InsertAll;
    assert Reachable(START) by { StartReachable(); }
    InsertAllOne(START.lists, c.n, c.sv, 0);
    FirstServer(c);
    FirstRegistered(c);
    s := Next(START, Action.Register(0, c.sv, [c.n], [0])).value;
    Reach(START, Action.Register(0, c.sv, [c.n], [0]), s);
  }

  lemma StartReachable()
    ensures Reachable(START)
  {
    assert Exec(START, []) == Some(START);
  }

  lemma RegistersNothing(s: State, t: Tid, a: Addr) returns (u: State)
    requires Reachable(s) && Wf(s.lists) && t !in s.loops
    ensures Reachable(u)
    ensures u ==
            s.(view := s.view.(names := s.view.names[a := []], store := s.view.store + {a}),
            loops := s.loops[t := Loop([], Between, {})])
  {
    u := Next(s, Action.Register(t, a, [], [])).value;
    assert AddTo(s.view.servers, [], a) == s.view.servers;
    Reach(s, Action.Register(t, a, [], []), u);
  }

  lemma ReadsServers(c: Cast, s: State, t: Tid, caller: Addr) returns (u: State)
    requires Reachable(s) && Wf(s.lists) && t !in s.discoveries
    requires Servers(c.n) in s.lists.index && s.lists.index[Servers(c.n)] == Header(0, 1)
    ensures Reachable(u) && u == s.(discoveries := s.discoveries[t := HasRead(c.n, caller, Header(0, 1))])
  {
    u := Next(s, DiscoverRead(t, c.n, caller)).value;
    Reach(s, DiscoverRead(t, c.n, caller), u);
  }

  lemma FirstListed(c: Cast, a: Addr)
    ensures var t := Table([[c.sv]], map[Servers(c.n) := Header(0, 1)]);
            Wf(t) && Insert(t, Subscribers(c.n), a, 2) ==
                     Table([[c.sv], [a, BLANK, BLANK]],
                       map[Servers(c.n) := Header(0, 1), Subscribers(c.n) := Header(1, 1)])
  {
    assert Slices.Grown([], a, 2) == [a, BLANK, BLANK];
  }

  lemma NextListed(c: Cast, arr: seq<Addr>, len: nat, a: Addr)
    requires len < |arr| && a !in arr[..len]
    ensures var t := c.Scene(arr, len, [], c.Waiting(), map[]).lists;
            Wf(t) && Insert(t, Subscribers(c.n), a, 0) == c.Scene(arr[len := a], len + 1, [], c.Waiting(), map[]).lists
  {
    assert Get(c.Scene(arr, len, [], c.Waiting(), map[]).lists, Subscribers(c.n)) == arr[..len];
  }

  lemma FirstSubscribed(c: Cast) returns (s: State)
    requires c.Distinct()
    ensures Reachable(s) && s.discoveries.Keys == {0}
    ensures s == c.Scene([c.d, BLANK, BLANK], 1, [c.d], c.Waiting(), s.discoveries)
  {
    hide Reachable, Insert;
    var s0 := Registrations(c);
    FirstListed(c, c.d);
    var s1 := ReadsServers(c, s0, 0, c.d);
    s := Next(s1, DiscoverSubscribe(0, 2)).value;
    assert AddOnce([], c.d) == [c.d];
    assert s.view.subscribers == map[c.n := [c.d]];
    Reach(s1, DiscoverSubscribe(0, 2), s);
  }

  /** The next caller is appended in place. */
  lemma Subscribes(c: Cast, s: State, arr: seq<Addr>, len: nat, t: Tid, a: Addr) returns (u: State)
    requires Reachable(s) && len < |arr| && a !in arr[..len]
    requires s == c.Scene(arr, len, arr[..len], c.Waiting(), s.discoveries) && t !in s.discoveries
    ensures Reachable(u) && u.discoveries.Keys == s.discoveries.Keys + {t}
    ensures u == c.Scene(arr[len := a], len + 1, arr[len := a][..len + 1], c.Waiting(), u.discoveries)
  {
    hide Reachable, Insert;
    NextListed(c, arr, len, a);
    var s1 := ReadsServers(c, s, t, a);
    u := Next(s1, DiscoverSubscribe(t, 0)).value;
    assert arr[len := a][..len + 1] == arr[..len] + [a];
    Reach(s1, DiscoverSubscribe(t, 0), u);
  }

  lemma AllSubscribed(c: Cast) returns (s: State)
    requires c.Distinct()
    ensures Reachable(s) && s == c.Full(s.discoveries)
  {
    hide Reachable;
    var s1 := FirstSubscribed(c);
    assert [c.d, BLANK, BLANK][..1] == [c.d];
    var s2 := Subscribes(c, s1, [c.d, BLANK, BLANK], 1, 1, c.x);
    assert [c.d, BLANK, BLANK][1 := c.x] == [c.d, c.x, BLANK];
    s := Subscribes(c, s2, [c.d, c.x, BLANK], 2, 2, c.y);
    assert [c.d, c.x, BLANK][2 := c.y] == [c.d, c.x, c.y];
    assert [c.d, c.x, c.y][..3] == [c.d, c.x, c.y];
  }

  /** Loop 0 at place `next` of the list of three, after the clean-up. */
  function Cut(c: Cast, next: nat, sent: set<(Name, Addr)>, ds: map<Tid, Discovery>): State {
    c.Scene([c.x, c.y, c.y], 2, [c.x, c.y], c.Walking(Visiting(c.n, Header(1, 3), next), sent), ds)
  }

  /** A step of loop 0 that leaves the lists alone. */
  lemma LoopStep(s: State, a: Action, main: Loop, t: State, n: Name, x: Addr)
    requires Wf(s.lists) && 0 in s.loops && (a == Visit(0) || a == BeginName(0) || a == EndName(0))
    requires Next(s, a) == Some(s.(loops := s.loops[0 := main]))
    requires t.lists == s.lists && t.view == s.view && t.discoveries == s.discoveries && t.loops == s.loops[0 := main]
    requires CanPassOver(t, n, x)
    ensures CanPassOver(s, n, x)
  {
    StepThen(s, a, t, n, x);
  }

  lemma AtEnd(c: Cast, sent: set<(Name, Addr)>, ds: map<Tid, Discovery>)
    requires c.Distinct() && (c.n, c.x) !in sent
    ensures Wf(Cut(c, 3, sent, ds).lists) && CanPassOver(Cut(c, 3, sent, ds), c.n, c.x)
  {
    var s := Cut(c, 3, sent, ds);
    var t := InPhase(s, 0, Between);
    assert Exec(t, []) == Some(t) && PassedOver(t, c.n, c.x);
    LoopStep(s, EndName(0), t.loops[0], t, c.n, c.x);
  }

  /** The places after the cut hold y, and a stale copy of y. */
  lemma AfterCut(c: Cast, next: nat, sent: set<(Name, Addr)>, ds: map<Tid, Discovery>)
    requires c.Distinct() && 1 <= next < 3 && Wf(Cut(c, next + 1, sent + {(c.n, c.y)}, ds).lists)
    requires CanPassOver(Cut(c, next + 1, sent + {(c.n, c.y)}, ds), c.n, c.x)
    ensures Wf(Cut(c, next, sent, ds).lists) && CanPassOver(Cut(c, next, sent, ds), c.n, c.x)
  {
    hide CanPassOver;
    var s, t := Cut(c, next, sent, ds), Cut(c, next + 1, sent + {(c.n, c.y)}, ds);
    assert t.loops == s.loops[0 := t.loops[0]];
    LoopStep(s, Visit(0), t.loops[0], t, c.n, c.x);
  }

  lemma CutLists(c: Cast)
    requires c.Distinct()
    ensures var s := c.Scene([c.d, c.x, c.y], 3, [c.d, c.x, c.y], c.Waiting(), map[]);
            && Wf(s.lists) && Remove(s.lists, Subscribers(c.n), c.d) == Cut(c, 1, {}, map[]).lists
            && Unsubscribed(s.view, c.n, c.d) == Cut(c, 1, {}, map[]).view
  {
    var s, k := c.Scene([c.d, c.x, c.y], 3, [c.d, c.x, c.y], c.Waiting(), map[]), Subscribers(c.n);
    assert [c.d, c.x, c.y][..3] == [c.d, c.x, c.y];
    assert Get(s.lists, k) == [c.d, c.x, c.y];
    var u := Remove(s.lists, k, c.d);
    assert Slices.ShiftOut([c.d, c.x, c.y], 0, 3) == [c.x, c.y, c.y];
    assert u.heap == [[c.sv], [c.x, c.y, c.y]];
    assert u.index == map[Servers(c.n) := Header(0, 1), k := Header(1, 2)];
    assert RemoveFirst([c.d, c.x, c.y], c.d) == [c.x, c.y];
    assert Unsubscribed(s.view, c.n, c.d).subscribers == map[c.n := [c.x, c.y]];
  }

  /** Visiting d finds no client and cuts d out, which moves x below the loop's position. */
  lemma CleanUp(c: Cast, ds: map<Tid, Discovery>)
    requires c.Distinct()
    ensures var f := Cleaning(c.n, Header(1, 3), 1, c.d);
            var s := c.Scene([c.d, c.x, c.y], 3, [c.d, c.x, c.y], c.Walking(f, {}), ds);
            Wf(s.lists) && CanPassOver(s, c.n, c.x)
  {
    hide CanPassOver, Remove, Unsubscribed;
    var s := c.Scene([c.d, c.x, c.y], 3, [c.d, c.x, c.y], c.Walking(Cleaning(c.n, Header(1, 3), 1, c.d), {}), ds);
    AtEnd(c, {} + {(c.n, c.y)} + {(c.n, c.y)}, ds);
    AfterCut(c, 2, {} + {(c.n, c.y)}, ds);
    AfterCut(c, 1, {}, ds);
    CutLists(c);
    var t := Cut(c, 1, {}, ds);
    assert t.loops == s.loops[0 := t.loops[0]];
    assert Next(s, Clean(0)) == Some(t);
    StepThen(s, Clean(0), t, c.n, c.x);
  }

  /** The claim "every subscriber of a changed service is told" fails: d, x and y are subscribed in this order when
      the change's loop reads the list, d has no client, x has one and is never unsubscribed, and yet the loop
      ends without having sent x the change. */
  lemma NotEverySubscriberIsTold(c: Cast)
    requires c.Distinct()
    ensures exists s ::
            Reachable(s) && Wf(s.lists) && Reads(s, BeginName(0), 0, c.n) && c.x in At(s.view.subscribers, c.n)
                        && c.x in s.view.store && CanPassOver(s, c.n, c.x)
  {
    hide CanPassOver, Reachable;
    var s := AllSubscribed(c);
    var ds := s.discoveries;
    var s1 := c.Scene([c.d, c.x, c.y], 3, [c.d, c.x, c.y], c.Walking(Visiting(c.n, Header(1, 3), 0), {}), ds);
    var s2 := c.Scene([c.d, c.x, c.y], 3, [c.d, c.x, c.y], c.Walking(Cleaning(c.n, Header(1, 3), 1, c.d), {}), ds);
    CleanUp(c, ds);
    LoopStep(s1, Visit(0), s2.loops[0], s2, c.n, c.x);
    assert [c.n][1..] == [];
    assert s1.loops == s.loops[0 := s1.loops[0]];
    LoopStep(s, BeginName(0), s1.loops[0], s1, c.n, c.x);
  }

  /** Such a service and such addresses exist, so there is such a run. */
  lemma SomeoneIsNotTold()
    ensures exists s, n, x ::
            Reachable(s) && Wf(s.lists) && Reads(s, BeginName(0), 0, n) && x in At(s.view.subscribers, n)
                              && x in s.view.store && CanPassOver(s, n, x)
  {
    hide Reachable, CanPassOver, Wf;
    var c := Cast("pay", "server", "d", "x", "y");
    NotEverySubscriberIsTold(c);
  }
}
