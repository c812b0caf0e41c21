/** The registry of discover/server.go as four tables of lists, the committed effect of each locked
    section, and what every section keeps. */
module RegistryTables {

  /** Service names and addresses are compared and copied, never looked into. */
  type Name = string
  type Addr = string

  /** What fills a slot of a backing array that no list uses yet. */
  const BLANK: Addr := ""

  // ---------------------------------------------------------------- lists of addresses

  predicate NoDup(xs: seq<Addr>) {
    forall i, j :: 0 <= i < j < |xs| ==> xs[i] != xs[j]
  }

  /** The "append unless already there" loops. */
  function AddOnce(xs: seq<Addr>, a: Addr): seq<Addr> {
    if a in xs then xs else xs + [a]
  }

  /** The "find it, cut it out, break" loops. */
  function RemoveFirst(xs: seq<Addr>, a: Addr): seq<Addr> {
    if xs == [] then []
    else if xs[0] == a then xs[1..]
    else [xs[0]] + RemoveFirst(xs[1..], a)
  }

  /** Every other address, in the same order. */
  function Without(xs: seq<Addr>, a: Addr): seq<Addr> {
    if xs == [] then []
    else (if xs[0] == a then [] else [xs[0]]) + Without(xs[1..], a)
  }

  lemma {:induction false} RemoveAtIsRemoveFirst(xs: seq<Addr>, i: nat)
    requires i < |xs| && forall j :: 0 <= j < i ==> xs[j] != xs[i]
    ensures RemoveFirst(xs, xs[i]) == xs[..i] + xs[i + 1..]
  {
    if i > 0 {
      var rest := xs[1..];
      assert rest[i - 1] == xs[i];
      assert forall j :: 0 <= j < i - 1 ==> rest[j] == xs[j + 1];
      RemoveAtIsRemoveFirst(rest, i - 1);
      assert xs[..i] == [xs[0]] + rest[..i - 1];
      assert xs[i + 1..] == rest[i..];
    }
  }

  lemma {:induction false} RemoveAbsent(xs: seq<Addr>, a: Addr)
    requires a !in xs
    ensures RemoveFirst(xs, a) == xs && Without(xs, a) == xs
  {
    if xs != [] {
      assert a !in xs[1..];
      RemoveAbsent(xs[1..], a);
    }
  }

  lemma NoDupUncons(xs: seq<Addr>)
    requires NoDup(xs) && xs != []
    ensures NoDup(xs[1..]) && xs[0] !in xs[1..]
  {
    assert forall i :: 0 <= i < |xs[1..]| ==> xs[1..][i] == xs[i + 1];
  }

  lemma NoDupCons(x: Addr, xs: seq<Addr>)
    requires NoDup(xs) && x !in xs
    ensures NoDup([x] + xs)
  {
    var ys := [x] + xs;
    assert forall i :: 0 < i < |ys| ==> ys[i] == xs[i - 1] && ys[i] in xs;
  }

  /** On a list without duplicates, cutting out the first occurrence leaves exactly the others in order. */
  lemma {:induction false} RemoveFirstIsWithout(xs: seq<Addr>, a: Addr)
    requires NoDup(xs)
    ensures RemoveFirst(xs, a) == Without(xs, a) && NoDup(RemoveFirst(xs, a))
    ensures forall x :: x in RemoveFirst(xs, a) <==> x in xs && x != a
    ensures |RemoveFirst(xs, a)| == |xs| - (if a in xs then 1 else 0)
  {
    if xs != [] {
      var rest := xs[1..];
      NoDupUncons(xs);
      assert forall x :: x in xs <==> x == xs[0] || x in rest;
      if xs[0] == a {
        RemoveAbsent(rest, a);
      } else {
        RemoveFirstIsWithout(rest, a);
        NoDupCons(xs[0], RemoveFirst(rest, a));
      }
    }
  }

  // ---------------------------------------------------------------- the registry

  /** sNameToSAddr, sAddrToSNames, sNameToDAddr and the keys of addrStore. */
  datatype Registry = Registry(
    servers: map<Name, seq<Addr>>,
    names: map<Addr, seq<Name>>,
    subscribers: map<Name, seq<Addr>>,
    store: set<Addr>
  )

  function At<K, V>(m: map<K, seq<V>>, k: K): seq<V> {
    if k in m then m[k] else []
  }

  const EMPTY := Registry(map[], map[], map[], {})

  function AddTo(servers: map<Name, seq<Addr>>, services: seq<Name>, a: Addr): map<Name, seq<Addr>> {
    map n | n in servers.Keys + (set s | s in services) ::
      if n in services then AddOnce(At(servers, n), a) else servers[n]
  }

  /** The locked section of Register. */
  function Registered(r: Registry, a: Addr, services: seq<Name>): Registry {
    r.(servers := AddTo(r.servers, services, a), names := r.names[a := services], store := r.store + {a})
  }

  /** The write-locked section of Discover. */
  function Subscribed(r: Registry, n: Name, a: Addr): Registry {
    r.(subscribers := r.subscribers[n := AddOnce(At(r.subscribers, n), a)])
  }

  /** removeSubscriber. */
  function Unsubscribed(r: Registry, n: Name, a: Addr): Registry {
    r.(subscribers := if a in At(r.subscribers, n) then r.subscribers[n := RemoveFirst(r.subscribers[n], a)]
      else r.subscribers)
  }

  function CutFrom(servers: map<Name, seq<Addr>>, gone: seq<Name>, a: Addr): map<Name, seq<Addr>> {
    map n | n in servers && (n in gone ==> RemoveFirst(servers[n], a) != []) ::
      if n in gone then RemoveFirst(servers[n], a) else servers[n]
  }

  /** The locked section of handleUnhealthyService. */
  function Evicted(r: Registry, a: Addr): Registry {
    r.(servers := CutFrom(r.servers, At(r.names, a), a), names := r.names - {a}, store := r.store - {a})
  }

  /** One round of Register's loop. */
  lemma AddToStep(m: map<Name, seq<Addr>>, services: seq<Name>, i: nat, a: Addr)
    requires i < |services|
    ensures var part := AddTo(m, services[..i], a);
            AddTo(m, services[..i + 1], a) == part[services[i] := AddOnce(At(part, services[i]), a)]
  {
    assert services[..i + 1] == services[..i] + [services[i]];
  }

  /** One round of handleUnhealthyService's loop. */
  function CutOne(m: map<Name, seq<Addr>>, n: Name, a: Addr): map<Name, seq<Addr>> {
    var cut := if a in At(m, n) then m[n := RemoveFirst(m[n], a)] else m;
    if n in cut && cut[n] == [] then cut - {n} else cut
  }

  lemma CutElsewhere(m: map<Name, seq<Addr>>, done: seq<Name>, n: Name, a: Addr, k: Name)
    requires k != n
    ensures var l, r := CutFrom(m, done + [n], a), CutOne(CutFrom(m, done, a), n, a);
            (k in l <==> k in r) && (k in l ==> l[k] == r[k])
  {
    hide RemoveFirst;
    assert k in done + [n] <==> k in done;
  }

  lemma CutHere(m: map<Name, seq<Addr>>, done: seq<Name>, n: Name, a: Addr)
    requires ProperLists(m)
    ensures var l, r := CutFrom(m, done + [n], a), CutOne(CutFrom(m, done, a), n, a);
            (n in l <==> n in r) && (n in l ==> l[n] == r[n])
  {
    RemoveFirstIsWithout(At(m, n), a);
    if a !in At(m, n) { RemoveAbsent(At(m, n), a); }
    hide NoDup, RemoveFirst, Without;
    assert n in done + [n];
    if n in done {
      assert a !in At(CutFrom(m, done, a), n);
    } else {
      assert At(CutFrom(m, done, a), n) == At(m, n);
    }
  }

  lemma CutOneMore(m: map<Name, seq<Addr>>, done: seq<Name>, n: Name, a: Addr)
    requires ProperLists(m)
    ensures CutFrom(m, done + [n], a) == CutOne(CutFrom(m, done, a), n, a)
  {
    hide CutFrom, CutOne;
    var l, r := CutFrom(m, done + [n], a), CutOne(CutFrom(m, done, a), n, a);
    forall k ensures (k in l <==> k in r) && (k in l ==> l[k] == r[k]) {
      if k == n { CutHere(m, done, n, a); } else { CutElsewhere(m, done, n, a, k); }
    }
  }

  /** The rounds add up to CutFrom; a name listed twice is harmless. */
  lemma CutFromStep(m: map<Name, seq<Addr>>, gone: seq<Name>, i: nat, a: Addr)
    requires i < |gone| && ProperLists(m)
    ensures CutFrom(m, gone[..i + 1], a) == CutOne(CutFrom(m, gone[..i], a), gone[i], a)
  {
    assert gone[..i + 1] == gone[..i] + [gone[i]];
    CutOneMore(m, gone[..i], gone[i], a);
  }

  // ---------------------------------------------------------------- the invariant

  ghost predicate ProperLists(m: map<Name, seq<Addr>>) {
    forall n :: n in m ==> m[n] != [] && NoDup(m[n])
  }

  /** No duplicates, no service key with an empty list, the client store and the name lists know the same
      addresses, and every name recorded for an address lists that address back. */
  ghost predicate Consistent(r: Registry) {
    && ProperLists(r.servers)
    && (forall n :: n in r.subscribers ==> NoDup(r.subscribers[n]))
    && r.store == r.names.Keys
    && (forall a, n :: a in r.names && n in r.names[a] ==> a in At(r.servers, n))
  }

  lemma RegisteredConsistent(r: Registry, a: Addr, services: seq<Name>)
    requires Consistent(r)
    ensures Consistent(Registered(r, a, services))
  {
  }

  lemma SubscribedConsistent(r: Registry, n: Name, a: Addr)
    requires Consistent(r)
    ensures Consistent(Subscribed(r, n, a))
  {
  }

  lemma UnsubscribedConsistent(r: Registry, n: Name, a: Addr)
    requires Consistent(r)
    ensures Consistent(Unsubscribed(r, n, a))
  {
    RemoveFirstIsWithout(At(r.subscribers, n), a);
  }

  lemma EvictedLists(r: Registry, a: Addr, n: Name)
    requires Consistent(r)
    ensures var after := At(Evicted(r, a).servers, n);
            after == if n in At(r.names, a) then Without(At(r.servers, n), a) else At(r.servers, n)
  {
    RemoveFirstIsWithout(At(r.servers, n), a);
  }

  lemma EvictedConsistent(r: Registry, a: Addr)
    requires Consistent(r)
    ensures Consistent(Evicted(r, a))
  {
    var t := Evicted(r, a);
    forall n ensures n in t.servers ==> t.servers[n] != [] && NoDup(t.servers[n]) {
      if n in r.servers { RemoveFirstIsWithout(r.servers[n], a); }
    }
    forall b, n | b in t.names && n in t.names[b] ensures b in At(t.servers, n) {
      RemoveFirstIsWithout(At(r.servers, n), a);
    }
  }

  // ---------------------------------------------------------------- the sections, list by list

  /** `t` is `r` with the address at the end of each of its services' lists, once, and these services recorded. */
  ghost predicate AddedTo(r: Registry, t: Registry, a: Addr, services: seq<Name>) {
    && t.names == r.names[a := services] && t.subscribers == r.subscribers && t.store == r.store + {a}
    && (forall n :: n in t.servers <==> n in r.servers || n in services)
    && (forall n :: At(t.servers, n) == At(r.servers, n) +
         (if n in services && a !in At(r.servers, n) then [a] else []))
  }

  lemma RegisteredAdds(r: Registry, a: Addr, services: seq<Name>)
    ensures AddedTo(r, Registered(r, a, services), a, services)
  {
  }

  /** `t` is `r` with the address at the end of one list of subscribers, once. */
  ghost predicate SubscribedTo(r: Registry, t: Registry, n: Name, a: Addr) {
    && t.servers == r.servers && t.names == r.names && t.store == r.store
    && (forall m :: m != n ==> At(t.subscribers, m) == At(r.subscribers, m))
    && At(t.subscribers, n) == At(r.subscribers, n) + (if a in At(r.subscribers, n) then [] else [a])
  }

  lemma SubscribedAdds(r: Registry, n: Name, a: Addr)
    ensures SubscribedTo(r, Subscribed(r, n, a), n, a)
  {
  }

  /** `t` is `r` with the address taken out of one list of subscribers. */
  ghost predicate RemovedFrom(r: Registry, t: Registry, n: Name, a: Addr) {
    && t.servers == r.servers && t.names == r.names && t.store == r.store
    && (forall m :: m != n ==> At(t.subscribers, m) == At(r.subscribers, m))
    && At(t.subscribers, n) == Without(At(r.subscribers, n), a)
  }

  lemma UnsubscribedRemoves(r: Registry, n: Name, a: Addr)
    requires NoDup(At(r.subscribers, n))
    ensures RemovedFrom(r, Unsubscribed(r, n, a), n, a)
  {
    RemoveFirstIsWithout(At(r.subscribers, n), a);
    if a !in At(r.subscribers, n) { RemoveAbsent(At(r.subscribers, n), a); }
  }

  /** `t` is `r` without the address: taken out of the lists recorded under it, of which empty ones go away, and
      forgotten. */
  ghost predicate Forgotten(r: Registry, t: Registry, a: Addr) {
    && t.names == r.names - {a} && t.store == r.store - {a} && t.subscribers == r.subscribers
    && (forall n :: n in t.servers <==> At(t.servers, n) != [])
    && (forall n ::
         At(t.servers, n) == if n in At(r.names, a) then Without(At(r.servers, n), a) else At(r.servers, n))
  }

  lemma EvictedForgets(r: Registry, a: Addr)
    requires ProperLists(r.servers)
    ensures Forgotten(r, Evicted(r, a), a)
  {
    var t := Evicted(r, a);
    forall n
      ensures n in t.servers <==> At(t.servers, n) != []
      ensures At(t.servers, n) == if n in At(r.names, a) then Without(At(r.servers, n), a) else At(r.servers, n)
    {
      RemoveFirstIsWithout(At(r.servers, n), a);
    }
  }

  // ---------------------------------------------------------------- name and address tables as inverses

  ghost predicate Inverse(r: Registry) {
    forall a, n :: a in At(r.servers, n) <==> n in At(r.names, a)
  }

  /** Registering keeps the two tables inverse exactly when it covers everything the address had registered:
      a smaller re-registration overwrites the names but leaves the address in the dropped services' lists. */
  lemma RegisterKeepsInverse(r: Registry, a: Addr, services: seq<Name>)
    requires Consistent(r) && Inverse(r)
    ensures Inverse(Registered(r, a, services)) <==> forall n :: n in At(r.names, a) ==> n in services
  {
    var t := Registered(r, a, services);
    if n :| n in At(r.names, a) && n !in services {
      assert a in At(r.servers, n);
      assert a in At(t.servers, n) && n !in At(t.names, a);
    } else {
      forall b, n ensures b in At(t.servers, n) <==> n in At(t.names, b) {
        assert b in At(r.servers, n) <==> n in At(r.names, b);
      }
    }
  }

  lemma EvictKeepsInverse(r: Registry, a: Addr)
    requires Consistent(r) && Inverse(r)
    ensures Inverse(Evicted(r, a))
  {
    var t := Evicted(r, a);
    forall b, n ensures b in At(t.servers, n) <==> n in At(t.names, b) {
      EvictedLists(r, a, n);
      RemoveFirstIsWithout(At(r.servers, n), a);
      assert b in At(r.servers, n) <==> n in At(r.names, b);
      assert a in At(r.servers, n) <==> n in At(r.names, a);
    }
  }

  /** Eviction is complete, leaving the address in no list and every other address in place and order,
      exactly when every list holding the address is recorded under it. */
  lemma EvictionComplete(r: Registry, a: Addr)
    requires Consistent(r)
    ensures (forall n :: At(Evicted(r, a).servers, n) == Without(At(r.servers, n), a)) <==>
            (forall n :: a in At(r.servers, n) ==> n in At(r.names, a))
    ensures (forall n :: a !in At(Evicted(r, a).servers, n)) <==>
            (forall n :: a in At(r.servers, n) ==> n in At(r.names, a))
    ensures Inverse(r) ==> forall n :: At(Evicted(r, a).servers, n) == Without(At(r.servers, n), a)
  {
    var t := Evicted(r, a);
    forall n
      ensures At(t.servers, n) == (if n in At(r.names, a) then Without(At(r.servers, n), a) else At(r.servers, n))
      ensures a !in Without(At(r.servers, n), a)
      ensures a !in At(r.servers, n) ==> Without(At(r.servers, n), a) == At(r.servers, n)
    {
      EvictedLists(r, a, n);
      RemoveFirstIsWithout(At(r.servers, n), a);
      if a !in At(r.servers, n) { RemoveAbsent(At(r.servers, n), a); }
    }
    forall n | a in At(r.servers, n) && n !in At(r.names, a)
      ensures a in At(t.servers, n) && At(t.servers, n) != Without(At(r.servers, n), a)
    {
      assert At(t.servers, n) == At(r.servers, n);
    }
  }

  // ---------------------------------------------------------------- every history of sections

  datatype Section =
    | Register(addr: Addr, services: seq<Name>)
    | Subscribe(name: Name, addr: Addr)
    | Unsubscribe(name: Name, addr: Addr)
    | Evict(addr: Addr)

  function Commit(r: Registry, c: Section): Registry {
    match c
    case Register(a, services) => Registered(r, a, services)
    case Subscribe(n, a) => Subscribed(r, n, a)
    case Unsubscribe(n, a) => Unsubscribed(r, n, a)
    case Evict(a) => Evicted(r, a)
  }

  function History(r: Registry, cs: seq<Section>): Registry
    decreases |cs|
  {
    if cs == [] then r else History(Commit(r, cs[0]), cs[1..])
  }

  lemma CommitConsistent(r: Registry, c: Section)
    requires Consistent(r)
    ensures Consistent(Commit(r, c))
  {
    match c
    case Register(a, services) => RegisteredConsistent(r, a, services);
    case Subscribe(n, a) => SubscribedConsistent(r, n, a);
    case Unsubscribe(n, a) => UnsubscribedConsistent(r, n, a);
    case Evict(a) => EvictedConsistent(r, a);
  }

  /** A Register covers what its address had registered before. */
  ghost predicate Covers(r: Registry, c: Section) {
    c.Register? ==> forall n :: n in At(r.names, c.addr) ==> n in c.services
  }

  ghost predicate AllCover(r: Registry, cs: seq<Section>)
    decreases |cs|
  {
    cs == [] || (Covers(r, cs[0]) && AllCover(Commit(r, cs[0]), cs[1..]))
  }

  /** Whatever sections commit in whatever order, the registry stays consistent; and if every
      re-registration covers the previous one, its two address tables are inverse at the end. */
  lemma {:induction false} HistoryConsistent(r: Registry, cs: seq<Section>)
    requires Consistent(r)
    ensures Consistent(History(r, cs))
    ensures Inverse(r) && AllCover(r, cs) ==> Inverse(History(r, cs))
    decreases |cs|
  {
    if cs != [] {
      CommitConsistent(r, cs[0]);
      if Inverse(r) && AllCover(r, cs) {
        match cs[0]
        case Register(a, services) => RegisterKeepsInverse(r, a, services);
        case Evict(a) => EvictKeepsInverse(r, a);
        case _ =>
          assert forall a, n :: a in At(r.servers, n) <==> n in At(r.names, a);
      }
      HistoryConsistent(Commit(r, cs[0]), cs[1..]);
    }
  }
}
