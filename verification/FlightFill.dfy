/** The item of one call emptied and filled through its pointer, in steps that others can come between. */
module FlightFill {
  import opened Common
  import opened CacheItems
  import Flight = DistributedFlight

  // DistributedFlight fetches and fills in one step. In the code a handler or poller first makes the call point to an
  // empty item and later writes into whatever item the call then points to, and the leader goes on using the item it
  // assigned.

  const EMPTY := CacheItem(Flight.ZERO, None, "")

  /** Handler or poller: idle, holding the GET's answer, having emptied the call's item, having filled it, or ended. */
  datatype Writer = Idle | Has(found: Option<CacheItem>) | Emptied(found: Option<CacheItem>) | Full | Ended

  /** The leader of this call, and the item it assigned; for a follower's call the leader is elsewhere. */
  datatype Leading = Elsewhere | Working | Assigned(item: nat) | Woken(item: nat) | Sent

  datatype Who = ByHandler | ByPoller

  datatype State = State(
    items: seq<CacheItem>,             // every item ever allocated for the call
    points: Option<nat>,               // callner.cacheItem
    leading: Leading,
    handler: Writer,
    poller: Writer,
    released: bool,
    stored: Option<CacheItem>,         // the result key
    seen: set<CacheItem>               // history: what the waiters' Result() saw
  )

  datatype Action =
    | Assign
    | Release
    | Marshal
    | Appear
    | Get(who: Who)
    | Clear(who: Who)
    | Fill(who: Who)
    | Finish(who: Who)
    | Read

  const LEADER := State([], None, Working, Idle, Ended, false, None, {})
  const FOLLOWER := State([], None, Elsewhere, Idle, Idle, false, None, {})

  /** Setting SysError. */
  function WithError(e: CacheItem): CacheItem {
    e.(sysError := Flight.NOT_FOUND)
  }

  /** json.Unmarshal onto an item: fields that were empty when the item was marshalled are left as they are. */
  function Merged(e: CacheItem, read: CacheItem): CacheItem {
    CacheItem(read.data,
              if read.buError.Some? then read.buError else e.buError,
              if read.sysError != "" then read.sysError else e.sysError)
  }

  function Filled(e: CacheItem, found: Option<CacheItem>): CacheItem {
    match found
    case None => WithError(e)
    case Some(read) => Merged(e, read)
  }

  function WriterOf(s: State, who: Who): Writer {
    if who.ByHandler? then s.handler else s.poller
  }

  function Writing(s: State, who: Who, w: Writer): State {
    s.(handler := if who.ByHandler? then w else s.handler, poller := if who.ByPoller? then w else s.poller)
  }

  predicate HasItem(s: State) {
    s.points.Some? && s.points.value < |s.items|
  }

  function Pointing(s: State, e: CacheItem): State {
    s.(items := s.items + [e], points := Some(|s.items|))
  }

  /** `item` is what newCacheItem made of the flight's outcome. A poller's tick that finds nothing does nothing. */
  function Next(s: State, a: Action, item: CacheItem): Option<State> {
    match a
    case Assign => if s.leading.Working? then Some(Pointing(s, item).(leading := Assigned(|s.items|))) else None
    case Release => if s.leading.Assigned? then Some(s.(leading := Woken(s.leading.item), released := true)) else None
    case Marshal =>
      if s.leading.Woken? && s.leading.item < |s.items|
        then Some(s.(leading := Sent, stored := Some(s.items[s.leading.item]))) else None
    case Appear => if s.leading.Elsewhere? && s.stored.None? then Some(s.(stored := Some(item))) else None
    case Get(w) =>
      if WriterOf(s, w).Idle? && (w.ByPoller? ==> s.stored.Some?) then Some(Writing(s, w, Has(s.stored))) else None
    case Clear(w) =>
      if WriterOf(s, w).Has? then Some(Writing(Pointing(s, EMPTY), w, Emptied(WriterOf(s, w).found))) else None
    case Fill(w) =>
      if WriterOf(s, w).Emptied? && HasItem(s) then
        var p := s.points.value;
        Some(Writing(s.(items := s.items[p := Filled(s.items[p], WriterOf(s, w).found)]), w, Full))
      else None
    case Finish(w) =>
      if WriterOf(s, w).Full? then Some(Writing(s.(released := true), w, if w.ByHandler? then Idle else Ended))
        else None
    case Read => if s.released && HasItem(s) then Some(s.(seen := s.seen + {s.items[s.points.value]})) else None
  }

  function Exec(s: State, acts: seq<Action>, item: CacheItem): Option<State>
    decreases |acts|
  {
    if acts == [] then Some(s)
    else
      match Next(s, acts[0], item)
      case None => None
      case Some(t) => Exec(t, acts[1..], item)
  }

  // ---------------------------------------------------------------- all that can be seen

  predicate Possible(e: CacheItem, item: CacheItem) {
    e == EMPTY || e == item || e == Flight.TRANSPORT_ERROR || e == WithError(item)
  }

  predicate Storable(e: Option<CacheItem>, item: CacheItem) {
    e == None || e == Some(item) || e == Some(WithError(item))
  }

  /** The leader of this call has yet to store the result. */
  predicate Leads(s: State) {
    s.leading.Working? || s.leading.Assigned? || s.leading.Woken?
  }

  ghost predicate OkWriter(w: Writer, s: State, item: CacheItem) {
    && (w.Has? || w.Emptied? ==> Storable(w.found, item))
    && (w.Emptied? || w.Full? ==> s.points.Some?)
  }

  ghost predicate Inv(s: State, item: CacheItem) {
    && (forall i :: 0 <= i < |s.items| ==> Possible(s.items[i], item))
    && (s.points.Some? ==> s.points.value < |s.items|)
    && (s.leading.Assigned? || s.leading.Woken? ==>
          s.leading.item < |s.items| && (s.items[s.leading.item] == item || s.items[s.leading.item] == WithError(item)))
    && (Leads(s) ==> s.stored.None? && s.poller.Ended?)
    && (Leads(s) && (s.handler.Has? || s.handler.Emptied?) ==> s.handler.found.None?)
    && Storable(s.stored, item)
    && OkWriter(s.handler, s, item) && OkWriter(s.poller, s, item)
    && (forall e :: e in s.seen ==> Possible(e, item))
    && (s.points.Some? && item != EMPTY && !s.handler.Emptied? && !s.poller.Emptied? ==>
      s.items[s.points.value] != EMPTY)
  }

  lemma GetKeepsInv(s: State, a: Action, item: CacheItem)
    requires Inv(s, item) && Next(s, a, item).Some? && (a.Get? || a.Finish?)
    ensures Inv(Next(s, a, item).value, item)
  {
  }

  lemma ClearKeepsInv(s: State, a: Action, item: CacheItem)
    requires Inv(s, item) && Next(s, a, item).Some? && (a.Clear?)
    ensures Inv(Next(s, a, item).value, item)
  {
  }

  lemma FillKeepsInv(s: State, a: Action, item: CacheItem)
    requires Inv(s, item) && Next(s, a, item).Some? && (a.Fill?)
    ensures Inv(Next(s, a, item).value, item)
  {
  }

  lemma LeaderKeepsInv(s: State, a: Action, item: CacheItem)
    requires Inv(s, item) && Next(s, a, item).Some? && (a.Assign? || a.Release? || a.Marshal? || a.Appear? || a.Read?)
    ensures Inv(Next(s, a, item).value, item)
  {
  }

  lemma StepKeepsInv(s: State, a: Action, item: CacheItem)
    requires Inv(s, item) && Next(s, a, item).Some?
    ensures Inv(Next(s, a, item).value, item)
  {
    hide Inv, Next;
    match a
    case Get(_) => GetKeepsInv(s, a, item);
    case Finish(_) => GetKeepsInv(s, a, item);
    case Clear(_) => ClearKeepsInv(s, a, item);
    case Fill(_) => FillKeepsInv(s, a, item);
    case _ => LeaderKeepsInv(s, a, item);
  }

  lemma {:induction false} RunsKeepInv(s: State, acts: seq<Action>, item: CacheItem)
    requires Inv(s, item) && Exec(s, acts, item).Some?
    ensures Inv(Exec(s, acts, item).value, item)
    decreases |acts|
  {
    if acts != [] {
      StepKeepsInv(s, acts[0], item);
      RunsKeepInv(Next(s, acts[0], item).value, acts[1..], item);
    }
  }

  /** In any interleaving a waiter sees the flight's item, the transport error, the flight's item with the transport
      error written into it, or an empty item; the result stored is the flight's item, or that with the error. A
      follower's `item` is what the leader stored: for a flight whose result was spoilt read WithError(item). */
  lemma AllThatIsSeen(s: State, acts: seq<Action>, item: CacheItem)
    requires s == LEADER || s == FOLLOWER
    requires Exec(s, acts, item).Some?
    ensures var t := Exec(s, acts, item).value;
            && (forall e :: e in t.seen ==> Possible(e, item)) && Storable(t.stored, item)
            && (s == FOLLOWER ==> t.stored.None? || t.stored == Some(item))
  {
    RunsKeepInv(s, acts, item);
    if s == FOLLOWER { StoredElsewhere(s, acts, item); }
  }

  lemma {:induction false} StoredElsewhere(s: State, acts: seq<Action>, item: CacheItem)
    requires s.leading.Elsewhere? && (s.stored.None? || s.stored == Some(item)) && Exec(s, acts, item).Some?
    ensures var t := Exec(s, acts, item).value; t.leading.Elsewhere? && (t.stored.None? || t.stored == Some(item))
    decreases |acts|
  {
    if acts != [] { StoredElsewhere(Next(s, acts[0], item).value, acts[1..], item); }
  }

  /** The call points to an empty item. */
  predicate PointsToEmpty(s: State) {
    HasItem(s) && s.items[s.points.value] == EMPTY
  }

  /** Some writer has emptied the item, and since then nobody has filled it and the leader has not assigned one. */
  ghost predicate EmptiedLast(acts: seq<Action>) {
    exists i :: 0 <= i < |acts| && EmptiedAt(acts, i)
  }

  predicate EmptiedAt(acts: seq<Action>, i: int) {
    0 <= i < |acts| && acts[i].Clear? && NothingWritten(acts[i + 1..])
  }

  predicate NothingWritten(acts: seq<Action>) {
    forall a :: a in acts ==> !a.Fill? && !a.Assign?
  }

  lemma StepEmpty(s: State, a: Action, item: CacheItem)
    requires Inv(s, item) && Next(s, a, item).Some? && item != EMPTY
    ensures PointsToEmpty(Next(s, a, item).value) <==> a.Clear? || (PointsToEmpty(s) && !a.Fill? && !a.Assign?)
  {
  }

  lemma WrittenCons(a: Action, acts: seq<Action>)
    ensures NothingWritten([a] + acts) <==> !a.Fill? && !a.Assign? && NothingWritten(acts)
  {
    assert forall b :: b in [a] + acts <==> b == a || b in acts;
  }

  lemma EmptiedCons(a: Action, acts: seq<Action>)
    ensures EmptiedLast([a] + acts) <==> EmptiedLast(acts) || (a.Clear? && NothingWritten(acts))
  {
    hide NothingWritten;
    var all := [a] + acts;
    assert all[1..] == acts;
    forall i | 0 <= i < |acts| ensures EmptiedAt(all, i + 1) <==> EmptiedAt(acts, i) {
      assert all[i + 1..][1..] == acts[i + 1..];
    }
    assert EmptiedAt(all, 0) <==> a.Clear? && NothingWritten(acts);
    if EmptiedLast(all) {
      var i :| 0 <= i < |all| && EmptiedAt(all, i);
      if i > 0 { assert EmptiedAt(acts, i - 1); }
    }
  }

  lemma {:induction false} RunEmpty(s: State, acts: seq<Action>, item: CacheItem)
    requires Inv(s, item) && Exec(s, acts, item).Some? && item != EMPTY
    ensures PointsToEmpty(Exec(s, acts, item).value) <==>
            EmptiedLast(acts) || (PointsToEmpty(s) && NothingWritten(acts))
    decreases |acts|
  {
    hide Inv, Next, PointsToEmpty, EmptiedAt;
    if acts != [] {
      assert acts == [acts[0]] + acts[1..];
      EmptiedCons(acts[0], acts[1..]);
      WrittenCons(acts[0], acts[1..]);
      StepEmpty(s, acts[0], item);
      StepKeepsInv(s, acts[0], item);
      RunEmpty(Next(s, acts[0], item).value, acts[1..], item);
    }
  }

  /** Exactly when a waiter would see an empty item, which it takes for a zero value without error: when a handler or
      poller has emptied it and nothing has been written since. One of them is then between emptying and filling. */
  lemma EmptyExactlyBetween(s: State, acts: seq<Action>, item: CacheItem)
    requires s == LEADER || s == FOLLOWER
    requires Exec(s, acts, item).Some? && item != EMPTY
    ensures var t := Exec(s, acts, item).value;
            && (PointsToEmpty(t) <==> EmptiedLast(acts))
            && (PointsToEmpty(t) ==> t.handler.Emptied? || t.poller.Emptied?)
  {
    RunEmpty(s, acts, item);
    RunsKeepInv(s, acts, item);
  }

  // ---------------------------------------------------------------- fills that nothing overtakes

  /** Whoever has emptied the item fills it in the very next step. */
  predicate AtOnce(s: State, a: Action) {
    (s.handler.Emptied? ==> a == Fill(ByHandler)) && (s.poller.Emptied? ==> a == Fill(ByPoller))
  }

  predicate AllAtOnce(s: State, acts: seq<Action>, item: CacheItem)
    decreases |acts|
  {
    acts == [] || (AtOnce(s, acts[0]) && (Next(s, acts[0], item).Some? ==>
      AllAtOnce(Next(s, acts[0], item).value, acts[1..], item)))
  }

  predicate Right(e: CacheItem, item: CacheItem) {
    e == item || e == Flight.TRANSPORT_ERROR
  }

  ghost predicate FoundRight(w: Writer, item: CacheItem) {
    w.Has? || w.Emptied? ==> w.found.None? || w.found == Some(item)
  }

  ghost predicate Clean(s: State, item: CacheItem) {
    && !(s.handler.Emptied? && s.poller.Emptied?)
    && (s.handler.Emptied? || s.poller.Emptied? ==>
      s.points == Some(|s.items| - 1) && |s.items| > 0 && s.items[|s.items| - 1] == EMPTY)
    && (s.points.Some? ==> s.points.value < |s.items|)
    && (s.points.Some? && !s.handler.Emptied? && !s.poller.Emptied? ==> Right(s.items[s.points.value], item))
    && (s.leading.Assigned? || s.leading.Woken? ==>
          s.leading.item < |s.items| && s.items[s.leading.item] == item &&
            (s.handler.Emptied? ==> s.leading.item < |s.items| - 1))
    && (Leads(s) ==> s.poller.Ended?)
    && (s.stored.None? || s.stored == Some(item))
    && FoundRight(s.handler, item) && FoundRight(s.poller, item)
    && (forall e :: e in s.seen ==> Right(e, item))
  }

  lemma GetKeepsClean(s: State, a: Action, item: CacheItem)
    requires Clean(s, item) && AtOnce(s, a) && Next(s, a, item).Some? && (a.Get? || a.Finish?)
    ensures Clean(Next(s, a, item).value, item)
  {
  }

  lemma ClearKeepsClean(s: State, a: Action, item: CacheItem)
    requires Clean(s, item) && AtOnce(s, a) && Next(s, a, item).Some? && (a.Clear?)
    ensures Clean(Next(s, a, item).value, item)
  {
  }

  lemma FillKeepsClean(s: State, a: Action, item: CacheItem)
    requires Clean(s, item) && AtOnce(s, a) && Next(s, a, item).Some? && (a.Fill?)
    ensures Clean(Next(s, a, item).value, item)
  {
  }

  lemma LeaderKeepsClean(s: State, a: Action, item: CacheItem)
    requires Clean(s, item) && AtOnce(s, a) && Next(s, a, item).Some?
    requires (a.Assign? || a.Release? || a.Marshal? || a.Appear? || a.Read?)
    ensures Clean(Next(s, a, item).value, item)
  {
  }

  lemma StepKeepsClean(s: State, a: Action, item: CacheItem)
    requires Clean(s, item) && AtOnce(s, a) && Next(s, a, item).Some?
    ensures Clean(Next(s, a, item).value, item)
  {
    hide Clean, Next;
    match a
    case Get(_) => GetKeepsClean(s, a, item);
    case Finish(_) => GetKeepsClean(s, a, item);
    case Clear(_) => ClearKeepsClean(s, a, item);
    case Fill(_) => FillKeepsClean(s, a, item);
    case _ => LeaderKeepsClean(s, a, item);
  }

  lemma {:induction false} RunStaysClean(s: State, acts: seq<Action>, item: CacheItem)
    requires Clean(s, item) && Exec(s, acts, item).Some? && AllAtOnce(s, acts, item)
    ensures Clean(Exec(s, acts, item).value, item)
    decreases |acts|
  {
    if acts != [] {
      StepKeepsClean(s, acts[0], item);
      RunStaysClean(Next(s, acts[0], item).value, acts[1..], item);
    }
  }

  /** If no step comes between emptying and filling, as in the one-step fetches and fills, waiters only ever see the
      flight's item or the transport error, and what is stored is the flight's item. */
  lemma AtOnceIsRight(s: State, acts: seq<Action>, item: CacheItem)
    requires s == LEADER || s == FOLLOWER
    requires Exec(s, acts, item).Some? && AllAtOnce(s, acts, item)
    ensures var t := Exec(s, acts, item).value;
            (forall e :: e in t.seen ==> Right(e, item)) && (t.stored.None? || t.stored == Some(item))
  {
    RunStaysClean(s, acts, item);
  }

  /** Emptying and then filling at once puts into the call what one fetch of the protocol puts there. */
  lemma OneStepFetch(s: State, w: Who, item: CacheItem, results: map<Flight.Id, CacheItem>, id: Flight.Id)
    requires WriterOf(s, w) == Has(if id in results then Some(results[id]) else None)
    ensures Next(s, Clear(w), item).Some?
    ensures var t := Next(s, Clear(w), item).value;
            && Next(t, Fill(w), item).Some?
            && var u := Next(t, Fill(w), item).value;
               HasItem(u) && u.items[u.points.value] == Flight.FetchItem(results, id)
  {
    var t := Next(s, Clear(w), item).value;
    assert t.items[|s.items|] == EMPTY;
  }

  // ---------------------------------------------------------------- exactly when the stored result is spoilt

  /** A handler that found no result writes its error into the very item the leader has assigned and not yet stored. */
  predicate Spoils(s: State, a: Action) {
    && a.Fill? && WriterOf(s, a.who).Emptied? && WriterOf(s, a.who).found.None?
    && (s.leading.Assigned? || s.leading.Woken?) && s.points == Some(s.leading.item)
  }

  predicate NeverSpoilt(s: State, acts: seq<Action>, item: CacheItem)
    decreases |acts|
  {
    acts == [] || (!Spoils(s, acts[0]) && (Next(s, acts[0], item).Some? ==>
      NeverSpoilt(Next(s, acts[0], item).value, acts[1..], item)))
  }

  /** The item the leader will store, or has stored. */
  ghost predicate WillStore(s: State, item: CacheItem, e: CacheItem) {
    match s.leading
    case Elsewhere => false
    case Working => e == item
    case Assigned(i) => i < |s.items| && s.items[i] == e
    case Woken(i) => i < |s.items| && s.items[i] == e
    case Sent => s.stored == Some(e)
  }

  lemma StepWillStore(s: State, a: Action, item: CacheItem, e: CacheItem)
    requires Inv(s, item) && WillStore(s, item, e) && Next(s, a, item).Some?
    ensures WillStore(Next(s, a, item).value, item, if Spoils(s, a) then WithError(e) else e)
  {
  }

  lemma {:induction false} RunWillStore(s: State, acts: seq<Action>, item: CacheItem, e: CacheItem)
    requires Inv(s, item) && WillStore(s, item, e) && Exec(s, acts, item).Some? && (e == item || e == WithError(item))
    ensures WillStore(Exec(s, acts, item).value, item, if e == item && NeverSpoilt(s, acts, item) then item
            else WithError(item))
    decreases |acts|
  {
    if acts != [] {
      StepWillStore(s, acts[0], item, e);
      StepKeepsInv(s, acts[0], item);
      RunWillStore(Next(s, acts[0], item).value, acts[1..], item, if Spoils(s, acts[0]) then WithError(e) else e);
    }
  }

  /** The result a leader stores for the whole cluster is its own item if and only if no handler spoilt it. */
  lemma StoredUnlessSpoilt(acts: seq<Action>, item: CacheItem)
    requires Exec(LEADER, acts, item).Some? && Exec(LEADER, acts, item).value.leading.Sent?
    requires item.sysError != Flight.NOT_FOUND
    ensures Exec(LEADER, acts, item).value.stored == Some(item) <==> NeverSpoilt(LEADER, acts, item)
  {
    RunWillStore(LEADER, acts, item, item);
  }

  // ---------------------------------------------------------------- and each of it can happen

  /** From `s` some run has a waiter see `e`; some run stores `e`. */
  ghost predicate CanShow(s: State, item: CacheItem, e: CacheItem) {
    exists acts :: Exec(s, acts, item).Some? && e in Exec(s, acts, item).value.seen
  }

  ghost predicate CanStore(s: State, item: CacheItem, e: CacheItem) {
    exists acts :: Exec(s, acts, item).Some? && Exec(s, acts, item).value.stored == Some(e)
  }

  lemma StepThen(s: State, a: Action, t: State, item: CacheItem, e: CacheItem)
    requires Next(s, a, item) == Some(t)
    ensures CanShow(t, item, e) ==> CanShow(s, item, e)
    ensures CanStore(t, item, e) ==> CanStore(s, item, e)
  {
    if CanShow(t, item, e) {
      var acts :| Exec(t, acts, item).Some? && e in Exec(t, acts, item).value.seen;
      assert ([a] + acts)[1..] == acts;
      assert Exec(s, [a] + acts, item) == Exec(t, acts, item);
    }
    if CanStore(t, item, e) {
      var acts :| Exec(t, acts, item).Some? && Exec(t, acts, item).value.stored == Some(e);
      assert ([a] + acts)[1..] == acts;
      assert Exec(s, [a] + acts, item) == Exec(t, acts, item);
    }
  }

  lemma ReadShows(s: State, item: CacheItem)
    requires s.released && HasItem(s)
    ensures CanShow(s, item, s.items[s.points.value])
  {
    var t := Next(s, Read, item).value;
    assert Exec(t, [], item) == Some(t);
    StepThen(s, Read, t, item, s.items[s.points.value]);
  }

  /** A handler acting on an older publish empties the item after the leader has released its waiters. */
  lemma EmptyCanBeSeen(item: CacheItem)
    ensures CanShow(LEADER, item, EMPTY)
  {
    hide CanShow, CanStore;
    var s1 := LEADER.(handler := Has(None));
    var s2 := s1.(items := [item], points := Some(0), leading := Assigned(0));
    var s3 := s2.(leading := Woken(0), released := true);
    var s4 := s3.(items := [item, EMPTY], points := Some(1), handler := Emptied(None));
    assert s2.items == s1.items + [item] && s4.items == s3.items + [EMPTY];
    ReadShows(s4, item);
    StepThen(s3, Clear(ByHandler), s4, item, EMPTY);
    StepThen(s2, Release, s3, item, EMPTY);
    StepThen(s1, Assign, s2, item, EMPTY);
    StepThen(LEADER, Get(ByHandler), s1, item, EMPTY);
  }

  lemma StoresNow(s: State, item: CacheItem)
    requires s.stored.Some?
    ensures CanStore(s, item, s.stored.value)
  {
    assert Exec(s, [], item) == Some(s);
  }

  /** The leader has assigned its item over the one the handler emptied. */
  function Overtaken(item: CacheItem): State {
    LEADER.(items := [EMPTY, item], points := Some(1), leading := Assigned(1), handler := Emptied(None))
  }

  lemma SpoiltAfterOvertaking(item: CacheItem)
    ensures CanStore(Overtaken(item), item, WithError(item))
  {
    hide CanShow, CanStore;
    var s3, e := Overtaken(item), WithError(item);
    var s4 := s3.(items := [EMPTY, e], handler := Full);
    var s5 := s4.(leading := Woken(1), released := true);
    var s6 := s5.(leading := Sent, stored := Some(e));
    StoresNow(s6, item);
    StepThen(s5, Marshal, s6, item, e);
    StepThen(s4, Release, s5, item, e);
    assert s4.items == s3.items[1 := e];
    StepThen(s3, Fill(ByHandler), s4, item, e);
  }

  /** A handler that emptied the item before the leader assigned its own writes its error into the leader's item,
      which is then stored for everyone: fn succeeded, and every other node reports an error. */
  lemma ResultCanBeSpoilt(item: CacheItem)
    ensures CanStore(LEADER, item, WithError(item))
  {
    hide CanShow, CanStore;
    var e := WithError(item);
    var s1 := LEADER.(handler := Has(None));
    var s2 := s1.(items := [EMPTY], points := Some(0), handler := Emptied(None));
    assert s2.items == s1.items + [EMPTY] && Overtaken(item).items == s2.items + [item];
    SpoiltAfterOvertaking(item);
    StepThen(s2, Assign, Overtaken(item), item, e);
    StepThen(s1, Clear(ByHandler), s2, item, e);
    StepThen(LEADER, Get(ByHandler), s1, item, e);
  }

  /** Handler and poller of a follower's call have both emptied its item, the poller last and with the result in
      hand. */
  function BothEmptied(item: CacheItem): State {
    FOLLOWER.(items := [EMPTY, EMPTY], points := Some(1), stored := Some(item), handler := Emptied(None),
      poller := Emptied(Some(item)))
  }

  lemma MixtureAfterEmptying(item: CacheItem)
    ensures CanShow(BothEmptied(item), item, WithError(item))
  {
    hide CanShow, CanStore;
    var s5, e := BothEmptied(item), WithError(item);
    var s6 := s5.(items := [EMPTY, item], poller := Full);
    var s7 := s6.(items := [EMPTY, e], handler := Full);
    var s8 := s7.(released := true, poller := Ended);
    ReadShows(s8, item);
    StepThen(s7, Finish(ByPoller), s8, item, e);
    assert s7.items == s6.items[1 := e];
    StepThen(s6, Fill(ByHandler), s7, item, e);
    assert Merged(EMPTY, item) == item && s6.items == s5.items[1 := item];
    StepThen(s5, Fill(ByPoller), s6, item, e);
  }

  /** A follower's handler and poller write into the same item. */
  lemma MixtureCanBeSeen(item: CacheItem)
    ensures CanShow(FOLLOWER, item, WithError(item))
  {
    hide CanShow, CanStore;
    var e := WithError(item);
    var s1 := FOLLOWER.(handler := Has(None));
    var s2 := s1.(stored := Some(item));
    var s3 := s2.(poller := Has(Some(item)));
    var s4 := s3.(items := [EMPTY], points := Some(0), handler := Emptied(None));
    assert s4.items == s3.items + [EMPTY] && BothEmptied(item).items == s4.items + [EMPTY];
    MixtureAfterEmptying(item);
    StepThen(s4, Clear(ByPoller), BothEmptied(item), item, e);
    StepThen(s3, Clear(ByHandler), s4, item, e);
    StepThen(s2, Get(ByPoller), s3, item, e);
    StepThen(s1, Appear, s2, item, e);
    StepThen(FOLLOWER, Get(ByHandler), s1, item, e);
  }
}
