/** What the published message is good for: it reaches every subscribed node and releases the call there, without any
    poll. */
module FlightMessages {
  import opened Common
  import opened CacheItems
  import opened DistributedFlight
  import opened FlightInvariant
  import opened FlightTheorems

  /** The leader's last step puts its key behind what each subscribed node has yet to handle, its own node included,
      and returns what its fn produced. */
  lemma PublishReachesAll(s: State, p: Pid, n: Node)
    requires Next(s, Publish(p)).Some?
    ensures var t := Next(s, Publish(p)).value;
            && t.inbox.Keys == s.inbox.Keys
            && (n in s.inbox ==> t.inbox[n] == s.inbox[n] + [s.procs[p].key])
            && t.procs[p].phase == Returned(p, s.procs[p].phase.out)
  {
  }

  /** The three steps in which a node handles a message. */
  function Handling(n: Node): seq<Action> {
    [Deliver(n), Fetch(n), HandlerDone(n)]
  }

  ghost predicate AtHandling(s: State, n: Node) {
    CanDeliver(s, n) && (n, s.inbox[n][0]) in s.callMap
  }

  function CallOf(s: State, n: Node): Pid
    requires AtHandling(s, n)
  {
    s.callMap[(n, s.inbox[n][0])]
  }

  lemma ThreeSteps(s: State, a: Action, s1: State, b: Action, s2: State, c: Action, t: State)
    requires Next(s, a) == Some(s1) && Next(s1, b) == Some(s2) && Next(s2, c) == Some(t)
    ensures Exec(s, [a, b, c]) == Some(t)
  {
    hide Next;
    assert [c][1..] == [] && [b, c][1..] == [c] && [a, b, c][1..] == [b, c];
    assert Exec(t, []) == Some(t);
    assert Exec(s2, [c]) == Some(t);
    assert Exec(s1, [b, c]) == Some(t);
  }

  lemma DeliverRuns(s: State, n: Node)
    requires AtHandling(s, n) && CallOf(s, n) in s.calls
    ensures Next(s, Deliver(n)) == Some(DoDeliver(s, n))
    ensures var t := DoDeliver(s, n);
            && CanFetch(t, n) && t.handler == s.handler[n := Got(CallOf(s, n))]
            && t.inbox == s.inbox[n := s.inbox[n][1..]] && t.calls == s.calls && t.results == s.results
  {
  }

  lemma FetchRuns(s: State, n: Node)
    requires CanFetch(s, n)
    ensures Next(s, Fetch(n)) == Some(DoFetch(s, n))
    ensures var t, c := DoFetch(s, n), s.handler[n].call;
            && CanHandlerDone(t, n) && t.handler == s.handler[n := Fetched(c)] && t.inbox == s.inbox
            && t.calls == s.calls[c := s.calls[c].(item := Some(
                 if s.calls[c].id in s.results then s.results[s.calls[c].id]
                 else CacheItem(ZERO, None, "singleFlight get res by redis get error redis: nil")))]
  {
  }

  lemma DoneRuns(s: State, n: Node)
    requires CanHandlerDone(s, n)
    ensures Next(s, HandlerDone(n)) == Some(DoHandlerDone(s, n))
    ensures var t, c := DoHandlerDone(s, n), s.handler[n].call;
            && t.handler == s.handler[n := Idle] && t.inbox == s.inbox && t.calls == s.calls[c := t.calls[c]]
            && t.calls[c].item == s.calls[c].item
            && (s.calls[c].wg + s.calls[c].closes == 1 && (s.calls[c].fired <==> s.calls[c].wg == 0) ==>
                 t.calls[c].wg == 0 && t.calls[c].closes == 1 && t.calls[c].fired)
  {
  }

  /** A message for a call registered on the node can be handled at once. Then the message is gone, the call is
      released, with its wait group at 0 and its channel closed once, and shows the stored result of its flight, or the
      transport error if there is none; no other call is touched. */
  lemma MessageReleases(s: State, n: Node)
    requires Reachable(s) && AtHandling(s, n)
    ensures Exec(s, Handling(n)).Some? && CallOf(s, n) in s.calls
    ensures var t, c := Exec(s, Handling(n)).value, CallOf(s, n);
            && t.inbox == s.inbox[n := s.inbox[n][1..]] && t.handler == s.handler
            && c in t.calls && t.calls == s.calls[c := t.calls[c]]
            && t.calls[c].wg == 0 && t.calls[c].closes == 1 && t.calls[c].fired
            && t.calls[c].item == Some(
                 if s.calls[c].id in s.results then s.results[s.calls[c].id]
                 else CacheItem(ZERO, None, "singleFlight get res by redis get error redis: nil"))
  {
    CallRegistered(s, n);
    hide Next, Exec, DoDeliver, DoFetch, DoHandlerDone, CanFetch, CanHandlerDone, Done, FetchItem, Reachable, Inv;
    DeliverRuns(s, n);
    var s1 := DoDeliver(s, n);
    FetchRuns(s1, n);
    var s2 := DoFetch(s1, n);
    DoneRuns(s2, n);
    ThreeSteps(s, Deliver(n), s1, Fetch(n), s2, HandlerDone(n), DoHandlerDone(s2, n));
  }

  lemma CallRegistered(s: State, n: Node)
    requires Reachable(s) && AtHandling(s, n)
    ensures CallOf(s, n) in s.calls
    ensures var x := s.calls[CallOf(s, n)]; x.wg + x.closes == 1 && (x.fired <==> x.wg == 0)
    ensures s.handler[n] == Idle
  {
    ReachableInv(s);
    assert OkEntry(s, (n, s.inbox[n][0]));
    assert OkCall(s, CallOf(s, n));
  }
}
