/** Liveness: without new calls and renewals every run ends, and where it cannot go on every Do has returned. */
module FlightLiveness {
  import opened Common
  import opened CacheItems
  import opened DistributedFlight
  import opened FlightInvariant
  import opened FlightTheorems
  import opened FlightProgress
  import opened Sums

  /** What a message on its way may still cause: delivery, fetch and release. */
  const MESSAGE: nat := 3

  function EachMore(m: map<nat, nat>): map<nat, nat> {
    map k | k in m :: m[k] + MESSAGE
  }

  lemma {:induction false} SumEachMore(m: map<nat, nat>)
    ensures Sum(EachMore(m)) == Sum(m) + MESSAGE * |m|
    decreases |m|
  {
    if m != map[] {
      var k :| k in m;
      SumWithout(m, k);
      SumWithout(EachMore(m), k);
      assert EachMore(m) - {k} == EachMore(m - {k});
      SumEachMore(m - {k});
      assert |m| == |m - {k}| + 1 by { assert m.Keys == (m - {k}).Keys + {k}; }
    }
  }

  // ---------------------------------------------------------------- how much is left to do

  /** The steps a Do in this phase has before it, the messages of its publish to `nodes` nodes included. */
  function PhaseWeight(f: Phase, nodes: nat): nat {
    match f
    case Electing => MESSAGE * nodes + 8
    case Leader(st, _) => MESSAGE * nodes + 7 - Rank(st)
    case Following => 2
    case Collecting => 1
    case Joined(_) => 1
    case Returned(_, _) => 0
  }

  function PollWeight(p: Poller): nat {
    match p
    case PollOn => 2
    case PollFilled => 1
    case PollOff => 0
  }

  function HandlerWeight(h: Handler): nat {
    match h
    case Idle => 0
    case Got(_) => 2
    case Fetched(_) => 1
  }

  function ProcWeights(s: State): map<nat, nat> {
    map p | p in s.procs :: PhaseWeight(s.procs[p].phase, |s.inbox|)
  }

  function CallWeights(s: State): map<nat, nat> {
    map c | c in s.calls :: PollWeight(s.calls[c].poll)
  }

  function InboxWeights(s: State): map<nat, nat> {
    map n | n in s.inbox :: MESSAGE * |s.inbox[n]|
  }

  function HandlerWeights(s: State): map<nat, nat> {
    map n | n in s.handler :: HandlerWeight(s.handler[n])
  }

  /** A bound on the steps that are left without new calls and renewals. */
  ghost function Left(s: State): nat {
    Sum(ProcWeights(s)) + Sum(CallWeights(s)) + Sum(InboxWeights(s)) + Sum(HandlerWeights(s))
  }

  /** `t` is `s` with the phase of Do p changed and the calls' pollers, inboxes and handlers as they were. */
  lemma PhaseDescends(s: State, t: State, p: Pid)
    requires p in s.procs && p in t.procs && t.procs == s.procs[p := t.procs[p]] && CallWeights(t) == CallWeights(s)
    requires t.inbox == s.inbox && t.handler == s.handler
    requires PhaseWeight(t.procs[p].phase, |t.inbox|) < PhaseWeight(s.procs[p].phase, |s.inbox|)
    ensures Left(t) < Left(s)
  {
    SumUpdate(ProcWeights(s), p, PhaseWeight(t.procs[p].phase, |t.inbox|));
    assert ProcWeights(t) == ProcWeights(s)[p := PhaseWeight(t.procs[p].phase, |t.inbox|)];
  }

  lemma PollDescends(s: State, t: State, c: Pid)
    requires c in s.calls && c in t.calls && t.calls == s.calls[c := t.calls[c]]
    requires t.procs == s.procs && t.inbox == s.inbox && t.handler == s.handler
    requires PollWeight(t.calls[c].poll) < PollWeight(s.calls[c].poll)
    ensures Left(t) < Left(s)
  {
    SumUpdate(CallWeights(s), c, PollWeight(t.calls[c].poll));
    assert CallWeights(t) == CallWeights(s)[c := PollWeight(t.calls[c].poll)];
  }

  lemma HandlerDescends(s: State, t: State, n: Node)
    requires n in s.handler && n in t.handler && t.handler == s.handler[n := t.handler[n]]
    requires CallWeights(t) == CallWeights(s)
    requires t.procs == s.procs && t.inbox == s.inbox
    requires HandlerWeight(t.handler[n]) < HandlerWeight(s.handler[n])
    ensures Left(t) < Left(s)
  {
    SumUpdate(HandlerWeights(s), n, HandlerWeight(t.handler[n]));
    assert HandlerWeights(t) == HandlerWeights(s)[n := HandlerWeight(t.handler[n])];
  }

  /** A message goes; the handler of its node may take it up. */
  lemma InboxDescends(s: State, t: State, n: Node)
    requires n in s.inbox && s.inbox[n] != [] && t.inbox == s.inbox[n := s.inbox[n][1..]] && |t.inbox| == |s.inbox|
    requires t.procs == s.procs && t.calls == s.calls
    requires t.handler == s.handler ||
             (n in s.handler && s.handler[n].Idle? && n in t.handler && t.handler == s.handler[n := t.handler[n]])
    ensures Left(t) < Left(s)
  {
    SumUpdate(InboxWeights(s), n, MESSAGE * |t.inbox[n]|);
    assert InboxWeights(t) == InboxWeights(s)[n := MESSAGE * |t.inbox[n]|];
    assert ProcWeights(t) == ProcWeights(s);
    if n in s.handler && n in t.handler {
      SumUpdate(HandlerWeights(s), n, HandlerWeight(t.handler[n]));
      assert HandlerWeights(t) == HandlerWeights(s)[n := HandlerWeight(t.handler[n])];
    }
  }

  lemma PublishMessages(s: State, p: Pid)
    requires AtStage(s, p, Removed)
    ensures var t := DoPublish(s, p);
            |t.inbox| == |s.inbox| == |InboxWeights(s)| && InboxWeights(t) == EachMore(InboxWeights(s))
  {
    var t := DoPublish(s, p);
    assert t.inbox.Keys == s.inbox.Keys == InboxWeights(s).Keys;
    assert |t.inbox.Keys| == |t.inbox| && |s.inbox.Keys| == |s.inbox| && |InboxWeights(s).Keys| == |InboxWeights(s)|;
  }

  lemma PublishWeights(s: State, p: Pid)
    requires AtStage(s, p, Removed)
    ensures var t := DoPublish(s, p);
            && ProcWeights(t) == ProcWeights(s)[p := 0] && CallWeights(t) == CallWeights(s) &&
              HandlerWeights(t) == HandlerWeights(s)
  {
    PublishMessages(s, p);
    hide EachMore, InboxWeights, PollWeight, HandlerWeight;
  }

  /** The publish puts one message on its way to every node, which its leader had before it. */
  lemma PublishDescends(s: State, p: Pid)
    requires AtStage(s, p, Removed)
    ensures Left(DoPublish(s, p)) < Left(s)
  {
    PublishMessages(s, p);
    PublishWeights(s, p);
    SumUpdate(ProcWeights(s), p, 0);
    SumEachMore(InboxWeights(s));
    assert ProcWeights(s)[p] == MESSAGE * |s.inbox| + 1;
    hide Sum, EachMore, ProcWeights, CallWeights, InboxWeights, HandlerWeights, DoPublish;
  }

  lemma ElectWeights(s: State, p: Pid, id: Id)
    requires Inv(s) && CanElect(s, p, id)
    ensures var t := DoElect(s, p, id);
            && p in t.procs && p in t.calls && t.inbox == s.inbox && t.handler == s.handler
            && t.procs == s.procs[p := t.procs[p]] && p !in s.calls && t.calls == s.calls[p := t.calls[p]]
            && PhaseWeight(t.procs[p].phase, |t.inbox|) +
              PollWeight(t.calls[p].poll) < PhaseWeight(s.procs[p].phase, |s.inbox|)
  {
    assert OkProc(s, p);
  }

  lemma OneProcWeight(s: State, t: State, p: Pid)
    requires p in s.procs && p in t.procs && t.procs == s.procs[p := t.procs[p]] && t.inbox == s.inbox
    ensures ProcWeights(t) == ProcWeights(s)[p := PhaseWeight(t.procs[p].phase, |t.inbox|)]
  {
    hide PhaseWeight;
  }

  lemma OneCallWeight(s: State, t: State, c: Pid)
    requires c in t.calls && t.calls == s.calls[c := t.calls[c]]
    ensures CallWeights(t) == CallWeights(s)[c := PollWeight(t.calls[c].poll)]
  {
    hide PollWeight;
  }

  /** A Do whose phase loses more than its new call brings. */
  lemma CallerDescends(s: State, t: State, p: Pid)
    requires p in s.procs && p in t.procs && t.procs == s.procs[p := t.procs[p]] && t.inbox == s.inbox
    requires t.handler == s.handler
    requires p !in s.calls && p in t.calls && t.calls == s.calls[p := t.calls[p]]
    requires PhaseWeight(t.procs[p].phase, |t.inbox|) +
             PollWeight(t.calls[p].poll) < PhaseWeight(s.procs[p].phase, |s.inbox|)
    ensures Left(t) < Left(s)
  {
    assert InboxWeights(t) == InboxWeights(s) && HandlerWeights(t) == HandlerWeights(s);
    assert p in ProcWeights(s) && ProcWeights(s)[p] == PhaseWeight(s.procs[p].phase, |s.inbox|) && p !in CallWeights(s);
    OneProcWeight(s, t, p);
    OneCallWeight(s, t, p);
    hide PhaseWeight, PollWeight, ProcWeights, CallWeights, InboxWeights, HandlerWeights, Sum;
    SumUpdate(ProcWeights(s), p, PhaseWeight(t.procs[p].phase, |t.inbox|));
    SumUpdate(CallWeights(s), p, PollWeight(t.calls[p].poll));
  }

  lemma ElectDescends(s: State, p: Pid, id: Id)
    requires Inv(s) && CanElect(s, p, id)
    ensures Left(DoElect(s, p, id)) < Left(s)
  {
    hide Inv, DoElect, PhaseWeight, PollWeight, Left;
    ElectWeights(s, p, id);
    CallerDescends(s, DoElect(s, p, id), p);
  }

  lemma LeaderMoves(s: State, a: Action)
    requires Next(s, a).Some? && (a.FnReturn? || a.Fill? || a.Wake? || a.Store? || a.Unlock? || a.Remove?)
    ensures var t, p := Next(s, a).value, a.pid;
            && p in s.procs && p in t.procs && t.procs == s.procs[p := t.procs[p]] && t.inbox == s.inbox &&
              t.handler == s.handler
            && s.procs[p].phase.Leader? && t.procs[p].phase.Leader? &&
              Rank(t.procs[p].phase.stage) > Rank(s.procs[p].phase.stage)
  {
    hide NewCacheItem, Done;
  }

  lemma LeaderKeepsPolls(s: State, a: Action)
    requires Next(s, a).Some? && (a.FnReturn? || a.Fill? || a.Wake? || a.Store? || a.Unlock? || a.Remove?)
    ensures CallWeights(Next(s, a).value) == CallWeights(s)
  {
    hide NewCacheItem, PollWeight;
  }

  lemma LeaderDescends(s: State, a: Action)
    requires Next(s, a).Some? && (a.FnReturn? || a.Fill? || a.Wake? || a.Store? || a.Unlock? || a.Remove?)
    ensures Left(Next(s, a).value) < Left(s)
  {
    hide Next, Left, CallWeights;
    LeaderMoves(s, a);
    LeaderKeepsPolls(s, a);
    PhaseDescends(s, Next(s, a).value, a.pid);
  }

  lemma WaiterDescends(s: State, a: Action)
    requires Next(s, a).Some? && (a.JoinReturn? || a.FollowerRemove? || a.Collect?)
    ensures Left(Next(s, a).value) < Left(s)
  {
    PhaseDescends(s, Next(s, a).value, a.pid);
  }

  lemma PollerDescends(s: State, a: Action)
    requires Next(s, a).Some? && (a.PollHit? || a.PollDone? || a.PollExit?)
    ensures Left(Next(s, a).value) < Left(s)
  {
    PollDescends(s, Next(s, a).value, a.pid);
  }

  lemma ServiceDescends(s: State, a: Action)
    requires Next(s, a).Some? && (a.Fetch? || a.HandlerDone?)
    ensures Left(Next(s, a).value) < Left(s)
  {
    hide FetchItem;
    HandlerDescends(s, Next(s, a).value, a.node);
  }

  lemma MessageDescends(s: State, a: Action)
    requires Next(s, a).Some? && (a.Deliver? || a.Lose?)
    ensures Left(Next(s, a).value) < Left(s)
  {
    var t := Next(s, a).value;
    assert t.inbox.Keys == s.inbox.Keys && |t.inbox.Keys| == |t.inbox| && |s.inbox.Keys| == |s.inbox|;
    InboxDescends(s, t, a.node);
  }

  lemma StepDescends(s: State, a: Action)
    requires Inv(s) && Next(s, a).Some? && Own(a)
    ensures Left(Next(s, a).value) < Left(s)
  {
    hide Inv, Left;
    match a
    case Elect(p, id) => ElectDescends(s, p, id);
    case Publish(p) => PublishDescends(s, p);
    case JoinReturn(_) => WaiterDescends(s, a);
    case FollowerRemove(_) => WaiterDescends(s, a);
    case Collect(_) => WaiterDescends(s, a);
    case PollHit(_) => PollerDescends(s, a);
    case PollDone(_) => PollerDescends(s, a);
    case PollExit(_) => PollerDescends(s, a);
    case Deliver(_) => MessageDescends(s, a);
    case Fetch(_) => ServiceDescends(s, a);
    case HandlerDone(_) => ServiceDescends(s, a);
    case Lose(_) => MessageDescends(s, a);
    case _ => LeaderDescends(s, a);
  }

  // ---------------------------------------------------------------- every run ends, and ends well

  /** A run of own steps is no longer than what was left to do, and what is left shrinks by its length. */
  lemma {:induction false} RunsEnd(s: State, acts: seq<Action>)
    requires Inv(s) && Exec(s, acts).Some? && OwnSteps(acts)
    ensures |acts| + Left(Exec(s, acts).value) <= Left(s)
    decreases |acts|
  {
    hide Left, Own;
    if acts != [] {
      assert Own(acts[0]) && OwnSteps(acts[1..]);
      StepDescends(s, acts[0]);
      KeepInv(s, acts[0]);
      RunsEnd(Next(s, acts[0]).value, acts[1..]);
    }
  }

  /** No own step is possible. */
  ghost predicate AtRest(s: State) {
    forall a :: Own(a) ==> Next(s, a).None?
  }

  lemma NotAtRest(s: State, acts: seq<Action>)
    requires Exec(s, acts).Some? && OwnSteps(acts) && acts != []
    ensures !AtRest(s)
  {
    hide Own;
    assert Own(acts[0]) && Next(s, acts[0]).Some?;
  }

  /** Where no own step is possible, every Do has returned. */
  lemma AtRestReturned(s: State, p: Pid)
    requires Reachable(s) && AtRest(s) && p in s.procs
    ensures HasReturned(s, p)
  {
    hide AtRest, Next, Own;
    EveryDoCanReturn(s, p);
    var acts :| Exec(s, acts).Some? && HasReturned(Exec(s, acts).value, p) && OwnSteps(acts);
    if acts != [] { NotAtRest(s, acts); }
  }

  /** However calls, pollers, handlers and messages interleave: a run without new calls and renewals takes at most
      Left(s) steps, and if it cannot be prolonged every Do that has started, on any node, has returned. */
  lemma EveryRunReturns(s: State, acts: seq<Action>, t: State)
    requires Reachable(s) && Exec(s, acts) == Some(t) && OwnSteps(acts)
    ensures |acts| <= Left(s)
    ensures AtRest(t) ==> forall p :: p in t.procs ==> HasReturned(t, p)
  {
    hide AtRest, Own, Left, Reachable;
    ReachableInv(s);
    RunsEnd(s, acts);
    ReachableRun(s, acts);
    if AtRest(t) {
      forall p | p in t.procs ensures HasReturned(t, p) { AtRestReturned(t, p); }
    }
  }

  lemma {:induction false} ReachableRun(s: State, acts: seq<Action>)
    requires Reachable(s) && Exec(s, acts).Some?
    ensures Reachable(Exec(s, acts).value)
    decreases |acts|
  {
    hide Reachable;
    if acts != [] {
      ReachableStep(s, acts[0], Next(s, acts[0]).value);
      ReachableRun(Next(s, acts[0]).value, acts[1..]);
    }
  }
}
