/** No reachable state is a trap: every Do that has started can still be brought to its return,
    without any new call or renewal. */
module FlightProgress {
  import opened Common
  import opened CacheItems
  import opened DistributedFlight
  import opened FlightInvariant
  import opened FlightTheorems

  predicate HasReturned(s: State, p: Pid) {
    p in s.procs && s.procs[p].phase.Returned?
  }

  ghost predicate CanReturn(s: State, p: Pid) {
    exists acts :: Exec(s, acts).Some? && HasReturned(Exec(s, acts).value, p) && OwnSteps(acts)
  }

  /** Neither a new call nor a renewal: a step towards the end of the calls already made. */
  predicate Own(a: Action) {
    !a.Start? && !a.Renew?
  }

  predicate OwnSteps(acts: seq<Action>) {
    forall i :: 0 <= i < |acts| ==> Own(acts[i])
  }

  lemma StepThen(s: State, a: Action, p: Pid)
    ensures Own(a) && Next(s, a).Some? && CanReturn(Next(s, a).value, p) ==> CanReturn(s, p)
  {
    if !Own(a) || Next(s, a).None? || !CanReturn(Next(s, a).value, p) { return; }
    var acts :| Exec(Next(s, a).value, acts).Some? && HasReturned(Exec(Next(s, a).value, acts).value, p) &&
      OwnSteps(acts);
    var all := [a] + acts;
    assert all[1..] == acts;
    assert Exec(s, all) == Exec(Next(s, a).value, acts);
    assert OwnSteps(all);
  }

  lemma Now(s: State, p: Pid)
    requires HasReturned(s, p)
    ensures CanReturn(s, p)
  {
    assert Exec(s, []) == Some(s);
    assert OwnSteps([]);
  }

  lemma {:induction false} UnusedId(ids: set<Id>) returns (id: Id)
    ensures forall i :: i in ids ==> i < id
  {
    id := 0;
    if ids != {} {
      var i :| i in ids;
      var rest := UnusedId(ids - {i});
      id := if rest > i then rest else i + 1;
      forall j | j in ids ensures j < id { if j != i { assert j in ids - {i}; } }
    }
  }

  /** Action `a` takes `s` to `t`, is an own step, and moves only leader `l` one stage on. */
  ghost predicate Moved(s: State, a: Action, t: State, l: Pid) {
    && Own(a) && Next(s, a) == Some(t)
    && l in s.procs && l in s.calls && s.procs[l].phase.Leader? && l in t.procs && l in t.calls &&
      t.procs[l].phase.Leader?
    && t.mutex == s.mutex && t.leaderOf == s.leaderOf && s.results.Keys <= t.results.Keys
    && t.procs == s.procs[l := t.procs[l]] && t.calls == s.calls[l := t.calls[l]]
    && t.calls[l].id == s.calls[l].id && t.calls[l].poll == s.calls[l].poll
    && Rank(t.procs[l].phase.stage) == Rank(s.procs[l].phase.stage) + 1
  }

  lemma MoveFn(s: State, l: Pid)
    requires AtStage(s, l, Running)
    ensures Moved(s, FnReturn(l, Outcome(ZERO, None)), DoFnReturn(s, l, Outcome(ZERO, None)), l)
  {
  }

  lemma MoveFill(s: State, l: Pid)
    requires AtStage(s, l, Ran)
    ensures Moved(s, Fill(l), DoFill(s, l), l)
  {
  }

  lemma MoveWake(s: State, l: Pid)
    requires AtStage(s, l, Filled)
    ensures Moved(s, Wake(l), DoWake(s, l), l)
  {
  }

  lemma MoveStore(s: State, l: Pid)
    requires AtStage(s, l, Woken)
    ensures Moved(s, Store(l), DoStore(s, l), l)
  {
  }

  lemma MoveUnlock(s: State, l: Pid)
    requires AtStage(s, l, Stored)
    ensures Moved(s, Unlock(l), DoUnlock(s, l), l)
  {
  }

  lemma MoveRemove(s: State, l: Pid)
    requires CanRemove(s, l)
    ensures Moved(s, Remove(l), DoRemove(s, l), l)
  {
  }

  /** A leader can always advance; only its last critical section needs d.lock to be free. */
  lemma Move(s: State, l: Pid) returns (a: Action, t: State)
    requires l in s.procs && s.procs[l].phase.Leader? && l in s.calls && !s.procs[l].phase.stage.Removed?
    requires s.procs[l].phase.stage.Unlocked? ==> s.procs[l].node !in s.mutex
    ensures Moved(s, a, t, l)
  {
    match s.procs[l].phase.stage
    case Running => MoveFn(s, l); a, t := FnReturn(l, Outcome(ZERO, None)), DoFnReturn(s, l, Outcome(ZERO, None));
    case Ran => MoveFill(s, l); a, t := Fill(l), DoFill(s, l);
    case Filled => MoveWake(s, l); a, t := Wake(l), DoWake(s, l);
    case Woken => MoveStore(s, l); a, t := Store(l), DoStore(s, l);
    case Stored => MoveUnlock(s, l); a, t := Unlock(l), DoUnlock(s, l);
    case Unlocked => MoveRemove(s, l); a, t := Remove(l), DoRemove(s, l);
  }

  // ---------------------------------------------------------------- releasing a blocked call

  /** How many steps a blocked call is away from its release. */
  function Distance(s: State, c: Pid): nat {
    if !(c in s.calls && c in s.procs) || s.calls[c].fired then 0
    else if s.procs[c].phase.Leader? then 10 - Rank(s.procs[c].phase.stage)
    else if s.calls[c].poll.PollFilled? then 1
    else if s.calls[c].id in s.results then 2
    else
      var l := if s.calls[c].id in s.leaderOf then s.leaderOf[s.calls[c].id] else c;
      if l in s.procs && s.procs[l].phase.Leader? then 10 - Rank(s.procs[l].phase.stage) else 10
  }

  /** `t` follows `s` by `a`, with call `c` closer to its release and only leaders moved. */
  ghost predicate Closer(s: State, a: Action, t: State, c: Pid) {
    && Own(a) && Next(s, a) == Some(t)
    && c in t.calls && t.mutex == s.mutex && Distance(t, c) < Distance(s, c)
    && (forall q :: q in s.procs && !s.procs[q].phase.Leader? ==> q in t.procs && t.procs[q] == s.procs[q])
  }

  /** What the invariant says about a blocked call. */
  lemma Blocked(s: State, c: Pid)
    requires Inv(s) && c in s.calls && !s.calls[c].fired
    ensures c in s.procs && s.calls[c].id in s.leaderOf && s.leaderOf[s.calls[c].id] in s.procs
    ensures var l := s.leaderOf[s.calls[c].id];
            l in s.calls && (s.calls[c].id !in s.results ==>
              s.procs[l].phase.Leader? && Rank(s.procs[l].phase.stage) < 4)
    ensures s.procs[c].phase.Leader? ==> s.leaderOf[s.calls[c].id] == c && Rank(s.procs[c].phase.stage) < 3
    ensures !s.procs[c].phase.Leader? ==>
            s.procs[c].phase.Following? && !s.calls[c].poll.PollOff? && s.leaderOf[s.calls[c].id] != c
  {
    assert OkCall(s, c) && OkFlight(s, s.calls[c].id);
    assert OkProc(s, c);
  }

  lemma CloserByPoll(s: State, c: Pid) returns (a: Action, t: State)
    requires c in s.calls && c in s.procs && !s.calls[c].fired && s.procs[c].phase.Following?
    requires s.calls[c].poll.PollFilled? || (s.calls[c].poll.PollOn? && s.calls[c].id in s.results)
    ensures Closer(s, a, t, c)
  {
    if s.calls[c].poll.PollFilled? {
      a, t := PollDone(c), DoPollDone(s, c);
    } else {
      a, t := PollHit(c), DoPollHit(s, c);
    }
  }

  /** A blocked call can always be brought closer: its leader advances, or its poller finds the result
      and releases it. */
  lemma CloserToRelease(s: State, c: Pid) returns (a: Action, t: State)
    requires Inv(s) && c in s.calls && !s.calls[c].fired
    ensures Closer(s, a, t, c)
  {
    Blocked(s, c);
    if !s.procs[c].phase.Leader? && (s.calls[c].poll.PollFilled? || s.calls[c].id in s.results) {
      a, t := CloserByPoll(s, c);
    } else {
      a, t := Move(s, s.leaderOf[s.calls[c].id]);
    }
  }

  // ---------------------------------------------------------------- finishing every kind of Do

  /** A node's d.lock held across GetSetNX is always given up, and that disturbs no Do past its election. */
  lemma FreeLock(s: State, n: Node) returns (a: Action, t: State)
    requires Inv(s) && n in s.mutex
    ensures a.Elect? && Next(s, a) == Some(t) && Inv(t) && n !in t.mutex
    ensures forall q :: q in s.procs && !s.procs[q].phase.Electing? ==> q in t.procs && t.procs[q] == s.procs[q]
    ensures forall c ::
            c in s.calls && c in s.procs && !s.procs[c].phase.Electing? ==> c in t.calls && t.calls[c] == s.calls[c]
  {
    var q := s.mutex[n];
    assert OkMutex(s, n);
    var id := UnusedId(s.leaderOf.Keys);
    assert id !in s.leaderOf.Keys;
    a, t := Elect(q, id), DoElect(s, q, id);
    KeepInv(s, a);
  }

  lemma {:induction false} LeaderReturns(s: State, p: Pid)
    requires Inv(s) && p in s.procs && s.procs[p].phase.Leader?
    ensures CanReturn(s, p)
    decreases 7 - Rank(s.procs[p].phase.stage), s.procs[p].node in s.mutex
  {
    assert OkProc(s, p);
    if s.procs[p].phase.stage.Removed? {
      Now(DoPublish(s, p), p);
      StepThen(s, Publish(p), p);
    } else if s.procs[p].phase.stage.Unlocked? && s.procs[p].node in s.mutex {
      var a, t := FreeLock(s, s.procs[p].node);
      LeaderReturns(t, p);
      StepThen(s, a, p);
    } else {
      var a, t := Move(s, p);
      KeepInv(s, a);
      LeaderReturns(t, p);
      StepThen(s, a, p);
    }
  }

  lemma CollectorReturns(s: State, p: Pid)
    requires Inv(s) && p in s.procs && s.procs[p].phase.Collecting?
    ensures CanReturn(s, p)
  {
    assert OkProc(s, p);
    assert OkCall(s, p);
    Now(DoCollect(s, p), p);
    StepThen(s, Collect(p), p);
  }

  lemma {:induction false} FollowerReturns(s: State, p: Pid)
    requires Inv(s) && p in s.procs && s.procs[p].phase.Following?
    ensures CanReturn(s, p)
    decreases Distance(s, p), s.procs[p].node in s.mutex
  {
    assert OkProc(s, p);
    assert OkCall(s, p);
    if !s.calls[p].fired {
      var a, t := CloserToRelease(s, p);
      KeepInv(s, a);
      FollowerReturns(t, p);
      StepThen(s, a, p);
    } else if s.procs[p].node in s.mutex {
      var a, t := FreeLock(s, s.procs[p].node);
      FollowerReturns(t, p);
      StepThen(s, a, p);
    } else {
      KeepInv(s, FollowerRemove(p));
      CollectorReturns(DoFollowerRemove(s, p), p);
      StepThen(s, FollowerRemove(p), p);
    }
  }

  lemma {:induction false} JoinerReturns(s: State, p: Pid)
    requires Inv(s) && p in s.procs && s.procs[p].phase.Joined?
    ensures CanReturn(s, p)
    decreases Distance(s, s.procs[p].phase.call)
  {
    var c := s.procs[p].phase.call;
    assert OkLink(s, p);
    assert OkCall(s, c);
    if s.calls[c].fired {
      Now(DoJoinReturn(s, p), p);
      StepThen(s, JoinReturn(p), p);
    } else {
      var a, t := CloserToRelease(s, c);
      KeepInv(s, a);
      JoinerReturns(t, p);
      StepThen(s, a, p);
    }
  }

  /** Every Do that has started, on any node and in any reachable state, can be brought to its return by
      steps of the calls already made: no waiter is ever stuck, whatever has been lost or reordered. */
  lemma EveryDoCanReturn(s: State, p: Pid)
    requires Reachable(s) && p in s.procs
    ensures CanReturn(s, p)
  {
    ReachableInv(s);
    match s.procs[p].phase
    case Returned(_, _) => Now(s, p);
    case Leader(_, _) => LeaderReturns(s, p);
    case Following => FollowerReturns(s, p);
    case Collecting => CollectorReturns(s, p);
    case Joined(_) => JoinerReturns(s, p);
    case Electing =>
      var id := UnusedId(s.leaderOf.Keys);
      assert id !in s.leaderOf.Keys;
      var t := DoElect(s, p, id);
      KeepInv(s, Elect(p, id));
      if t.procs[p].phase.Leader? { LeaderReturns(t, p); } else { FollowerReturns(t, p); }
      StepThen(s, Elect(p, id), p);
  }
}
