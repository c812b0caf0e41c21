/** What the cluster protocol guarantees in every run of any number of nodes, keys and calls. */
module FlightTheorems {
  import opened Common
  import opened CacheItems
  import opened DistributedFlight
  import opened FlightInvariant

  /** A state some run of a fresh cluster ends in. */
  ghost predicate Reachable(s: State) {
    exists nodes, acts :: Exec(Init(nodes), acts) == Some(s)
  }

  lemma ReachableInv(s: State)
    requires Reachable(s)
    ensures Inv(s)
  {
    var nodes, acts :| Exec(Init(nodes), acts) == Some(s);
    assert Inv(Init(nodes));
    RunsKeepInv(Init(nodes), acts);
  }

  lemma {:induction false} ExecSnoc(s: State, acts: seq<Action>, a: Action)
    requires Exec(s, acts).Some?
    ensures Exec(s, acts + [a]) == Next(Exec(s, acts).value, a)
    decreases |acts|
  {
    var all := acts + [a];
    if acts == [] {
      assert all[1..] == [];
    } else {
      assert all[1..] == acts[1..] + [a];
      ExecSnoc(Next(s, acts[0]).value, acts[1..], a);
    }
  }

  lemma ReachableStep(s: State, a: Action, t: State)
    requires Reachable(s) && Next(s, a) == Some(t)
    ensures Reachable(t)
  {
    var nodes, acts :| Exec(Init(nodes), acts) == Some(s);
    ExecSnoc(Init(nodes), acts, a);
  }

  /** A Do that won GetSetNX and has not yet deleted the lock. */
  predicate Holder(s: State, p: Pid) {
    p in s.procs && Critical(s.procs[p].phase)
  }

  /** Cluster mutual exclusion: at most one leader per key, and the lock key exists exactly while one is
      in charge and then holds that leader's id. */
  lemma MutualExclusion(s: State, p: Pid, q: Pid)
    requires Reachable(s) && Holder(s, p)
    ensures p in s.calls && s.procs[p].key in s.locks && s.locks[s.procs[p].key] == s.calls[p].id
    ensures Holder(s, q) && s.procs[q].key == s.procs[p].key ==> q == p
  {
    ReachableInv(s);
    assert OkProc(s, p);
    if Holder(s, q) && s.procs[q].key == s.procs[p].key {
      assert OkProc(s, q);
    }
  }

  lemma LockHasHolder(s: State, k: Key)
    requires Reachable(s)
    ensures k in s.locks <==> exists p :: Holder(s, p) && s.procs[p].key == k
  {
    ReachableInv(s);
    if k in s.locks {
      assert OkLock(s, k);
      assert Holder(s, s.leaderOf[s.locks[k]]);
    }
    forall p | Holder(s, p) && s.procs[p].key == k
      ensures k in s.locks
    {
      assert OkProc(s, p);
    }
  }

  /** Both blind writes to the lock key, the final DEL and the watchdog's EXPIRE, only ever meet the
      leader's own lock. */
  lemma OnlyOwnLockTouched(s: State, p: Pid)
    requires Reachable(s)
    ensures Next(s, Unlock(p)).Some? || Next(s, Renew(p)).Some? ==>
              p in s.calls && s.procs[p].key in s.locks && s.locks[s.procs[p].key] == s.calls[p].id
    ensures forall r :: r in s.renewals ==> r.0 == r.1
  {
    ReachableInv(s);
    if Next(s, Unlock(p)).Some? || Next(s, Renew(p)).Some? {
      assert OkProc(s, p);
    }
  }

  /** No orphaned waiter: a call that is still blocked belongs to a flight whose leader has not yet stored
      its result or whose result is in Redis, and a follower's poller is still alive to find it. */
  lemma NoOrphan(s: State, c: Pid)
    requires Reachable(s) && c in s.calls && s.calls[c].wg > 0
    ensures s.calls[c].id in s.leaderOf
    ensures var l := s.leaderOf[s.calls[c].id];
            s.calls[c].id in s.results || (l in s.procs && s.procs[l].phase.Leader? && Rank(s.procs[l].phase.stage) < 4)
    ensures c in s.procs && (s.procs[c].phase.Following? ==> !s.calls[c].poll.PollOff?)
  {
    ReachableInv(s);
    assert OkCall(s, c) && OkFlight(s, s.calls[c].id);
  }

  /** The result is in Redis before the lock goes away: with no lock on a key, every flight ever elected
      for that key has stored its result. */
  lemma StoredBeforeUnlocked(s: State, id: Id)
    requires Reachable(s) && id in s.leaderOf
    ensures s.leaderOf[id] in s.procs
    ensures s.procs[s.leaderOf[id]].key !in s.locks || s.locks[s.procs[s.leaderOf[id]].key] != id ==> id in s.results
  {
    ReachableInv(s);
    assert OkFlight(s, id);
    assert OkProc(s, s.leaderOf[id]);
  }

  /** Wake-up discipline: a call's wait group goes from 1 to 0 once and its channel closes once, together,
      and a released call always has an item to read. */
  lemma SingleWakeUp(s: State, c: Pid)
    requires Reachable(s) && c in s.calls
    ensures s.calls[c].wg + s.calls[c].closes == 1
    ensures s.calls[c].wg == 0 ==> s.calls[c].item.Some?
  {
    ReachableInv(s);
    assert OkCall(s, c);
  }

  /** Call ownership: a callMap entry is never overwritten and only the Do that inserted it removes it. */
  lemma OnlyInserterRemoves(s: State, a: Action, e: (Node, Key))
    requires Reachable(s) && Next(s, a).Some? && e in s.callMap
    ensures e in Next(s, a).value.callMap ==> Next(s, a).value.callMap[e] == s.callMap[e]
    ensures e !in Next(s, a).value.callMap ==> a == Remove(s.callMap[e]) || a == FollowerRemove(s.callMap[e])
  {
    ReachableInv(s);
    assert OkEntry(s, e);
    if a.Elect? || a.Remove? || a.FollowerRemove? {
      assert OkProc(s, a.pid);
    }
  }

  /** `p` is past its own fn, or has returned, with this outcome in hand. */
  predicate HasOutcome(s: State, p: Pid, out: Outcome) {
    && p in s.procs
    && ((s.procs[p].phase.Leader? && !s.procs[p].phase.stage.Running?) || s.procs[p].phase.Returned?)
    && s.procs[p].phase.out == out
  }

  /** One step changes no produced result, no leader's outcome and no id's owner. */
  lemma RunFixed(s: State, a: Action, id: Id)
    requires Inv(s) && Next(s, a).Some? && id in s.runs
    ensures var t := Next(s, a).value; id in t.runs && t.runs[id] == s.runs[id]
  {
    if a.FnReturn? {
      Around(s, a.pid);
    }
  }

  lemma OutcomeKept(s: State, a: Action, p: Pid, out: Outcome)
    ensures Next(s, a).Some? && HasOutcome(s, p, out) ==> HasOutcome(Next(s, a).value, p, out)
  {
    hide Done, NewCall, FetchItem, NewCacheItem, Result;
  }

  lemma LeaderKept(s: State, a: Action, id: Id)
    ensures Next(s, a).Some? && id in s.leaderOf ==>
            id in Next(s, a).value.leaderOf && Next(s, a).value.leaderOf[id] == s.leaderOf[id]
  {
  }

  /** What a flight's fn produced, and what its leader will return, are fixed by the one return of fn. */
  lemma {:induction false} FlightFixed(s: State, acts: seq<Action>, id: Id, p: Pid, out: Outcome)
    requires Inv(s) && Exec(s, acts).Some? && id in s.runs && id in s.leaderOf && HasOutcome(s, p, out)
    ensures var t := Exec(s, acts).value;
            && id in t.runs && t.runs[id] == s.runs[id]
            && id in t.leaderOf && t.leaderOf[id] == s.leaderOf[id]
            && HasOutcome(t, p, out)
    decreases |acts|
  {
    if acts != [] {
      RunFixed(s, acts[0], id);
      OutcomeKept(s, acts[0], p, out);
      LeaderKept(s, acts[0], id);
      KeepInv(s, acts[0]);
      FlightFixed(Next(s, acts[0]).value, acts[1..], id, p, out);
    }
  }

  /** Result agreement: once fn of leader `p` returns `out`, then in every continuation every Do served
      through a call of that flight hands back `out` itself if it is the leader, and otherwise either exactly
      the unpacked `newCacheItem` of `out`, which is its data with its business error or its message, or the
      transport error; never another flight's value. */
  lemma Agreement(s: State, p: Pid, out: Outcome, acts: seq<Action>, q: Pid)
    requires Reachable(s) && AtStage(s, p, Running)
    requires Exec(DoFnReturn(s, p, out), acts).Some?
    ensures s.calls[p].id !in s.runs && s.calls[p].id in s.leaderOf && s.leaderOf[s.calls[p].id] == p
    ensures var t := Exec(DoFnReturn(s, p, out), acts).value;
            q in t.procs && t.procs[q].phase.Returned? ==>
              var via, got := t.procs[q].phase.via, t.procs[q].phase.out;
              && via in t.calls && via in t.procs && t.procs[q].key == t.procs[via].key
              && (t.calls[via].id == s.calls[p].id ==>
                   if q == p then got == out
                   else
                     || (got == Result(NewCacheItem(out)) && Delivered(out.data, out.err, got))
                     || got == Outcome(ZERO, Some(Plain("singleFlight get res by redis get error redis: nil"))))
  {
    ReachableInv(s);
    Around(s, p);
    KeepInv(s, FnReturn(p, out));
    var m := DoFnReturn(s, p, out);
    RunsKeepInv(m, acts);
    var t := Exec(m, acts).value;
    FlightFixed(m, acts, s.calls[p].id, p, out);
    if q in t.procs && t.procs[q].phase.Returned? {
      assert OkLink(t, q);
      assert OkCall(t, t.procs[q].phase.via) && OkFlight(t, t.calls[t.procs[q].phase.via].id);
      OutcomeDelivered(out, t.procs[q].phase.out);
    }
  }
}
