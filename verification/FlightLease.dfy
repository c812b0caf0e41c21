/** The clock side of the cluster protocol, in milliseconds: when the lock outlives its leader, and results their
    polls. */
module FlightLease {
  import opened Common

  const RENEW_EVERY := 7000
  const LOCK_TTL := 24000
  const RESULT_TTL := 20000
  const POLL_EVERY := 2000

  datatype Phase = Running | Returned(since: int) | Stored(since: int, setAt: int) | Unlocked(setAt: int, delAt: int)

  /** One leader: the clock, how far it is, when its lock key expires (None: never), the watchdog's next tick. */
  datatype State = State(now: int, phase: Phase, expiry: Option<int>, nextTick: int)

  datatype Step = Elapse(d: int) | Tick | FnReturn | SetResult | Del

  /** The lock key exists. */
  predicate Held(s: State) {
    s.expiry.None? || s.now < s.expiry.value
  }

  /** `bound` is the longest the environment lets pass between fn's return and the DEL; the watchdog is
      served when its tick is due. */
  predicate Can(bound: int, s: State, a: Step) {
    match a
    case Elapse(d) =>
      && d > 0
      && (s.phase.Running? ==> s.now + d <= s.nextTick)
      && (s.phase.Returned? || s.phase.Stored? ==> s.now + d <= s.phase.since + bound)
    case Tick => s.phase.Running? && s.now == s.nextTick
    case FnReturn => s.phase.Running?
    case SetResult => s.phase.Returned?
    case Del => s.phase.Stored?
  }

  function Do(s: State, a: Step): State
    requires a.SetResult? ==> s.phase.Returned?
    requires a.Del? ==> s.phase.Stored?
  {
    match a
    case Elapse(d) => s.(now := s.now + d)
    case Tick => s.(expiry := if Held(s) then Some(s.now + LOCK_TTL) else s.expiry, nextTick := s.now + RENEW_EVERY)
    case FnReturn => s.(phase := Returned(s.now))
    case SetResult => s.(phase := Stored(s.phase.since, s.now))
    case Del => s.(phase := Unlocked(s.phase.setAt, s.now))
  }

  const ELECTED := State(0, Running, None, RENEW_EVERY)

  predicate Run(bound: int, s: State, steps: seq<Step>, t: State)
    decreases |steps|
  {
    if steps == [] then s == t else Can(bound, s, steps[0]) && Run(bound, Do(s, steps[0]), steps[1..], t)
  }

  /** In no run is the lock key gone while its leader has yet to delete it. */
  ghost predicate NeverLost(bound: int) {
    forall steps, t :: Run(bound, ELECTED, steps, t) && !t.phase.Unlocked? ==> Held(t)
  }

  ghost predicate Safe(bound: int, s: State) {
    match s.phase
    case Running => s.now <= s.nextTick && (s.expiry.None? || s.expiry.value == s.nextTick - RENEW_EVERY + LOCK_TTL)
    case Returned(since) => InTime(bound, s, since)
    case Stored(since, setAt) => since <= setAt <= s.now && InTime(bound, s, since)
    case Unlocked(setAt, delAt) => setAt <= delAt <= setAt + bound
  }

  ghost predicate InTime(bound: int, s: State, since: int) {
    && since <= s.now && (s.now <= since + bound || s.now == since)
    && (s.expiry.None? || since + LOCK_TTL - RENEW_EVERY <= s.expiry.value)
  }

  lemma {:induction false} RunsSafe(bound: int, s: State, steps: seq<Step>, t: State)
    requires 0 <= bound < LOCK_TTL - RENEW_EVERY && Safe(bound, s) && Run(bound, s, steps, t)
    ensures Safe(bound, t)
    decreases |steps|
  {
    if steps != [] {
      RunsSafe(bound, Do(s, steps[0]), steps[1..], t);
    }
  }

  /** With ticks served on time, no leader ever loses its lock before deleting it if and only if storing the
      result and deleting the lock take less than 17 s together after fn returns. */
  lemma LeaseOutlivesLeader(bound: nat)
    ensures NeverLost(bound) <==> bound < 17000
  {
    if bound < 17000 {
      forall steps, t | Run(bound, ELECTED, steps, t) && !t.phase.Unlocked?
        ensures Held(t)
      {
        RunsSafe(bound, ELECTED, steps, t);
      }
    } else {
      var s1 := Do(ELECTED, Elapse(7000));
      var s2 := Do(s1, Tick);
      var s3 := Do(s2, Elapse(7000));
      var s4 := Do(s3, FnReturn);
      var s5 := Do(s4, Elapse(17000));
      var steps := [Elapse(7000), Tick, Elapse(7000), FnReturn, Elapse(17000)];
      assert Run(bound, s5, steps[5..], s5);
      assert steps[4..][1..] == steps[5..];
      assert Run(bound, s4, steps[4..], s5);
      assert steps[3..][1..] == steps[4..];
      assert Run(bound, s3, steps[3..], s5);
      assert steps[2..][1..] == steps[3..];
      assert Run(bound, s2, steps[2..], s5);
      assert steps[1..][1..] == steps[2..];
      assert Run(bound, s1, steps[1..], s5);
      assert Run(bound, ELECTED, steps, s5);
      assert !Held(s5);
    }
  }

  /** A follower elected at time `e` polls at e + 2 s, e + 4 s, ...; poll number k meets the result. */
  predicate PollMeets(setAt: int, e: int, k: nat) {
    1 <= k && setAt <= e + k * POLL_EVERY < setAt + RESULT_TTL
  }

  ghost predicate FollowerServed(setAt: int, e: int) {
    exists k: nat :: PollMeets(setAt, e, k)
  }

  /** Every follower that can still have found the lock, down to one elected at the very DEL, has a poll that
      meets the stored result if and only if SET and DEL are less than 18 s apart. */
  lemma SomePollMeetsResult(setAt: int, delAt: int)
    requires setAt <= delAt
    ensures (forall e :: e <= delAt ==> FollowerServed(setAt, e)) <==> delAt - setAt < 18000
  {
    if delAt - setAt < 18000 {
      forall e | e <= delAt
        ensures FollowerServed(setAt, e)
      {
        var k: nat := if e + POLL_EVERY >= setAt then 1 else (setAt - e + POLL_EVERY - 1) / POLL_EVERY;
        assert PollMeets(setAt, e, k);
      }
    } else {
      assert !FollowerServed(setAt, delAt);
    }
  }

  /** A leader quick enough to keep its lock also leaves every follower a poll that meets its result. */
  lemma QuickLeaderReachesFollowers(bound: nat, steps: seq<Step>, t: State, e: int)
    requires NeverLost(bound) && Run(bound, ELECTED, steps, t) && t.phase.Unlocked? && e <= t.phase.delAt
    ensures FollowerServed(t.phase.setAt, e)
  {
    LeaseOutlivesLeader(bound);
    RunsSafe(bound, ELECTED, steps, t);
    SomePollMeetsResult(t.phase.setAt, t.phase.delAt);
  }
}
