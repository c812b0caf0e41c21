/** The cluster protocol of redisx/singleFlight.go as a transition system: one action per critical
    section of `d.lock`, per Redis command, and per hand-over between goroutines.

    Any number of nodes, keys and `Do` calls. Ids are fresh, `fn` returns normally, Redis answers,
    and keys do not expire here (FlightLease says when that is so). */
module DistributedFlight {
  import opened Common
  import opened CacheItems

  type Node = nat
  type Key = string
  type Id = nat
  /** A `Do` invocation; it also names the call object that invocation creates. */
  type Pid = nat

  datatype Poller = PollOff | PollOn | PollFilled

  /** call[T]: its processId, cacheItem, wait group count, `one`, how often doneChan was closed,
      and the polling goroutine started for a follower. */
  datatype Call = Call(id: Id, item: Option<CacheItem>, wg: nat, fired: bool, closes: nat, poll: Poller)

  /** How far a leader is: fn running under the watchdog, fn returned, cacheItem written, done() called,
      result SET, lock DELeted, callMap entry removed. */
  datatype Stage = Running | Ran | Filled | Woken | Stored | Unlocked | Removed

  /** Where a `Do` stands. `Electing` holds d.lock after missing callMap; `Joined` waits on a call
      another `Do` of its node created; `Collecting` is a follower that deleted its callMap entry.
      A leader carries its result variables `res, err`, zero until fn returns. */
  datatype Phase =
    | Electing
    | Joined(call: Pid)
    | Leader(stage: Stage, out: Outcome)
    | Following
    | Collecting
    | Returned(via: Pid, out: Outcome)

  datatype Proc = Proc(node: Node, key: Key, phase: Phase)

  /** The node's subscription goroutine: idle, past the lookup in `complete`, or before its deferred done(). */
  datatype Handler = Idle | Got(call: Pid) | Fetched(call: Pid)

  datatype State = State(
    locks: map<Key, Id>,                // Redis: lock keys
    results: map<Id, CacheItem>,        // Redis: singleFlight:res:<id>
    callMap: map<(Node, Key), Pid>,     // every node's d.callMap
    mutex: map<Node, Pid>,              // who holds d.lock across steps
    inbox: map<Node, seq<Key>>,         // published keys not yet handled, per subscribed node
    handler: map<Node, Handler>,
    calls: map<Pid, Call>,
    procs: map<Pid, Proc>,
    leaderOf: map<Id, Pid>,             // history: who won the election with this id
    runs: map<Id, CacheItem>,           // history: what fn of flight id produced
    renewals: set<(Id, Id)>             // history: (renewing leader's id, id in the lock it renewed)
  )

  /** The transport error a subscriber records when the result key is missing. */
  const NOT_FOUND: string := "singleFlight get res by redis get error redis: nil"

  /** The zero value of Data. */
  const ZERO: Data

  const TRANSPORT_ERROR := CacheItem(ZERO, None, NOT_FOUND)

  // ---------------------------------------------------------------- shared pieces, also met by FlightObjects

  /** `call.done`: once only, release the waiters and close the channel. */
  function Done(c: Call): Call {
    if c.fired then c
    else c.(fired := true, wg := if c.wg > 0 then c.wg - 1 else 0, closes := c.closes + 1)
  }

  function NewCall(id: Id, follower: bool): Call {
    Call(id, None, 1, false, 0, if follower then PollOn else PollOff)
  }

  /** The getSetNX script: the new lock table, the value now stored, and whether this caller stored it. */
  function GetSetNX(locks: map<Key, Id>, key: Key, id: Id): (map<Key, Id>, Id, bool) {
    if key in locks then (locks, locks[key], false) else (locks[key := id], id, true)
  }

  /** What `complete` puts in the call: the stored result, or an empty item with the transport error. */
  function FetchItem(results: map<Id, CacheItem>, id: Id): CacheItem {
    if id in results then results[id] else TRANSPORT_ERROR
  }

  // ---------------------------------------------------------------- steps

  predicate AtStage(s: State, p: Pid, st: Stage) {
    p in s.procs && s.procs[p].phase.Leader? && s.procs[p].phase.stage == st && p in s.calls
  }

  predicate MutexFree(s: State, p: Pid) {
    p in s.procs && s.procs[p].node !in s.mutex
  }

  predicate CallDone(s: State, c: Pid) {
    c in s.calls && s.calls[c].wg == 0 && s.calls[c].item.Some?
  }

  function Phased(s: State, p: Pid, ph: Phase): State
    requires p in s.procs
  {
    s.(procs := s.procs[p := s.procs[p].(phase := ph)])
  }

  function Staged(s: State, p: Pid, st: Stage): State
    requires p in s.procs && s.procs[p].phase.Leader?
  {
    Phased(s, p, Leader(st, s.procs[p].phase.out))
  }

  function Entry(s: State, p: Pid): (Node, Key)
    requires p in s.procs
  {
    (s.procs[p].node, s.procs[p].key)
  }

  /** Lock d.lock and look the key up: on a hit unlock and join, on a miss keep the lock. */
  predicate CanStart(s: State, p: Pid, n: Node) {
    p !in s.procs && n !in s.mutex && n in s.inbox
  }
  function DoStart(s: State, p: Pid, n: Node, k: Key): State {
    var phase := if (n, k) in s.callMap then Joined(s.callMap[(n, k)]) else Electing;
    s.(procs := s.procs[p := Proc(n, k, phase)], mutex := if phase.Joined? then s.mutex else s.mutex[n := p])
  }

  /** Run GetSetNX with a fresh id, insert the new call, unlock; a follower starts its poller. */
  predicate CanElect(s: State, p: Pid, id: Id) {
    p in s.procs && s.procs[p].phase.Electing? && id !in s.leaderOf
  }
  function DoElect(s: State, p: Pid, id: Id): State
    requires CanElect(s, p, id)
  {
    var me := s.procs[p];
    var r := GetSetNX(s.locks, me.key, id);
    s.(locks := r.0,
       leaderOf := if r.2 then s.leaderOf[id := p] else s.leaderOf,
       calls := s.calls[p := NewCall(r.1, !r.2)],
       callMap := s.callMap[(me.node, me.key) := p],
       mutex := s.mutex - {me.node},
       procs := s.procs[p := me.(phase := if r.2 then Leader(Running, Outcome(ZERO, None)) else Following)])
  }

  /** The watchdog's EXPIRE, possible until its exit has been awaited. */
  predicate CanRenew(s: State, p: Pid) {
    AtStage(s, p, Running) || AtStage(s, p, Ran)
  }
  function DoRenew(s: State, p: Pid): State
    requires CanRenew(s, p)
  {
    var k := s.procs[p].key;
    s.(renewals := if k in s.locks then s.renewals + {(s.calls[p].id, s.locks[k])} else s.renewals)
  }

  function DoFnReturn(s: State, p: Pid, out: Outcome): State
    requires AtStage(s, p, Running)
  {
    Phased(s.(runs := s.runs[s.calls[p].id := NewCacheItem(out)]), p, Leader(Ran, out))
  }

  function DoFill(s: State, p: Pid): State
    requires AtStage(s, p, Ran)
  {
    Staged(s.(calls := s.calls[p := s.calls[p].(item := Some(NewCacheItem(s.procs[p].phase.out)))]), p, Filled)
  }

  function DoWake(s: State, p: Pid): State
    requires AtStage(s, p, Filled)
  {
    Staged(s.(calls := s.calls[p := Done(s.calls[p])]), p, Woken)
  }

  function DoStore(s: State, p: Pid): State
    requires AtStage(s, p, Woken)
  {
    Staged(s.(results := s.results[s.calls[p].id := NewCacheItem(s.procs[p].phase.out)]), p, Stored)
  }

  /** The unconditional DEL of the lock key. */
  function DoUnlock(s: State, p: Pid): State
    requires AtStage(s, p, Stored)
  {
    Staged(s.(locks := s.locks - {s.procs[p].key}), p, Unlocked)
  }

  predicate CanRemove(s: State, p: Pid) {
    AtStage(s, p, Unlocked) && MutexFree(s, p)
  }
  function DoRemove(s: State, p: Pid): State
    requires CanRemove(s, p)
  {
    Staged(s.(callMap := s.callMap - {Entry(s, p)}), p, Removed)
  }

  function DoPublish(s: State, p: Pid): State
    requires AtStage(s, p, Removed)
  {
    Phased(s.(inbox := map n | n in s.inbox :: s.inbox[n] + [s.procs[p].key]), p, Returned(p, s.procs[p].phase.out))
  }

  predicate CanJoinReturn(s: State, p: Pid) {
    p in s.procs && s.procs[p].phase.Joined? && CallDone(s, s.procs[p].phase.call)
  }
  function DoJoinReturn(s: State, p: Pid): State
    requires CanJoinReturn(s, p)
  {
    var c := s.procs[p].phase.call;
    Phased(s, p, Returned(c, Result(s.calls[c].item.value)))
  }

  predicate CanFollowerRemove(s: State, p: Pid) {
    p in s.procs && s.procs[p].phase.Following? && CallDone(s, p) && MutexFree(s, p)
  }
  function DoFollowerRemove(s: State, p: Pid): State
    requires CanFollowerRemove(s, p)
  {
    Phased(s.(callMap := s.callMap - {Entry(s, p)}), p, Collecting)
  }

  predicate CanCollect(s: State, p: Pid) {
    p in s.procs && s.procs[p].phase.Collecting? && CallDone(s, p)
  }
  function DoCollect(s: State, p: Pid): State
    requires CanCollect(s, p)
  {
    Phased(s, p, Returned(p, Result(s.calls[p].item.value)))
  }

  /** The poller: a tick that finds the result, its done(), or its exit on the closed channel.
      A tick that finds nothing changes nothing. */
  predicate CanPollHit(s: State, c: Pid) {
    c in s.calls && s.calls[c].poll.PollOn? && s.calls[c].id in s.results
  }
  function DoPollHit(s: State, c: Pid): State
    requires CanPollHit(s, c)
  {
    s.(calls := s.calls[c := s.calls[c].(item := Some(s.results[s.calls[c].id]), poll := PollFilled)])
  }

  predicate CanPollDone(s: State, c: Pid) {
    c in s.calls && s.calls[c].poll.PollFilled?
  }
  function DoPollDone(s: State, c: Pid): State
    requires CanPollDone(s, c)
  {
    s.(calls := s.calls[c := Done(s.calls[c]).(poll := PollOff)])
  }

  predicate CanPollExit(s: State, c: Pid) {
    c in s.calls && s.calls[c].poll.PollOn? && s.calls[c].closes > 0
  }
  function DoPollExit(s: State, c: Pid): State
    requires CanPollExit(s, c)
  {
    s.(calls := s.calls[c := s.calls[c].(poll := PollOff)])
  }

  /** `complete`: take the next published key and look it up under d.lock. */
  predicate CanDeliver(s: State, n: Node) {
    n in s.inbox && s.inbox[n] != [] && n in s.handler && s.handler[n].Idle? && n !in s.mutex
  }
  function DoDeliver(s: State, n: Node): State
    requires CanDeliver(s, n)
  {
    var e := (n, s.inbox[n][0]);
    s.(inbox := s.inbox[n := s.inbox[n][1..]],
       handler := s.handler[n := if e in s.callMap then Got(s.callMap[e]) else Idle])
  }

  /** `complete`: GET the result key and fill the call with whatever came back. */
  predicate CanFetch(s: State, n: Node) {
    n in s.handler && s.handler[n].Got? && s.handler[n].call in s.calls
  }
  function DoFetch(s: State, n: Node): State
    requires CanFetch(s, n)
  {
    var c := s.handler[n].call;
    s.(calls := s.calls[c := s.calls[c].(item := Some(FetchItem(s.results, s.calls[c].id)))],
       handler := s.handler[n := Fetched(c)])
  }

  predicate CanHandlerDone(s: State, n: Node) {
    n in s.handler && s.handler[n].Fetched? && s.handler[n].call in s.calls
  }
  function DoHandlerDone(s: State, n: Node): State
    requires CanHandlerDone(s, n)
  {
    var c := s.handler[n].call;
    s.(calls := s.calls[c := Done(s.calls[c])], handler := s.handler[n := Idle])
  }

  /** Publish is fire and forget: a message may never arrive. */
  predicate CanLose(s: State, n: Node) {
    n in s.inbox && s.inbox[n] != []
  }
  function DoLose(s: State, n: Node): State
    requires CanLose(s, n)
  {
    s.(inbox := s.inbox[n := s.inbox[n][1..]])
  }

  // ---------------------------------------------------------------- runs

  datatype Action =
    | Start(pid: Pid, node: Node, key: Key)
    | Elect(pid: Pid, id: Id)
    | Renew(pid: Pid)
    | FnReturn(pid: Pid, out: Outcome)
    | Fill(pid: Pid)
    | Wake(pid: Pid)
    | Store(pid: Pid)
    | Unlock(pid: Pid)
    | Remove(pid: Pid)
    | Publish(pid: Pid)
    | JoinReturn(pid: Pid)
    | FollowerRemove(pid: Pid)
    | Collect(pid: Pid)
    | PollHit(pid: Pid)
    | PollDone(pid: Pid)
    | PollExit(pid: Pid)
    | Deliver(node: Node)
    | Fetch(node: Node)
    | HandlerDone(node: Node)
    | Lose(node: Node)

  /** The state after an action, if the action is possible. */
  function Next(s: State, a: Action): Option<State> {
    match a
    case Start(p, n, k) => if CanStart(s, p, n) then Some(DoStart(s, p, n, k)) else None
    case Elect(p, id) => if CanElect(s, p, id) then Some(DoElect(s, p, id)) else None
    case Renew(p) => if CanRenew(s, p) then Some(DoRenew(s, p)) else None
    case FnReturn(p, out) => if AtStage(s, p, Running) then Some(DoFnReturn(s, p, out)) else None
    case Fill(p) => if AtStage(s, p, Ran) then Some(DoFill(s, p)) else None
    case Wake(p) => if AtStage(s, p, Filled) then Some(DoWake(s, p)) else None
    case Store(p) => if AtStage(s, p, Woken) then Some(DoStore(s, p)) else None
    case Unlock(p) => if AtStage(s, p, Stored) then Some(DoUnlock(s, p)) else None
    case Remove(p) => if CanRemove(s, p) then Some(DoRemove(s, p)) else None
    case Publish(p) => if AtStage(s, p, Removed) then Some(DoPublish(s, p)) else None
    case JoinReturn(p) => if CanJoinReturn(s, p) then Some(DoJoinReturn(s, p)) else None
    case FollowerRemove(p) => if CanFollowerRemove(s, p) then Some(DoFollowerRemove(s, p)) else None
    case Collect(p) => if CanCollect(s, p) then Some(DoCollect(s, p)) else None
    case PollHit(c) => if CanPollHit(s, c) then Some(DoPollHit(s, c)) else None
    case PollDone(c) => if CanPollDone(s, c) then Some(DoPollDone(s, c)) else None
    case PollExit(c) => if CanPollExit(s, c) then Some(DoPollExit(s, c)) else None
    case Deliver(n) => if CanDeliver(s, n) then Some(DoDeliver(s, n)) else None
    case Fetch(n) => if CanFetch(s, n) then Some(DoFetch(s, n)) else None
    case HandlerDone(n) => if CanHandlerDone(s, n) then Some(DoHandlerDone(s, n)) else None
    case Lose(n) => if CanLose(s, n) then Some(DoLose(s, n)) else None
  }

  /** A cluster of subscribed nodes before any call. */
  function Init(nodes: set<Node>): State {
    State(map[], map[], map[], map[], map n | n in nodes :: [], map n | n in nodes :: Idle,
          map[], map[], map[], map[], {})
  }

  /** The state after a whole run, if every action of it is possible in turn. */
  function Exec(s: State, acts: seq<Action>): Option<State>
    decreases |acts|
  {
    if acts == [] then Some(s)
    else
      match Next(s, acts[0])
      case None => None
      case Some(t) => Exec(t, acts[1..])
  }
}
