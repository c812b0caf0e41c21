/** The objects behind the protocol: the call object, the Redis commands used and the node's
    DistributedSingleFlight. Every method changes its object exactly by the functions the transition
    system of DistributedFlight is made of. */
module FlightObjects {
  import opened Common
  import opened CacheItems
  import opened DistributedFlight

  class CallObject {
    const processId: Id
    var item: Option<CacheItem>
    var wg: nat
    var fired: bool
    var closes: nat
    var poll: Poller

    ghost function Value(): Call
      reads this
    {
      Call(processId, item, wg, fired, closes, poll)
    }

    constructor (id: Id, follower: bool)
      ensures Value() == NewCall(id, follower)
    {
      processId, item, wg, fired, closes := id, None, 1, false, 0;
      poll := if follower then PollOn else PollOff;
    }

    /** `done`: sync.Once around the wait group and the channel. Neither may be released twice. */
    method Release()
      requires !fired ==> wg > 0
      modifies this`wg, this`fired, this`closes
      ensures Value() == Done(old(Value()))
      ensures wg == (if old(fired) then old(wg) else old(wg) - 1)
    {
      if !fired {
        fired := true;
        wg := wg - 1;
        closes := closes + 1;
      }
    }

    method Put(i: CacheItem)
      modifies this`item
      ensures Value() == old(Value()).(item := Some(i))
    {
      item := Some(i);
    }
  }

  class Redis {
    var locks: map<Key, Id>
    var results: map<Id, CacheItem>

    /** The Lua script of GetSetNX. */
    method GetOrSet(key: Key, id: Id) returns (val: Id, isSet: bool)
      modifies this`locks
      ensures (locks, val, isSet) == GetSetNX(old(locks), key, id)
      ensures key in locks && locks[key] == val && (isSet <==> key !in old(locks)) && (isSet ==> val == id)
    {
      if key in locks {
        val, isSet := locks[key], false;
      } else {
        locks := locks[key := id];
        val, isSet := id, true;
      }
    }

    method Get(id: Id) returns (i: Option<CacheItem>)
      ensures i == if id in results then Some(results[id]) else None
    {
      i := if id in results then Some(results[id]) else None;
    }

    method Set(id: Id, i: CacheItem)
      modifies this`results
      ensures results == old(results)[id := i]
    {
      results := results[id := i];
    }

    method Del(key: Key)
      modifies this`locks
      ensures locks == old(locks) - {key}
    {
      locks := locks - {key};
    }
  }

  /** One node's flight; callMap is guarded by d.lock, and each method below is one locked section or
      the part of Do or complete between two of them. */
  class DistributedSingleFlight {
    var callMap: map<Key, CallObject>

    /** Lines 173-184 of Do: elect under d.lock, then insert the new call. */
    method Elect(redis: Redis, key: Key, id: Id) returns (c: CallObject, isSet: bool)
      requires key !in callMap
      modifies this, redis`locks
      ensures fresh(c) && callMap == old(callMap)[key := c]
      ensures (redis.locks, c.processId, isSet) == GetSetNX(old(redis.locks), key, id)
      ensures c.Value() == NewCall(c.processId, !isSet)
    {
      var val;
      val, isSet := redis.GetOrSet(key, id);
      c := new CallObject(val, !isSet);
      callMap := callMap[key := c];
    }

    /** Lines 260-276 of Do: what the leader does once fn has returned `out` and the watchdog is gone. */
    method FinishLeading(redis: Redis, key: Key, c: CallObject, out: Outcome)
      requires !c.fired ==> c.wg > 0
      modifies this, redis, c`item, c`wg, c`fired, c`closes
      ensures c.Value() == Done(old(c.Value()).(item := Some(NewCacheItem(out))))
      ensures redis.results == old(redis.results)[c.processId := NewCacheItem(out)]
      ensures redis.locks == old(redis.locks) - {key}
      ensures callMap == old(callMap) - {key}
    {
      var cacheObj := NewCacheItem(out);
      c.Put(cacheObj);
      c.Release();
      redis.Set(c.processId, cacheObj);
      redis.Del(key);
      callMap := callMap - {key};
    }

    /** One tick of a follower's poller; true once it has found the result and released the call. */
    method PollTick(redis: Redis, c: CallObject) returns (stop: bool)
      requires !c.fired ==> c.wg > 0
      modifies c
      ensures stop <==> c.processId in redis.results
      ensures stop ==> c.Value() == Done(old(c.Value()).(item := Some(redis.results[c.processId]))).(poll := PollOff)
      ensures !stop ==> c.Value() == old(c.Value())
    {
      var found := redis.Get(c.processId);
      stop := found.Some?;
      if stop {
        c.Put(found.value);
        c.Release();
        c.poll := PollOff;
      }
    }

    /** `complete`: nothing if the key has no call here, otherwise fetch, fill and release it. */
    method Complete(redis: Redis, key: Key)
      requires key in callMap ==> callMap[key].fired || callMap[key].wg > 0
      modifies if key in callMap then {callMap[key]} else {}
      ensures callMap == old(callMap)
      ensures key in callMap ==>
                var c := callMap[key];
                c.Value() == Done(old(c.Value()).(item := Some(FetchItem(redis.results, c.processId))))
    {
      if key !in callMap {
        return;
      }
      var c := callMap[key];
      var found := redis.Get(c.processId);
      c.Put(if found.Some? then found.value else TRANSPORT_ERROR);
      c.Release();
    }

    /** An uncontended Do from start to end: it returns fn's own outcome, leaves the result in Redis under its
        id and neither a lock nor a callMap entry behind. */
    method DoAlone(redis: Redis, key: Key, id: Id, out: Outcome) returns (res: Outcome)
      requires key !in callMap && key !in redis.locks
      modifies this, redis
      ensures res == out
      ensures callMap == old(callMap) && redis.locks == old(redis.locks)
      ensures redis.results == old(redis.results)[id := NewCacheItem(out)]
    {
      var c, isSet := Elect(redis, key, id);
      FinishLeading(redis, key, c, out);
      res := out;
    }
  }

  /** The object-level tail of a leader is the protocol's Fill, Wake, Store, Unlock, Remove in a row. */
  lemma TailIsFiveSteps(s: State, p: Pid)
    requires AtStage(s, p, Ran) && MutexFree(s, p)
    ensures var out := s.procs[p].phase.out;
            var s1 := DoFill(s, p);
            AtStage(s1, p, Filled) && var s2 := DoWake(s1, p);
            AtStage(s2, p, Woken) && var s3 := DoStore(s2, p);
            AtStage(s3, p, Stored) && var s4 := DoUnlock(s3, p);
            CanRemove(s4, p) && var t := DoRemove(s4, p);
            && t.calls == s.calls[p := Done(s.calls[p].(item := Some(NewCacheItem(out))))]
            && t.results == s.results[s.calls[p].id := NewCacheItem(out)]
            && t.locks == s.locks - {s.procs[p].key}
            && t.callMap == s.callMap - {Entry(s, p)}
  {
  }
}
