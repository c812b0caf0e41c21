/** The syncx objects: call, SingleFlight and ResourceManager, one method per locked section, and an
    uncontended GetResource from start to end. */
module LocalFlightObjects {
  import opened Common
  import opened LocalFlight

  class CallObject {
    var out: Option<Outcome>
    var wg: nat

    ghost function Value(): Call
      reads this
    {
      Call(out, wg)
    }

    constructor ()
      ensures Value() == Call(None, 1)
    {
      out, wg := None, 1;
    }
  }

  class SingleFlight {
    var calls: map<Key, CallObject>

    /** createCall up to the unlock; when `joined`, the caller then waits on `c`. */
    method CreateCall(key: Key) returns (c: CallObject, joined: bool)
      modifies this
      ensures joined <==> key in old(calls)
      ensures joined ==> c == old(calls)[key] && calls == old(calls)
      ensures !joined ==> fresh(c) && c.Value() == Call(None, 1) && calls == old(calls)[key := c]
    {
      if key in calls {
        c, joined := calls[key], true;
        return;
      }
      c := new CallObject();
      joined := false;
      calls := calls[key := c];
    }

    /** makeCall after fn returned `out`: write the result, unregister, release the joiners, in this order. */
    method FinishCall(c: CallObject, key: Key, out: Outcome)
      requires c.wg > 0
      modifies this, c
      ensures c.Value() == Call(Some(out), old(c.wg) - 1)
      ensures calls == old(calls) - {key}
    {
      c.out := Some(out);
      calls := calls - {key};
      c.wg := c.wg - 1;
    }
  }

  class ResourceManager {
    var resources: map<Key, Resource>
    const flight: SingleFlight

    constructor (flight: SingleFlight)
      ensures resources == map[] && this.flight == flight
    {
      resources := map[];
      this.flight := flight;
    }

    /** The closure GetResource hands to the flight; `create` is what create() returns if it is called. */
    method Produce(key: Key, create: Outcome) returns (out: Outcome)
      modifies this`resources
      ensures key in old(resources) ==> out == Ok(old(resources)[key]) && resources == old(resources)
      ensures key !in old(resources) ==> out == create
      ensures key !in old(resources) ==>
              resources == (if create.Ok? then old(resources)[key := create.res] else old(resources))
    {
      if key in resources {
        return Ok(resources[key]);
      }
      if create.Ok? {
        resources := resources[key := create.res];
      }
      out := create;
    }

    method GetResource(key: Key, create: Outcome) returns (out: Outcome)
      requires key !in flight.calls
      modifies this`resources, flight
      ensures flight.calls == old(flight.calls)
      ensures out == if key in old(resources) then Ok(old(resources)[key]) else create
      ensures resources == if key !in old(resources) && create.Ok? then old(resources)[key := create.res]
              else old(resources)
    {
      var c, joined := flight.CreateCall(key);
      out := Produce(key, create);
      flight.FinishCall(c, key, out);
    }

    method Inject(key: Key, resource: Resource)
      modifies this`resources
      ensures resources == old(resources)[key := resource]
    {
      resources := resources[key := resource];
    }
  }
}
