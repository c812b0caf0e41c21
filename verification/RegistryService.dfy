/** discover.Service: the write-locked sections of its methods, over slices shared with whoever read a
    header earlier. Each is proved to be one section of RegistryTables. */
module RegistryService {
  import opened RegistryTables
  import opened Slices

  class Service {
    const sNameToSAddr: ListTable
    const sNameToDAddr: ListTable
    var sAddrToSNames: map<Addr, seq<Name>>
    var addrStore: set<Addr>

    ghost predicate Valid()
      reads this, sNameToSAddr, sNameToDAddr, sNameToSAddr.arrays, sNameToDAddr.arrays
    {
      && sNameToSAddr != sNameToDAddr
      && sNameToSAddr.Valid() && sNameToDAddr.Valid()
      && sNameToSAddr.arrays !! sNameToDAddr.arrays
    }

    ghost function View(): Registry
      reads this, sNameToSAddr, sNameToDAddr
    {
      Registry(sNameToSAddr.contents, sAddrToSNames, sNameToDAddr.contents, addrStore)
    }

    constructor ()
      ensures Valid() && View() == EMPTY && fresh(sNameToSAddr) && fresh(sNameToDAddr)
    {
      sNameToSAddr := new ListTable();
      sNameToDAddr := new ListTable();
      sAddrToSNames, addrStore := map[], {};
    }

    /** Lines 115-138. */
    method Register(a: Addr, services: seq<Name>)
      requires Valid()
      modifies this, sNameToSAddr, sNameToSAddr.arrays
      ensures Valid() && fresh(sNameToSAddr.arrays - old(sNameToSAddr.arrays))
      ensures View() == Registered(old(View()), a, services)
    {
      addrStore := addrStore + {a};
      sNameToSAddr.InsertAll(services, a);
      sAddrToSNames := sAddrToSNames[a := services];
    }

    /** Lines 183-200. */
    method Subscribe(n: Name, a: Addr)
      requires Valid()
      modifies sNameToDAddr, sNameToDAddr.arrays
      ensures Valid() && fresh(sNameToDAddr.arrays - old(sNameToDAddr.arrays))
      ensures View() == Subscribed(old(View()), n, a)
    {
      sNameToDAddr.Insert(n, a);
    }

    /** removeSubscriber. */
    method RemoveSubscriber(n: Name, a: Addr)
      requires Valid()
      modifies sNameToDAddr, sNameToDAddr.arrays
      ensures Valid() && sNameToDAddr.arrays == old(sNameToDAddr.arrays)
      ensures View() == Unsubscribed(old(View()), n, a)
    {
      sNameToDAddr.Remove(n, a);
    }

    /** Lines 365-396 of handleUnhealthyService. */
    method Evict(a: Addr)
      requires Valid() && ProperLists(View().servers)
      modifies this, sNameToSAddr, sNameToSAddr.arrays
      ensures Valid() && sNameToSAddr.arrays == old(sNameToSAddr.arrays)
      ensures View() == Evicted(old(View()), a)
    {
      var serviceNames := At(sAddrToSNames, a);
      addrStore := addrStore - {a};
      sNameToSAddr.RemoveAll(serviceNames, a);
      sAddrToSNames := sAddrToSNames - {a};
    }
  }
}
