/**
 What each short critical section of the device registry does, on an abstract table keyed by
 device id. The array of entries that implements it is in DeviceRegistry.dfy; the interleavings
 of the sections are in DeviceProtocol.dfy.
 */
module DeviceTable {
  import opened Common
  import opened PortPool

  datatype Address = Address(host: string, mmsPort: int)

  /** `handle` is None until the start that reserved the device finalizes it. */
  datatype Device<+H> = Device(port: Port, running: bool, addr: Address, password: Option<string>, handle: Option<H>)

  datatype Registry<+H> = Registry(devices: map<nat, Device<H>>, nextId: nat, pool: Pool)

  datatype Reservation = Reserved(id: nat, port: Port) | HostAlreadyRunning | PortExhausted | OutOfMemory

  datatype Removal<+H> = Removed(device: Device<H>) | NotFound | StartInProgress

  function Empty<H>(first: Port, last: Port): Registry<H> {
    Registry(map[], 1, Fresh(first, last))
  }

  ghost predicate AddressTaken<H>(r: Registry<H>, addr: Address) {
    exists id :: id in r.devices && r.devices[id].addr == addr
  }

  /**
   `stored` says whether the string copies and the table entry could be allocated, `kept`
   whether a port given back on the failure path fitted into the free list.
   */
  ghost function Reserve<H>(r: Registry<H>, addr: Address, password: Option<string>, stored: bool, kept: bool)
    : (Registry<H>, Reservation)
  {
    if AddressTaken(r, addr) then (r, HostAlreadyRunning)
    else if Exhausted(r.pool) then (r, PortExhausted)
    else
      var (pool, port) := Take(r.pool);
      if stored then
        (Registry(r.devices[r.nextId := Device(port, false, addr, password, None)], r.nextId + 1, pool),
         Reserved(r.nextId, port))
      else (r.(pool := Give(pool, port, kept)), OutOfMemory)
  }

  function Finalize<H>(r: Registry<H>, id: nat, handle: H): Registry<H> {
    if id in r.devices
    then r.(devices := r.devices[id := r.devices[id].(running := true, handle := Some(handle))])
    else r
  }

  function Rollback<H>(r: Registry<H>, id: nat, kept: bool): Registry<H> {
    if id in r.devices
    then r.(devices := r.devices - {id}, pool := Give(r.pool, r.devices[id].port, kept))
    else r
  }

  function RemoveIfRunning<H>(r: Registry<H>, id: nat): (Registry<H>, Removal<H>) {
    if id !in r.devices then (r, NotFound)
    else if !r.devices[id].running then (r, StartInProgress)
    else (r.(devices := r.devices - {id}), Removed(r.devices[id]))
  }

  function FreePort<H>(r: Registry<H>, port: Port, kept: bool): Registry<H> {
    r.(pool := Give(r.pool, port, kept))
  }

  ghost predicate Coherent<H>(r: Registry<H>) {
    && WellFormed(r.pool)
    && EntriesCoherent(r)
  }

  /** Ids below the counter, addresses and ports distinct, a handle exactly when running. */
  ghost predicate EntriesCoherent<H>(r: Registry<H>) {
    && 0 < r.nextId
    && (forall id :: id in r.devices ==> 0 < id < r.nextId && r.devices[id].port in r.pool.held)
    && (forall id :: id in r.devices ==> (r.devices[id].running <==> r.devices[id].handle.Some?))
    && (forall id, other :: id in r.devices && other in r.devices && id != other ==>
          r.devices[id].addr != r.devices[other].addr && r.devices[id].port != r.devices[other].port)
  }

  lemma EmptyIsCoherent<H>(first: Port, last: Port)
    requires first <= last
    ensures Coherent(Empty<H>(first, last))
  {
  }

  lemma EntryPortIsHeld<H>(r: Registry<H>, id: nat)
    requires Coherent(r) && id in r.devices
    ensures r.devices[id].port in r.pool.held
  {
  }

  lemma TakenPortIsNew<H>(r: Registry<H>)
    requires Coherent(r) && !Exhausted(r.pool)
    ensures WellFormed(Take(r.pool).0)
    ensures forall id :: id in r.devices ==> r.devices[id].port != Take(r.pool).1
  {
    TakeKeepsWellFormed(r.pool);
  }

  lemma NewAddress<H>(r: Registry<H>, addr: Address)
    requires !AddressTaken(r, addr)
    ensures forall id :: id in r.devices ==> r.devices[id].addr != addr
  {
  }

  lemma NewEntryKeepsCoherent<H>(r: Registry<H>, addr: Address, password: Option<string>)
    requires Coherent(r) && !AddressTaken(r, addr) && !Exhausted(r.pool)
    ensures Coherent(Reserve(r, addr, password, true, true).0)
  {
    hide WellFormed, AddressTaken;
    TakenPortIsNew(r);
    NewAddress(r, addr);
    var q, port := Reserve(r, addr, password, true, true).0, Take(r.pool).1;
    assert forall id :: id in q.devices <==> id in r.devices || id == r.nextId;
    assert forall id :: id in r.devices ==> q.devices[id] == r.devices[id] && id != r.nextId;
    assert q.devices[r.nextId] == Device(port, false, addr, password, None);
  }

  lemma GivingBackKeepsCoherent<H>(r: Registry<H>, kept: bool)
    requires Coherent(r) && !Exhausted(r.pool)
    ensures Coherent(r.(pool := Give(Take(r.pool).0, Take(r.pool).1, kept)))
  {
    TakenPortIsNew(r);
    var (pool, port) := Take(r.pool);
    GiveKeepsWellFormed(pool, port, kept);
    assert Give(pool, port, kept).held >= r.pool.held;
    hide WellFormed;
  }

  lemma ReserveKeepsCoherent<H>(r: Registry<H>, addr: Address, password: Option<string>, stored: bool, kept: bool)
    requires Coherent(r)
    ensures Coherent(Reserve(r, addr, password, stored, kept).0)
  {
    hide Coherent;
    if !AddressTaken(r, addr) && !Exhausted(r.pool) {
      if stored { NewEntryKeepsCoherent(r, addr, password); } else { GivingBackKeepsCoherent(r, kept); }
    }
  }

  lemma ReservedPortIsNew<H>(r: Registry<H>, addr: Address, password: Option<string>, stored: bool, kept: bool)
    requires Coherent(r)
    ensures var (q, result) := Reserve(r, addr, password, stored, kept);
      if result.Reserved? then result.port !in r.pool.held && q.pool.held == r.pool.held + {result.port}
      else q.pool.held == r.pool.held && q.devices == r.devices && q.nextId == r.nextId
  {
    hide EntriesCoherent, WellFormed, AddressTaken;
    if !AddressTaken(r, addr) && !Exhausted(r.pool) { TakeKeepsWellFormed(r.pool); }
  }

  lemma FinalizeKeepsCoherent<H>(r: Registry<H>, id: nat, handle: H)
    requires Coherent(r)
    ensures Coherent(Finalize(r, id, handle))
  {
  }

  lemma RemoveKeepsCoherent<H>(r: Registry<H>, id: nat)
    requires Coherent(r)
    ensures Coherent(RemoveIfRunning(r, id).0)
    ensures id in r.devices && r.devices[id].running ==> r.devices[id].handle.Some?
  {
  }

  lemma RollbackKeepsCoherent<H>(r: Registry<H>, id: nat, kept: bool)
    requires Coherent(r)
    ensures Coherent(Rollback(r, id, kept))
  {
    if id in r.devices { GiveKeepsWellFormed(r.pool, r.devices[id].port, kept); }
  }

  lemma FreePortKeepsCoherent<H>(r: Registry<H>, port: Port, kept: bool)
    requires Coherent(r) && port in r.pool.held
    requires forall id :: id in r.devices ==> r.devices[id].port != port
    ensures Coherent(FreePort(r, port, kept))
  {
    GiveKeepsWellFormed(r.pool, port, kept);
  }
}
