/**
 The registry as it is: an unordered array of entries, grown by doubling and shrunk by moving
 the last entry into the hole. Each method is one critical section and is proved to do to the
 abstract table exactly what module DeviceTable says.
 */
module DeviceRegistries {
  import opened Common
  import opened PortPool
  import opened PortAllocators
  import opened DeviceTable
  import opened KeyedTables

  /** What the memory allocator answers to each request that one critical section may make. */
  datatype Memory = Memory(hostCopy: bool, passwordCopy: bool, entries: bool, freeList: bool)

  class DeviceRegistry<H> {
    var entries: array<Entry<Device<H>>>
    var count: nat
    var nextDeviceId: nat
    const ports: PortAllocator

    ghost function Footprint(): set<object>
      reads this, ports
    {
      {this, entries, ports, ports.freeList}
    }

    ghost predicate WellShaped()
      reads this, ports, entries, ports.freeList
    {
      && count <= entries.Length
      && entries as object != ports.freeList
      && ports.Valid()
      && DistinctIds(entries[..count])
    }

    ghost function Value(): Registry<H>
      reads this, ports, entries, ports.freeList
      requires WellShaped()
    {
      Registry(Table(entries[..count]), nextDeviceId, ports.Value())
    }

    ghost predicate Valid()
      reads this, ports, entries, ports.freeList
    {
      WellShaped() && Coherent(Value())
    }

    constructor (ports: PortAllocator)
      requires ports.Valid() && ports.Value() == Fresh(ports.rangeStart, ports.rangeEnd)
      ensures Valid() && this.ports == ports && fresh(entries) && ports.freeList == old(ports.freeList)
      ensures Value() == Empty(ports.rangeStart, ports.rangeEnd)
    {
      this.ports := ports;
      entries := new Entry<Device<H>>[0];
      count, nextDeviceId := 0, 1;
    }

    /** Fails exactly for an inverted range or without the memory and the lock it needs. */
    static method Create(first: Port, last: Port, memoryOk: bool, lockOk: bool, portsOk: bool)
      returns (registry: DeviceRegistry?<H>)
      ensures registry == null <==> first > last || !memoryOk || !lockOk || !portsOk
      ensures registry != null ==>
        fresh(registry) && registry.Valid() && fresh(registry.Footprint()) && registry.Value() == Empty(first, last)
    {
      if !memoryOk || !lockOk { return null; }
      var ports := PortAllocator.Create(first, last, portsOk);
      if ports == null { return null; }
      registry := new DeviceRegistry(ports);
    }

    method HostAlreadyActive(addr: Address) returns (active: bool)
      requires Valid()
      ensures active <==> AddressTaken(Value(), addr)
    {
      var found, id := FindDeviceIdByHost(addr);
      active := found;
    }

    /** At most one entry can match, so the first hit is the answer. */
    method FindDeviceIdByHost(addr: Address) returns (found: bool, deviceId: nat)
      requires Valid()
      ensures found <==> AddressTaken(Value(), addr)
      ensures found ==> deviceId in Value().devices && Value().devices[deviceId].addr == addr
    {
      hide Coherent, WellFormed;
      ghost var es := entries[..count];
      for i := 0 to count
        invariant forall k :: 0 <= k < i ==> es[k].value.addr != addr
      {
        TableAt(es, i);
        if entries[i].value.addr == addr {
          return true, entries[i].id;
        }
      }
      forall id | id in Table(es) ensures Table(es)[id].addr != addr {
        var k := TableCovers(es, id);
      }
      return false, 0;
    }

    method FindIndexByDeviceId(deviceId: nat) returns (index: int)
      requires Valid()
      ensures -1 <= index < count
      ensures index >= 0 <==> deviceId in Value().devices
      ensures index >= 0 ==> entries[index] == Entry(deviceId, Value().devices[deviceId])
    {
      hide Coherent, WellFormed;
      for i := 0 to count
        invariant forall k :: 0 <= k < i ==> entries[k].id != deviceId
      {
        if entries[i].id == deviceId {
          TableAt(entries[..count], i);
          return i;
        }
      }
      return -1;
    }

    /** Zero, never a valid id, when no device is running. */
    method AnyRunningDeviceId() returns (deviceId: nat)
      requires Valid()
      ensures deviceId != 0 ==> deviceId in Value().devices && Value().devices[deviceId].running
      ensures deviceId == 0 ==> forall id :: id in Value().devices ==> !Value().devices[id].running
    {
      hide WellFormed;
      ghost var es := entries[..count];
      for i := 0 to count
        invariant forall k :: 0 <= k < i ==> !es[k].value.running
      {
        TableAt(es, i);
        if entries[i].value.running {
          return entries[i].id;
        }
      }
      forall id | id in Table(es) ensures !Table(es)[id].running {
        var k := TableCovers(es, id);
      }
      return 0;
    }

    predicate EntriesFull()
      reads this
    {
      count >= entries.Length
    }

    method AppendEntry(entry: Entry<Device<H>>, reallocOk: bool) returns (ok: bool)
      requires WellShaped() && forall i :: 0 <= i < count ==> entries[i].id != entry.id
      modifies this, entries
      ensures WellShaped() && (entries == old(entries) || fresh(entries)) && nextDeviceId == old(nextDeviceId)
      ensures ok <==> reallocOk || !old(EntriesFull())
      ensures entries[..count] == old(entries[..count]) + if ok then [entry] else []
    {
      hide WellFormed;
      if count >= entries.Length {
        var newCapacity := if entries.Length > 0 then entries.Length * 2 else 8;
        if !reallocOk { return false; }
        var grown := new Entry<Device<H>>[newCapacity](_ => entry);
        forall i | 0 <= i < count { grown[i] := entries[i]; }
        entries := grown;
        assert entries[..count] == old(entries[..count]);
      }
      entries[count] := entry;
      count := count + 1;
      return true;
    }

    /** Do both string copies and the entry find their memory? */
    predicate Stores(password: Option<string>, memory: Memory)
      reads this
    {
      memory.hostCopy && (password.Some? ==> memory.passwordCopy) && (memory.entries || !EntriesFull())
    }

    method Reserve(addr: Address, password: Option<string>, memory: Memory) returns (result: Reservation)
      requires Valid()
      modifies Footprint()
      ensures Valid() && fresh(Footprint() - old(Footprint()))
      ensures (Value(), result) == DeviceTable.Reserve(old(Value()), addr, password,
        old(Stores(password, memory)), memory.freeList || old(ports.RoomAfterAlloc()))
    {
      hide WellFormed, EntriesCoherent;
      ghost var before, stored, room := Value(), Stores(password, memory), ports.RoomAfterAlloc();
      ReserveKeepsCoherent(before, addr, password, stored, memory.freeList || room);
      var active := HostAlreadyActive(addr);
      if active { return HostAlreadyRunning; }
      var ok, port := ports.Alloc();
      if !ok { return PortExhausted; }
      ghost var kept;
      result, kept := Enter(addr, password, port, memory, before);
    }

    /** The second half of Reserve: copies, entry, id; or the port goes back. */
    method Enter(addr: Address, password: Option<string>, port: Port, memory: Memory, ghost before: Registry<H>)
      returns (result: Reservation, ghost kept: bool)
      requires WellShaped() && Coherent(before) && !Exhausted(before.pool)
      requires Value() == before.(pool := Take(before.pool).0) && port == Take(before.pool).1
      modifies Footprint()
      ensures WellShaped() && fresh(Footprint() - old(Footprint()))
      ensures result.Reserved? || result.OutOfMemory?
      ensures result.Reserved? <==> old(Stores(password, memory))
      ensures kept == (memory.freeList || !old(ports.FreeListFull()))
      ensures result.Reserved? ==>
        && result == Reserved(before.nextId, port)
        && Value() == Registry(before.devices[before.nextId := Device(port, false, addr, password, None)],
                               before.nextId + 1, Take(before.pool).0)
      ensures result.OutOfMemory? ==> Value() == before.(pool := Give(Take(before.pool).0, port, kept))
    {
      hide WellFormed;
      kept := memory.freeList || !ports.FreeListFull();
      if !memory.hostCopy || (password.Some? && !memory.passwordCopy) {
        ports.Free(port, memory.freeList);
        return OutOfMemory, kept;
      }
      var entry := Entry(nextDeviceId, Device(port, false, addr, password, None));
      ghost var es := entries[..count];
      forall i | 0 <= i < count ensures entries[i].id != entry.id {
        TableAt(es, i);
      }
      var appended := AppendEntry(entry, memory.entries);
      if !appended {
        assert entries[..count] == es;
        ports.Free(port, memory.freeList);
        return OutOfMemory, kept;
      }
      assert entries[..count][..count - 1] == es;
      var deviceId := nextDeviceId;
      nextDeviceId := nextDeviceId + 1;
      result := Reserved(deviceId, port);
    }

    method Finalize(deviceId: nat, handle: H)
      requires Valid()
      modifies this, entries
      ensures Valid() && entries == old(entries) && Value() == DeviceTable.Finalize(old(Value()), deviceId, handle)
    {
      hide WellFormed, EntriesCoherent;
      FinalizeKeepsCoherent(Value(), deviceId, handle);
      var index := FindIndexByDeviceId(deviceId);
      if index >= 0 {
        var device := entries[index].value.(running := true, handle := Some(handle));
        UpdateRewrites(entries[..count], index, device);
        entries[index] := Entry(deviceId, device);
        assert entries[..count] == old(entries[..count])[index := Entry(deviceId, device)];
      }
    }

    method Rollback(deviceId: nat, reallocOk: bool)
      requires Valid()
      modifies Footprint()
      ensures Valid() && fresh(Footprint() - old(Footprint()))
      ensures Value() == DeviceTable.Rollback(old(Value()), deviceId, reallocOk || !old(ports.FreeListFull()))
    {
      hide WellFormed, EntriesCoherent;
      ghost var before := Value();
      ghost var kept := reallocOk || !ports.FreeListFull();
      var index := FindIndexByDeviceId(deviceId);
      if index >= 0 {
        RollbackKeepsCoherent(before, deviceId, kept);
        EntryPortIsHeld(before, deviceId);
        SwapRemoveDeletes(entries[..count], index);
        ports.Free(entries[index].value.port, reallocOk);
        RemoveAt(index);
      }
      assert Value() == DeviceTable.Rollback(before, deviceId, kept);
    }

    /** Swap-remove: the order of the entries carries no meaning. */
    method RemoveAt(index: nat)
      requires WellShaped() && index < count
      modifies this`count, entries
      ensures count == old(count) - 1 && entries[..count] == SwapRemove(old(entries[..count]), index)
    {
      entries[index] := entries[count - 1];
      count := count - 1;
    }

    method RemoveIfRunning(deviceId: nat) returns (result: Removal<H>)
      requires Valid()
      modifies this, entries
      ensures Valid() && entries == old(entries)
      ensures (Value(), result) == DeviceTable.RemoveIfRunning(old(Value()), deviceId)
    {
      hide WellFormed, EntriesCoherent;
      RemoveKeepsCoherent(Value(), deviceId);
      var index := FindIndexByDeviceId(deviceId);
      if index < 0 { return NotFound; }
      if !entries[index].value.running { return StartInProgress; }
      result := Removed(entries[index].value);
      SwapRemoveDeletes(entries[..count], index);
      RemoveAt(index);
    }

    method FreePort(port: Port, reallocOk: bool)
      requires Valid() && port in Value().pool.held
      requires forall id :: id in Value().devices ==> Value().devices[id].port != port
      modifies ports, ports.freeList
      ensures Valid() && fresh(Footprint() - old(Footprint()))
      ensures Value() == DeviceTable.FreePort(old(Value()), port, reallocOk || !old(ports.FreeListFull()))
    {
      hide WellFormed, EntriesCoherent;
      ghost var before := Value();
      ghost var kept := reallocOk || !ports.FreeListFull();
      FreePortKeepsCoherent(before, port, kept);
      ports.Free(port, reallocOk);
      assert Value() == DeviceTable.FreePort(before, port, kept);
    }
  }
}
