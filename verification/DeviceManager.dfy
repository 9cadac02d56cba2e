/**
 The device manager's entry points, run one after another: the registry and the orchestration
 handles it owns, put together. What happens when several threads run them at once is the subject
 of DeviceProtocol.
 */
module DeviceManagers {
  import opened Common
  import opened PortPool
  import opened DeviceTable
  import opened DeviceRegistries
  import opened OrchestrationLedger
  import opened ResultLists
  import opened Orchestration

  datatype StartError =
    | StartOK
    | InvalidStart
    | AlreadyRunning
    | NoPortLeft
    | NoMemory
    | OrchestrationFailed(cause: Option<Error>, detail: Detail)   // no cause: the handle could not even be created

  datatype CreateError = Created | InvalidRange | CreateOutOfMemory

  const DefaultFirstPort: Port := 9000
  const DefaultLastPort: Port := 9999

  datatype StopError = StopOK | UnknownDevice | StillStarting | InvalidStop

  /** What everything outside the device manager answers during one start. */
  datatype StartAnswers = StartAnswers(
    memory: Memory, freeListGrows: bool, created: bool,
    ipcStarts: bool, local: SclAnswers, bootstrap: BootstrapAnswers,
    ipcRestarts: bool, modelBuilt: bool, online: TailAnswers)

  // ----- the bootstrap policy

  /** Did the first run end because the device answered but has no SCL file? */
  predicate FallsBack(a: StartAnswers, iedName: string) {
    && a.ipcStarts && BootstrapError(a.bootstrap, iedName) == BootstrapFailed
    && FailureStatus(a.bootstrap) == NoSclFileFound
  }

  function PolicyError(a: StartAnswers, mmsPort: int, iedName: string, sclFilePath: string): Error {
    if mmsPort <= 0 then InvalidArgument
    else if sclFilePath != "" then (if a.ipcStarts then SclError(a.local, iedName) else IpcDispatcherFailed)
    else if FallsBack(a, iedName) then OnlineError(a.ipcRestarts, a.modelBuilt, a.online)
    else if a.ipcStarts then BootstrapError(a.bootstrap, iedName) else IpcDispatcherFailed
  }

  /** Every candidate was asked, none gave a file, and the last one answered that it has none. */
  predicate AnsweredWithoutFile(b: BootstrapAnswers) {
    && b.created && b.scan.Some? && b.scan.value != []
    && b.scan.value[|b.scan.value| - 1] == Some(NoSclFileFound)
    && forall i :: 0 <= i < |b.scan.value| ==> b.scan.value[i] != Some(FileRetrieved)
  }

  lemma FallsBackIffAnsweredWithoutFile(a: StartAnswers, iedName: string)
    ensures FallsBack(a, iedName) <==> a.ipcStarts && AnsweredWithoutFile(a.bootstrap)
  {
    hide BootstrapError, FailureStatus;
    BootstrapExits(a.bootstrap, iedName);
    FailureStatusIsTheLast(a.bootstrap);
  }

  /** When a start can succeed, in terms of the answers alone. */
  lemma PolicySucceedsIff(a: StartAnswers, mmsPort: int, iedName: string, sclFilePath: string)
    ensures PolicyError(a, mmsPort, iedName, sclFilePath) == OK <==>
      && mmsPort > 0 && a.ipcStarts
      && if sclFilePath != "" then Named(a.local, iedName) && a.local.modelLoads && ProducersStart(a.local.tail)
         else if AnsweredWithoutFile(a.bootstrap) then a.ipcRestarts && a.modelBuilt && ProducersStart(a.online)
         else
           && Retrieves(a.bootstrap) && a.bootstrap.staged && Named(a.bootstrap.scl, iedName)
           && a.bootstrap.scl.modelLoads && ProducersStart(a.bootstrap.scl.tail)
  {
    hide BootstrapError, SclError, OnlineError, FallsBack, ProducersStart;
    FallsBackIffAnsweredWithoutFile(a, iedName);
    BootstrapExits(a.bootstrap, iedName);
    SclExits(a.local, iedName);
    OnlineExits(a.ipcRestarts, a.modelBuilt, a.online);
  }

  /** One run, and a second one by online discovery only for a device without an SCL file. */
  method RunBootstrapPolicy(h: OrchestrationHandle, host: string, mmsPort: int, iedName: string, interfaceId: string,
      sclFilePath: string, a: StartAnswers)
    returns (err: Error, detail: Detail, available: Option<Availability>)
    requires h.Stopped() && host != "" && interfaceId != ""
    modifies h
    ensures h.Valid() && h.running == (err == OK) && old(h.log) <= h.log
    ensures err == PolicyError(a, mmsPort, iedName, sclFilePath)
    ensures err == OK ==> available == Some(Availability(h.reportClient.Some?, h.gooseSubscriber.Some?))
    ensures detail.stage == StageOf(err)
    ensures old(h.runs) <= h.runs <= old(h.runs) + 2 && (h.runs == old(h.runs) <==> mmsPort <= 0)
    ensures h.runs == old(h.runs) + 2 <==>
      && sclFilePath == "" && mmsPort > 0 && a.ipcStarts && a.bootstrap.created && a.bootstrap.scan.Some?
      && a.bootstrap.scan.value != []
      && a.bootstrap.scan.value[|a.bootstrap.scan.value| - 1] == Some(NoSclFileFound)
      && forall i :: 0 <= i < |a.bootstrap.scan.value| ==> a.bootstrap.scan.value[i] != Some(FileRetrieved)
    ensures h.runs == old(h.runs) + 2 ==> (err == OK <==> a.ipcRestarts && a.modelBuilt && ProducersStart(a.online))
    ensures h.runs == old(h.runs) + 1 && sclFilePath == "" ==>
      err == if a.ipcStarts then BootstrapError(a.bootstrap, iedName) else IpcDispatcherFailed
  {
    hide OrchestrationHandle.Valid, BootstrapError, SclError, OnlineError, FailureStatus, TailError, Named;
    hide ProducersStart, Retrieves;
    FallsBackIffAnsweredWithoutFile(a, iedName);
    OnlineExits(a.ipcRestarts, a.modelBuilt, a.online);
    if |sclFilePath| > 0 {
      err, detail, available :=
        h.RunFromLocalFile(sclFilePath, host, mmsPort, iedName, interfaceId, a.ipcStarts, a.local);
      return;
    }
    err, detail, available := h.Run([host], mmsPort, iedName, interfaceId, a.ipcStarts, a.bootstrap);
    if err == BootstrapFailed && detail.lastCandidateStatus == NoSclFileFound {
      err, detail, available :=
        h.RunFromOnlineDiscovery(host, mmsPort, interfaceId, a.ipcRestarts, a.modelBuilt, a.online);
    }
  }

  // ----- which handles belong to which entries

  /** The entries with a handle, and exactly these handles, belong to each other one to one. */
  ghost predicate Matched(devices: map<nat, Device<OrchestrationHandle>>, handles: set<OrchestrationHandle>) {
    && (forall id :: id in devices && devices[id].handle.Some? ==> devices[id].handle.value in handles)
    && (forall h :: h in handles ==> exists id :: id in devices && devices[id].handle == Some(h))
    && (forall id, other :: id in devices && other in devices && id != other && devices[id].handle.Some? ==>
          devices[id].handle != devices[other].handle)
  }

  /** Every handle is configured with its entry's port and with the entry's own password copy. */
  ghost predicate Configured(devices: map<nat, Device<OrchestrationHandle>>) {
    forall id :: id in devices && devices[id].handle.Some? ==>
      devices[id].handle.value.port == devices[id].port && devices[id].handle.value.password == devices[id].password
  }

  ghost predicate AllRun(handles: set<OrchestrationHandle>)
    reads handles
  {
    forall h :: h in handles ==> h.Valid() && h.running
  }

  lemma MatchedAfterFinalize(devices: map<nat, Device<OrchestrationHandle>>, handles: set<OrchestrationHandle>,
      id: nat, device: Device<OrchestrationHandle>, h: OrchestrationHandle)
    requires Matched(devices, handles) && Configured(devices) && id !in devices && h !in handles
    requires device.handle == Some(h) && h.port == device.port && h.password == device.password
    ensures Matched(devices[id := device], handles + {h}) && Configured(devices[id := device])
  {
    var now := devices[id := device];
    assert now[id].handle == Some(h);
    forall g | g in handles + {h} ensures exists i :: i in now && now[i].handle == Some(g) {
      if g in handles {
        var i :| i in devices && devices[i].handle == Some(g);
        assert now[i].handle == Some(g);
      }
    }
  }

  lemma MatchedAfterRemove(devices: map<nat, Device<OrchestrationHandle>>, handles: set<OrchestrationHandle>,
      id: nat, h: OrchestrationHandle)
    requires Matched(devices, handles) && Configured(devices) && id in devices && devices[id].handle == Some(h)
    ensures h in handles && Matched(devices - {id}, handles - {h}) && Configured(devices - {id})
  {
    var now := devices - {id};
    forall g | g in handles - {h} ensures exists i :: i in now && now[i].handle == Some(g) {
      var i :| i in devices && devices[i].handle == Some(g);
      assert i in now && now[i].handle == Some(g);
    }
  }

  lemma AllRunWith(handles: set<OrchestrationHandle>, h: OrchestrationHandle)
    requires AllRun(handles) && h.Valid() && h.running
    ensures AllRun(handles + {h})
  {
  }

  lemma AllRunWithout(handles: set<OrchestrationHandle>, h: OrchestrationHandle)
    requires AllRun(handles) && h in handles
    ensures AllRun(handles - {h}) && h.Valid() && h.running
  {
  }

  lemma NothingKeptMeansSameDevices<H>(before: Registry<H>, now: Registry<H>)
    requires NothingKept(before, now)
    ensures now.devices == before.devices
  {
  }

  lemma WhatReserveAnswers<H>(r: Registry<H>, addr: Address, password: Option<string>, stored: bool, kept: bool)
    ensures var (q, result) := DeviceTable.Reserve(r, addr, password, stored, kept);
      && (result.HostAlreadyRunning? <==> AddressTaken(r, addr))
      && (result.PortExhausted? <==> !AddressTaken(r, addr) && Exhausted(r.pool))
      && (result.OutOfMemory? <==> !AddressTaken(r, addr) && !Exhausted(r.pool) && !stored)
      && (result.HostAlreadyRunning? || result.PortExhausted? ==> q == r)
      && (result.Reserved? ==> q == DeviceTable.Reserve(r, addr, password, true, true).0
                               && result == Reserved(r.nextId, Take(r.pool).1))
  {
  }

  lemma FreshId<H>(r: Registry<H>)
    requires Coherent(r)
    ensures r.nextId !in r.devices
  {
  }

  // ----- the manager

  class DeviceManager {
    const registry: DeviceRegistry<OrchestrationHandle>
    ghost var handles: set<OrchestrationHandle>

    ghost function Registered(): Registry<OrchestrationHandle>
      reads registry, registry.ports, registry.entries, registry.ports.freeList
      requires registry.WellShaped()
    {
      registry.Value()
    }

    ghost predicate Valid()
      reads this, registry, registry.ports, registry.entries, registry.ports.freeList, handles
    {
      && registry.Valid()
      && Matched(Registered().devices, handles) && Configured(Registered().devices)
      && AllRun(handles)
    }

    ghost function HandleOf(id: nat): set<OrchestrationHandle>
      reads registry, registry.ports, registry.entries, registry.ports.freeList
    {
      if registry.WellShaped() && id in Registered().devices && Registered().devices[id].handle.Some?
      then {Registered().devices[id].handle.value} else {}
    }

    constructor (registry: DeviceRegistry<OrchestrationHandle>)
      requires registry.Valid() && registry.Value().devices == map[]
      ensures Valid() && this.registry == registry && handles == {} && Registered() == old(registry.Value())
    {
      this.registry := registry;
      handles := {};
    }

    /** The configured range of ports, or the default one; an inverted one is the only invalid argument. */
    static method Create(range: Option<(Port, Port)>, memoryOk: bool, registryOk: bool, lockOk: bool, portsOk: bool)
      returns (manager: DeviceManager?, err: CreateError)
      ensures manager != null <==> err == Created
      ensures err == CreateOutOfMemory <==>
        !memoryOk || (!(registryOk && lockOk && portsOk) && (range.Some? ==> range.value.0 <= range.value.1))
      ensures err == InvalidRange <==> memoryOk && range.Some? && range.value.0 > range.value.1
      ensures manager != null ==>
        && fresh(manager) && manager.Valid() && manager.handles == {}
        && fresh(manager.registry) && fresh(manager.registry.Footprint())
        && manager.Registered() == if range.Some? then Empty(range.value.0, range.value.1)
          else Empty(9000, 9999)
    {
      if !memoryOk { return null, CreateOutOfMemory; }
      var (first, last) := if range.Some? then range.value else (DefaultFirstPort, DefaultLastPort);
      if first > last { return null, InvalidRange; }
      var registry := DeviceRegistry<OrchestrationHandle>.Create(first, last, registryOk, lockOk, portsOk);
      if registry == null { return null, CreateOutOfMemory; }
      manager := new DeviceManager(registry);
      return manager, Created;
    }

    /** Rolls back the reservation just made, with the table otherwise as it was `before`. */
    method GiveBack(ghost before: Registry<OrchestrationHandle>, ghost addr: Address, ghost password: Option<string>,
        deviceId: nat, grows: bool)
      requires registry.Valid() && Coherent(before) && !AddressTaken(before, addr) && !Exhausted(before.pool)
      requires Registered() == DeviceTable.Reserve(before, addr, password, true, true).0 && deviceId == before.nextId
      modifies registry.Footprint()
      ensures registry.Valid() && fresh(registry.Footprint() - old(registry.Footprint()))
      ensures NothingKept(before, Registered())
      ensures grows ==> Take(before.pool).1 in Registered().pool.free
    {
      hide Coherent, AddressTaken, WellFormed, DeviceRegistry.WellShaped, DeviceRegistry.Value;
      ReservedPortIsNew(before, addr, password, true, true);
      registry.Rollback(deviceId, grows);
      assert before.nextId !in before.devices by { FreshId(before); }
    }

    /** The entry reserved by this call becomes the running device of `h`. */
    method FinishStart(ghost before: Registry<OrchestrationHandle>, ghost addr: Address, ghost password: Option<string>,
        deviceId: nat, h: OrchestrationHandle)
      requires registry.Valid() && Coherent(before) && !AddressTaken(before, addr) && !Exhausted(before.pool)
      requires Matched(before.devices, handles) && Configured(before.devices) && AllRun(handles) && h !in handles
      requires Registered() == DeviceTable.Reserve(before, addr, password, true, true).0 && deviceId == before.nextId
      requires h.Valid() && h.running && h.port == Take(before.pool).1 && h.password == password
      modifies this`handles, registry, registry.entries
      ensures Valid() && registry.entries == old(registry.entries) && handles == old(handles) + {h}
      ensures Registered() == Registry(
        before.devices[deviceId := Device(h.port, true, addr, password, Some(h))], deviceId + 1, Take(before.pool).0)
    {
      hide Coherent, OrchestrationHandle.Valid, Matched, Configured, AllRun;
      hide DeviceRegistry.WellShaped, DeviceRegistry.Value, WellFormed, AddressTaken;
      registry.Finalize(deviceId, h);
      handles := handles + {h};
      FreshId(before);
      ghost var device := Device(h.port, true, addr, password, Some(h));
      assert Registered().devices == before.devices[deviceId := device];
      MatchedAfterFinalize(before.devices, old(handles), deviceId, device, h);
      AllRunWith(old(handles), h);
    }

    /** `attempted` is the handle that this call created, if it got that far. */
    method StartReporting(host: string, mmsPort: int, iedName: string, interfaceId: string, sclFilePath: string,
        password: string, a: StartAnswers)
      returns (err: StartError, deviceId: nat, wsPort: Port, available: Option<Availability>,
        ghost attempted: Option<OrchestrationHandle>)
      requires Valid()
      modifies this, registry.Footprint()
      ensures Valid() && fresh(registry.Footprint() - old(registry.Footprint()))
      ensures attempted.Some? ==> fresh(attempted.value)
      ensures err == InvalidStart <==> host == "" || interfaceId == "" || (sclFilePath != "" && iedName == "")
      ensures err.InvalidStart? || err.AlreadyRunning? || err.NoPortLeft? ==> Registered() == old(Registered())
      ensures !err.InvalidStart? ==> (err.AlreadyRunning? <==> AddressTaken(old(Registered()), Address(host, mmsPort)))
      ensures !err.InvalidStart? && !err.AlreadyRunning? ==> (err.NoPortLeft? <==> Exhausted(old(Registered().pool)))
      ensures !err.InvalidStart? && !err.AlreadyRunning? && !err.NoPortLeft? ==>
        (err.NoMemory? <==> !old(registry.Stores(Copied(password), a.memory)))
      ensures err.StartOK? || err.OrchestrationFailed? ==>
        (err.StartOK? <==> a.created && PolicyError(a, mmsPort, iedName, sclFilePath) == OK)
      ensures err.OrchestrationFailed? ==>
        err.cause == if a.created then Some(PolicyError(a, mmsPort, iedName, sclFilePath)) else None
      ensures !err.StartOK? ==> NothingKept(old(Registered()), Registered()) && handles == old(handles)
      ensures !err.StartOK? ==>
        && Registered().devices == old(Registered().devices)
        && Registered().pool.held == old(Registered().pool.held)
      ensures err.OrchestrationFailed? && a.freeListGrows ==> Take(old(Registered().pool)).1 in Registered().pool.free
      ensures !err.StartOK? && attempted.Some? ==>
        attempted.value.destroyed && Replay(attempted.value.log) == Some(Ledger(map[], false))
      ensures err.StartOK? ==> attempted.Some? && handles == old(handles) + {attempted.value}
      ensures err.StartOK? ==>
        attempted.value.port == wsPort && attempted.value.password == if password == "" then None else Some(password)
      ensures sclFilePath == "" && mmsPort > 0 && a.ipcStarts && AnsweredWithoutFile(a.bootstrap) ==>
        (err.StartOK? || err.OrchestrationFailed? ==>
          (err.StartOK? <==> a.created && a.ipcRestarts && a.modelBuilt && ProducersStart(a.online)))
      ensures err.StartOK? ==>
        && deviceId == old(Registered().nextId) && wsPort == Take(old(Registered().pool)).1
        && Registered() == Registry(
             old(Registered().devices)[
               deviceId := Device(wsPort, true, Address(host, mmsPort), Copied(password), attempted)],
             deviceId + 1, Take(old(Registered().pool)).0)
        && available == Some(Availability(attempted.value.reportClient.Some?, attempted.value.gooseSubscriber.Some?))
    {
      hide Coherent, OrchestrationHandle.Valid, Matched, Configured, AllRun, PolicyError;
      hide DeviceRegistry.WellShaped, DeviceRegistry.Value, WellFormed, AddressTaken, DeviceTable.Reserve;
      hide AnsweredWithoutFile, ProducersStart, Named, Retrieves;
      PolicySucceedsIff(a, mmsPort, iedName, sclFilePath);
      attempted := None;
      if |host| == 0 || |interfaceId| == 0 || (|sclFilePath| > 0 && |iedName| == 0) {
        return InvalidStart, 0, 0, None, None;
      }
      ghost var before := Registered();
      var addr := Address(host, mmsPort);
      ghost var stored := registry.Stores(Copied(password), a.memory);
      ghost var kept := a.memory.freeList || registry.ports.RoomAfterAlloc();
      var reserved := registry.Reserve(addr, Copied(password), a.memory);
      ReservedPortIsNew(before, addr, Copied(password), stored, kept);
      WhatReserveAnswers(before, addr, Copied(password), stored, kept);
      match reserved {
        case HostAlreadyRunning => return AlreadyRunning, 0, 0, None, None;
        case PortExhausted => return NoPortLeft, 0, 0, None, None;
        case OutOfMemory => return NoMemory, 0, 0, None, None;
        case Reserved(id, port) =>
          err, available, attempted :=
            RunReserved(before, addr, id, port, iedName, interfaceId, sclFilePath, Copied(password), a);
          deviceId, wsPort := id, port;
      }
    }

    /** The slow part of a start, and then its second short section: finalize or roll back. */
    method RunReserved(ghost before: Registry<OrchestrationHandle>, addr: Address, deviceId: nat, wsPort: Port,
        iedName: string, interfaceId: string, sclFilePath: string, password: Option<string>, a: StartAnswers)
      returns (err: StartError, available: Option<Availability>, ghost attempted: Option<OrchestrationHandle>)
      requires registry.Valid() && Coherent(before) && !AddressTaken(before, addr) && !Exhausted(before.pool)
      requires Matched(before.devices, handles) && Configured(before.devices) && AllRun(handles)
      requires Registered() == DeviceTable.Reserve(before, addr, password, true, true).0
      requires deviceId == before.nextId && wsPort == Take(before.pool).1 && addr.host != "" && interfaceId != ""
      modifies this, registry.Footprint()
      ensures Valid() && fresh(registry.Footprint() - old(registry.Footprint()))
      ensures attempted.Some? ==> fresh(attempted.value)
      ensures err.StartOK? || err.OrchestrationFailed?
      ensures err.StartOK? <==> a.created && PolicyError(a, addr.mmsPort, iedName, sclFilePath) == OK
      ensures err.OrchestrationFailed? ==>
        err.cause == if a.created then Some(PolicyError(a, addr.mmsPort, iedName, sclFilePath)) else None
      ensures !err.StartOK? ==> NothingKept(before, Registered()) && handles == old(handles)
      ensures !err.StartOK? && a.freeListGrows ==> wsPort in Registered().pool.free
      ensures !err.StartOK? && attempted.Some? ==>
        attempted.value.destroyed && Replay(attempted.value.log) == Some(Ledger(map[], false))
      ensures err.StartOK? ==> attempted.Some? && handles == old(handles) + {attempted.value}
      ensures err.StartOK? ==> attempted.value.port == wsPort && attempted.value.password == password
      ensures err.StartOK? ==>
        && Registered() == Registry(before.devices[deviceId := Device(wsPort, true, addr, password, attempted)],
             deviceId + 1, Take(before.pool).0)
        && available == Some(Availability(attempted.value.reportClient.Some?, attempted.value.gooseSubscriber.Some?))
    {
      hide Coherent, OrchestrationHandle.Valid, Matched, Configured, AllRun, PolicyError, NothingKept;
      hide DeviceRegistry.WellShaped, DeviceRegistry.Value, WellFormed, AddressTaken, DeviceTable.Reserve;
      attempted := None;
      if !a.created {
        GiveBack(before, addr, password, deviceId, a.freeListGrows);
        NothingKeptMeansSameDevices(before, Registered());
        return OrchestrationFailed(None, ClearDetail), None, None;
      }
      var h := new OrchestrationHandle(wsPort, password);
      attempted := Some(h);
      var runErr, detail;
      runErr, detail, available := RunBootstrapPolicy(h, addr.host, addr.mmsPort, iedName, interfaceId, sclFilePath, a);
      if runErr != Error.OK {
        h.Destroy();
        GiveBack(before, addr, password, deviceId, a.freeListGrows);
        NothingKeptMeansSameDevices(before, Registered());
        return OrchestrationFailed(Some(runErr), detail), None, attempted;
      }
      FinishStart(before, addr, password, deviceId, h);
      return StartOK, available, attempted;
    }

    /** The device is looked up and removed, its handle stopped and destroyed, and then its port is free. */
    method StopReporting(deviceId: nat, freeListGrows: bool) returns (err: StopError)
      requires Valid()
      modifies this, registry.Footprint(), HandleOf(deviceId)
      ensures Valid() && fresh(registry.Footprint() - old(registry.Footprint()))
      ensures err == if deviceId !in old(Registered().devices) then UnknownDevice
        else if !old(Registered().devices)[deviceId].running then StillStarting else StopOK
      ensures err != StopOK ==> Registered() == old(Registered()) && handles == old(handles)
      ensures err == StopOK ==>
        && Registered().devices == old(Registered().devices) - {deviceId}
        && Registered().pool.held == old(Registered().pool.held) - {old(Registered().devices)[deviceId].port}
      ensures err == StopOK ==> StoppedFrom(
        old(Registered()), deviceId, freeListGrows || !old(registry.ports.FreeListFull()), Registered())
      ensures err == StopOK ==> exists h <- old(HandleOf(deviceId)) ::
        handles == old(handles) - {h} && h in old(handles) && h.destroyed && Replay(h.log) == Some(Ledger(map[], false))
    {
      hide Coherent, OrchestrationHandle.Valid, Matched, Configured, AllRun;
      hide DeviceRegistry.WellShaped, DeviceRegistry.Value, WellFormed, NotRunning, RunningPorts;
      ghost var before := Registered();
      var removed := registry.RemoveIfRunning(deviceId);
      match removed {
        case NotFound => return UnknownDevice;
        case StartInProgress => return StillStarting;
        case Removed(device) =>
          RemovedPortIsOwed(before, deviceId);
          var h := device.handle.value;
          MatchedAfterRemove(before.devices, handles, deviceId, h);
          AllRunWithout(handles, h);
          handles := handles - {h};
          h.Stop();
          h.Destroy();
          registry.FreePort(device.port, freeListGrows);
          return StopOK;
      }
    }

    /** Looks the address up in one critical section and removes in another. */
    method StopReportingByAddress(host: string, mmsPort: int, freeListGrows: bool) returns (err: StopError,
        deviceId: nat)
      requires Valid()
      modifies this, registry.Footprint(), handles
      ensures Valid() && fresh(registry.Footprint() - old(registry.Footprint()))
      ensures err == InvalidStop <==> host == ""
      ensures host != "" ==> (err == UnknownDevice <==> !AddressTaken(old(Registered()), Address(host, mmsPort)))
      ensures err == StillStarting ==>
        exists id <- old(Registered().devices).Keys ::
          old(Registered().devices)[id].addr == Address(host, mmsPort) && !old(Registered().devices)[id].running
      ensures err != StopOK ==> Registered() == old(Registered()) && handles == old(handles)
      ensures err == StopOK ==>
        && deviceId in old(Registered().devices)
        && old(Registered().devices)[deviceId].addr == Address(host, mmsPort)
        && StoppedFrom(old(Registered()), deviceId, freeListGrows || !old(registry.ports.FreeListFull()), Registered())
      ensures err == StopOK ==> exists h <- old(HandleOf(deviceId)) ::
        handles == old(handles) - {h} && h in old(handles) && h.destroyed && Replay(h.log) == Some(Ledger(map[], false))
    {
      hide Coherent, OrchestrationHandle.Valid, Configured, AllRun, StoppedFrom;
      hide DeviceRegistry.WellShaped, DeviceRegistry.Value, WellFormed;
      if |host| == 0 { return InvalidStop, 0; }
      var found, id := registry.FindDeviceIdByHost(Address(host, mmsPort));
      if !found { return UnknownDevice, 0; }
      deviceId := id;
      err := StopReporting(id, freeListGrows);
    }

    lemma OwnsItsHandles(id: nat)
      requires Valid()
      ensures HandleOf(id) <= handles
    {
    }

    /** Drains the running devices one by one; with no start under way nothing is left. */
    method Destroy(freeListGrows: bool)
      requires Valid()
      modifies this, registry.Footprint(), handles
      ensures Valid() && handles == {}
      ensures forall h :: h in old(handles) ==> h.destroyed && Replay(h.log) == Some(Ledger(map[], false))
      ensures Registered().devices == NotRunning(old(Registered().devices))
      ensures Registered().pool.held == old(Registered().pool.held) - RunningPorts(old(Registered().devices))
    {
      hide Coherent, OrchestrationHandle.Valid, Configured, AllRun, Matched, NotRunning, RunningPorts;
      hide DeviceRegistry.WellShaped, DeviceRegistry.Value, WellFormed;
      ghost var before := Registered();
      var deviceId := registry.AnyRunningDeviceId();
      while deviceId != 0
        invariant Valid() && fresh(registry.Footprint() - old(registry.Footprint())) && handles <= old(handles)
        invariant deviceId != 0 ==> deviceId in Registered().devices && Registered().devices[deviceId].running
        invariant deviceId == 0 ==> forall id :: id in Registered().devices ==> !Registered().devices[id].running
        invariant NotRunning(Registered().devices) == NotRunning(before.devices)
        invariant RunningPorts(Registered().devices) <= RunningPorts(before.devices)
        invariant Registered().pool.held
          == before.pool.held - (RunningPorts(before.devices) - RunningPorts(Registered().devices))
        invariant forall h :: h in old(handles) - handles ==> h.destroyed && Replay(h.log) == Some(Ledger(map[], false))
        decreases handles
      {
        ghost var was := Registered();
        RemovedPortIsOwed(was, deviceId);
        OwnsItsHandles(deviceId);
        var _ := StopReporting(deviceId, freeListGrows);
        deviceId := registry.AnyRunningDeviceId();
      }
      NoneRunning(Registered().devices);
      NoHandlesLeft(Registered(), handles);
    }
  }

  ghost function RunningPorts<H>(devices: map<nat, Device<H>>): set<Port> {
    set id | id in devices && devices[id].running :: devices[id].port
  }

  ghost function NotRunning<H>(devices: map<nat, Device<H>>): map<nat, Device<H>> {
    map id | id in devices && !devices[id].running :: devices[id]
  }

  lemma RemovedPortIsOwed<H>(r: Registry<H>, id: nat)
    requires Coherent(r) && id in r.devices && r.devices[id].running
    ensures r.devices[id].handle.Some? && r.devices[id].port in r.pool.held
    ensures forall other :: other in r.devices - {id} ==> r.devices[other].port != r.devices[id].port
    ensures NotRunning(r.devices - {id}) == NotRunning(r.devices)
    ensures RunningPorts(r.devices) == RunningPorts(r.devices - {id}) + {r.devices[id].port}
    ensures r.devices[id].port !in RunningPorts(r.devices - {id})
  {
    hide WellFormed;
    forall p | p in RunningPorts(r.devices) ensures p in RunningPorts(r.devices - {id}) + {r.devices[id].port} {
      var other :| other in r.devices && r.devices[other].running && r.devices[other].port == p;
      if other != id { assert other in r.devices - {id}; }
    }
  }

  lemma NoneRunning<H>(devices: map<nat, Device<H>>)
    requires forall id :: id in devices ==> !devices[id].running
    ensures NotRunning(devices) == devices && RunningPorts(devices) == {}
  {
  }

  lemma NoHandlesLeft(r: Registry<OrchestrationHandle>, handles: set<OrchestrationHandle>)
    requires Coherent(r) && Matched(r.devices, handles) && forall id :: id in r.devices ==> !r.devices[id].running
    ensures handles == {}
  {
    hide WellFormed;
  }

  /** A stopped device: gone, its port free again, everything else as it was. */
  ghost predicate StoppedFrom<H>(before: Registry<H>, id: nat, kept: bool, now: Registry<H>)
    requires id in before.devices
  {
    && now.devices == before.devices - {id} && now.nextId == before.nextId
    && now.pool == Give(before.pool, before.devices[id].port, kept)
  }

  function Copied(password: string): Option<string> {
    if password == "" then None else Some(password)
  }

  /** A failed start: the same entries, and the same ports held as before. */
  ghost predicate NothingKept<H>(before: Registry<H>, now: Registry<H>) {
    now.devices == before.devices && now.pool.held == before.pool.held && before.nextId <= now.nextId
  }
}
