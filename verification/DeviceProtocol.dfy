/**
 The device manager as any number of threads run it. Every critical section of the registry is
 one step, and so is every slow operation between two sections; between steps any other thread
 may run. A start is reserve, create, run, then finalize, or destroy and roll back. A stop is
 remove, stop, destroy, free the copies, free the port.

 The state carries, next to what the code keeps, the record of who is responsible for what:
 held ports, live handles, owned string copies, mid-start entries.
 */
module DeviceProtocol {
  import opened Common
  import opened PortPool
  import opened DeviceTable

  type Tid = nat
  type Handle = nat

  /** Where a thread stands: the name says what it has just done. */
  datatype Pc =
    | Idle
    | Reserved(id: nat, port: Port)
    | Created(id: nat, port: Port, handle: Handle)
    | RunFailed(id: nat, handle: Handle)
    | Unwinding(id: nat)
    | Ran(id: nat, port: Port, handle: Handle)
    | Resolved(id: nat, addr: Address)
    | Taken(id: nat, device: Device<Handle>)
    | Stopped(id: nat, device: Device<Handle>)
    | Destroyed(id: nat, port: Port)
    | CopiesFreed(port: Port)

  datatype Place = AtEntry(id: nat) | AtThread(t: Tid)

  /** A created and not yet destroyed orchestration handle, and what it was configured with. */
  datatype Live = Live(id: nat, port: Port, place: Place)

  datatype State = State(
    reg: Registry<Handle>,
    pc: map<Tid, Pc>,
    handles: map<Handle, Live>,   // live handles
    dead: set<Handle>,            // destroyed handles
    copies: map<nat, Place>,      // owned host and password copies not yet freed, by device id
    owner: map<Port, Place>,      // who is responsible for each held port
    starter: map<nat, Tid>,       // which thread each mid-start entry belongs to
    born: map<nat, Address>)      // the address each id was reserved for

  datatype Action =
    | Reserve(addr: Address, password: Option<string>, stored: bool, kept: bool)
    | CreateFails
    | Create(handle: Handle)
    | RunFails
    | RunSucceeds
    | DestroyFailed
    | Rollback(kept: bool)
    | Finalize
    | FindByAddress(addr: Address)
    | Remove(id: nat)
    | StopHandle
    | DestroyHandle
    | FreeCopies
    | FreePort(kept: bool)

  datatype Step = Step(t: Tid, action: Action)

  function Initial(first: Port, last: Port, threads: set<Tid>): State {
    State(Empty(first, last), map t | t in threads :: Idle, map[], {}, map[], map[], map[], map[])
  }

  predicate Enabled(s: State, step: Step) {
    step.t in s.pc &&
    var pc := s.pc[step.t];
    match step.action
    case Reserve(_, _, _, _) => pc.Idle?
    case CreateFails => pc.Reserved?
    case Create(h) => pc.Reserved? && h !in s.handles && h !in s.dead
    case RunFails => pc.Created?
    case RunSucceeds => pc.Created?
    case DestroyFailed => pc.RunFailed?
    case Rollback(_) => pc.Unwinding?
    case Finalize => pc.Ran?
    case FindByAddress(_) => pc.Idle?
    case Remove(id) => pc.Idle? || (pc.Resolved? && pc.id == id)
    case StopHandle => pc.Taken?
    case DestroyHandle => pc.Stopped?
    case FreeCopies => pc.Destroyed?
    case FreePort(_) => pc.CopiesFreed?
  }

  ghost function Next(s: State, step: Step): State
    requires Enabled(s, step)
  {
    var t, pc := step.t, s.pc[step.t];
    match step.action
    case Reserve(addr, password, stored, kept) =>
      var (reg, result) := DeviceTable.Reserve(s.reg, addr, password, stored, kept);
      if result.Reserved? then
        s.(reg := reg,
           pc := s.pc[t := Pc.Reserved(result.id, result.port)],
           copies := s.copies[result.id := AtEntry(result.id)],
           owner := s.owner[result.port := AtEntry(result.id)],
           starter := s.starter[result.id := t],
           born := s.born[result.id := addr])
      else s.(reg := reg)
    case CreateFails => s.(pc := s.pc[t := Unwinding(pc.id)])
    case Create(h) =>
      s.(pc := s.pc[t := Created(pc.id, pc.port, h)], handles := s.handles[h := Live(pc.id, pc.port, AtThread(t))])
    case RunFails => s.(pc := s.pc[t := RunFailed(pc.id, pc.handle)])
    case RunSucceeds => s.(pc := s.pc[t := Ran(pc.id, pc.port, pc.handle)])
    case DestroyFailed =>
      s.(pc := s.pc[t := Unwinding(pc.id)], handles := s.handles - {pc.handle}, dead := s.dead + {pc.handle})
    case Rollback(kept) =>
      s.(reg := DeviceTable.Rollback(s.reg, pc.id, kept),
         pc := s.pc[t := Idle],
         copies := s.copies - {pc.id},
         owner := if pc.id in s.reg.devices then s.owner - {s.reg.devices[pc.id].port} else s.owner,
         starter := s.starter - {pc.id})
    case Finalize =>
      s.(reg := DeviceTable.Finalize(s.reg, pc.id, pc.handle),
         pc := s.pc[t := Idle],
         handles := s.handles[pc.handle := Live(pc.id, pc.port, AtEntry(pc.id))],
         starter := s.starter - {pc.id})
    case FindByAddress(addr) =>
      if AddressTaken(s.reg, addr) then
        var id :| id in s.reg.devices && s.reg.devices[id].addr == addr;
        s.(pc := s.pc[t := Resolved(id, addr)])
      else s
    case Remove(id) =>
      var (reg, result) := DeviceTable.RemoveIfRunning(s.reg, id);
      if result.Removed? then
        s.(reg := reg,
           pc := s.pc[t := Taken(id, result.device)],
           handles := match result.device.handle
             case Some(h) => s.handles[h := Live(id, result.device.port, AtThread(t))]
             case None => s.handles,
           copies := s.copies[id := AtThread(t)],
           owner := s.owner[result.device.port := AtThread(t)])
      else s.(pc := s.pc[t := Idle])
    case StopHandle => s.(pc := s.pc[t := Stopped(pc.id, pc.device)])
    case DestroyHandle =>
      (match pc.device.handle
       case Some(h) => s.(handles := s.handles - {h}, dead := s.dead + {h})
       case None => s).(pc := s.pc[t := Destroyed(pc.id, pc.device.port)])
    case FreeCopies => s.(pc := s.pc[t := CopiesFreed(pc.port)], copies := s.copies - {pc.id})
    case FreePort(kept) =>
      s.(reg := DeviceTable.FreePort(s.reg, pc.port, kept), pc := s.pc[t := Idle], owner := s.owner - {pc.port})
  }

  // ----- what a thread is responsible for at each point of its program

  function StartOf(pc: Pc): Option<nat> {
    if pc.Reserved? || pc.Created? || pc.RunFailed? || pc.Unwinding? || pc.Ran? then Some(pc.id) else None
  }

  predicate HasPort(pc: Pc) {
    pc.Reserved? || pc.Created? || pc.Ran?
  }

  function HandleOf(pc: Pc): Option<Handle> {
    if pc.Created? || pc.RunFailed? || pc.Ran? then Some(pc.handle)
    else if pc.Taken? || pc.Stopped? then pc.device.handle
    else None
  }

  function PortOwedBy(pc: Pc): Option<Port> {
    if pc.Taken? || pc.Stopped? then Some(pc.device.port)
    else if pc.Destroyed? || pc.CopiesFreed? then Some(pc.port)
    else None
  }

  function CopiesOf(pc: Pc): Option<nat> {
    if pc.Taken? || pc.Stopped? || pc.Destroyed? then Some(pc.id) else None
  }

  // ----- the invariant

  /** Held ports are exactly those of the entries and those owed by a stopping thread. */
  ghost predicate PortsAccounted(s: State) {
    && s.owner.Keys == s.reg.pool.held
    && (forall id, p {:trigger id in s.reg.devices, p in s.owner} ::
          id in s.reg.devices && s.reg.devices[id].port == p <==> p in s.owner && s.owner[p] == AtEntry(id))
    && (forall t, p {:trigger t in s.pc, p in s.owner} ::
          t in s.pc && PortOwedBy(s.pc[t]) == Some(p) <==> p in s.owner && s.owner[p] == AtThread(t))
  }

  /** Mid-start entries and threads inside the start phase match one to one. */
  ghost predicate StartsMatched(s: State) {
    && (forall id :: id in s.starter <==> id in s.reg.devices && !s.reg.devices[id].running)
    && (forall t, id {:trigger t in s.pc, id in s.starter} ::
          t in s.pc && StartOf(s.pc[t]) == Some(id) <==> id in s.starter && s.starter[id] == t)
    && (forall t :: t in s.pc && HasPort(s.pc[t]) ==>
          s.pc[t].id in s.reg.devices && s.reg.devices[s.pc[t].id].port == s.pc[t].port)
  }

  /** A live handle is in the hands of one thread or of one running entry, with that one's port. */
  ghost predicate HandlesAccounted(s: State) {
    && s.handles.Keys !! s.dead
    && (forall t, h {:trigger t in s.pc, h in s.handles} ::
          t in s.pc && HandleOf(s.pc[t]) == Some(h) <==> h in s.handles && s.handles[h].place == AtThread(t))
    && (forall id, h {:trigger id in s.reg.devices, h in s.handles} ::
          id in s.reg.devices && s.reg.devices[id].handle == Some(h)
          <==> h in s.handles && s.handles[h].place == AtEntry(id))
    && (forall h :: h in s.handles && s.handles[h].place.AtEntry? ==> s.handles[h].id == s.handles[h].place.id)
    && (forall id, h {:trigger id in s.reg.devices, h in s.handles} ::
          h in s.handles && s.handles[h].id == id && id in s.reg.devices ==>
          s.handles[h].port == s.reg.devices[id].port)
    && (forall t, h {:trigger t in s.pc, h in s.handles} ::
          h in s.handles && t in s.pc && HandleOf(s.pc[t]) == Some(h) ==>
          s.handles[h].id == s.pc[t].id
          && (s.pc[t].Taken? || s.pc[t].Stopped? ==> s.handles[h].port == s.pc[t].device.port))
    && (forall t :: t in s.pc && (s.pc[t].Taken? || s.pc[t].Stopped?) ==> s.pc[t].device.handle.Some?)
  }

  /** Owned copies belong to one entry or to one stopping thread. */
  ghost predicate CopiesAccounted(s: State) {
    && (forall id :: id in s.reg.devices <==> id in s.copies && s.copies[id].AtEntry?)
    && (forall t, id {:trigger t in s.pc, id in s.copies} ::
          t in s.pc && CopiesOf(s.pc[t]) == Some(id) <==> id in s.copies && s.copies[id] == AtThread(t))
  }

  /** An id keeps the address it was reserved for. */
  ghost predicate BirthsRecorded(s: State) {
    && (forall id :: id in s.born <==> 0 < id < s.reg.nextId)
    && (forall id :: id in s.copies ==> id in s.born)
    && (forall h :: h in s.handles ==> s.handles[h].id in s.born)
    && (forall id :: id in s.reg.devices ==> id in s.born && s.reg.devices[id].addr == s.born[id])
    && (forall t :: t in s.pc ==> AddressMatchesBirth(s.born, s.pc[t]))
  }

  ghost predicate AddressMatchesBirth(born: map<nat, Address>, pc: Pc) {
    && (pc.Taken? || pc.Stopped? ==> pc.id in born && born[pc.id] == pc.device.addr)
    && (pc.Resolved? ==> pc.id in born && born[pc.id] == pc.addr)
  }

  ghost predicate Inv(s: State) {
    && Coherent(s.reg)
    && PortsAccounted(s)
    && StartsMatched(s)
    && HandlesAccounted(s)
    && CopiesAccounted(s)
    && BirthsRecorded(s)
  }

  lemma InitialInv(first: Port, last: Port, threads: set<Tid>)
    requires first <= last
    ensures Inv(Initial(first, last, threads))
  {
    hide PortsAccounted, HandlesAccounted;
    InitialPorts(first, last, threads);
    EmptyIsCoherent<Handle>(first, last);
    hide Coherent;
  }

  lemma InitialPorts(first: Port, last: Port, threads: set<Tid>)
    ensures PortsAccounted(Initial(first, last, threads)) && HandlesAccounted(Initial(first, last, threads))
  {
  }

  // ----- every step keeps the invariant: first, what each kind of effect does to each part

  /** Only thread `t` moves, from `was` to `now`. */
  ghost predicate Moves(s: State, n: State, t: Tid, was: Pc, now: Pc) {
    t in s.pc && s.pc[t] == was && n.pc == s.pc[t := now]
  }

  lemma PortsFrame(s: State, n: State, t: Tid, was: Pc, now: Pc)
    requires PortsAccounted(s) && Moves(s, n, t, was, now) && PortOwedBy(was) == PortOwedBy(now)
    requires n.owner == s.owner && n.reg.pool.held == s.reg.pool.held && n.reg.devices.Keys == s.reg.devices.Keys
    requires forall id :: id in s.reg.devices ==> n.reg.devices[id].port == s.reg.devices[id].port
    ensures PortsAccounted(n)
  {
    assert forall id :: id in n.reg.devices <==> id in s.reg.devices;
  }

  lemma PortsOfNewEntry(s: State, n: State, t: Tid, was: Pc, now: Pc, id: nat, device: Device<Handle>)
    requires PortsAccounted(s) && Moves(s, n, t, was, now) && PortOwedBy(was) == PortOwedBy(now)
    requires id !in s.reg.devices && device.port !in s.reg.pool.held
    requires n.reg.devices == s.reg.devices[id := device] && n.reg.pool.held == s.reg.pool.held + {device.port}
    requires n.owner == s.owner[device.port := AtEntry(id)]
    ensures PortsAccounted(n)
  {
  }

  lemma PortsOfDroppedEntry(s: State, n: State, t: Tid, was: Pc, now: Pc, id: nat)
    requires PortsAccounted(s) && Moves(s, n, t, was, now) && PortOwedBy(was) == PortOwedBy(now)
    requires id in s.reg.devices && n.reg.devices == s.reg.devices - {id}
    requires n.reg.pool.held == s.reg.pool.held - {s.reg.devices[id].port}
    requires n.owner == s.owner - {s.reg.devices[id].port}
    ensures PortsAccounted(n)
  {
    var port := s.reg.devices[id].port;
    assert id in s.reg.devices && port in s.owner;
    assert forall d :: d in n.reg.devices ==> d in s.reg.devices && s.reg.devices[d].port != port;
    assert forall u :: u in n.pc ==> u in s.pc && PortOwedBy(n.pc[u]) == PortOwedBy(s.pc[u]) != Some(port);
  }

  lemma PortsOfTakenEntry(s: State, n: State, t: Tid, was: Pc, now: Pc, id: nat)
    requires PortsAccounted(s) && Moves(s, n, t, was, now) && id in s.reg.devices
    requires PortOwedBy(was) == None && PortOwedBy(now) == Some(s.reg.devices[id].port)
    requires n.reg.devices == s.reg.devices - {id} && n.reg.pool.held == s.reg.pool.held
    requires n.owner == s.owner[s.reg.devices[id].port := AtThread(t)]
    ensures PortsAccounted(n)
  {
    assert id in s.reg.devices && s.reg.devices[id].port in s.owner;
  }

  lemma PortsOfFreedPort(s: State, n: State, t: Tid, was: Pc, now: Pc, port: Port)
    requires PortsAccounted(s) && Moves(s, n, t, was, now)
    requires PortOwedBy(was) == Some(port) && PortOwedBy(now) == None
    requires n.reg.devices == s.reg.devices && n.reg.pool.held == s.reg.pool.held - {port}
    requires n.owner == s.owner - {port}
    ensures PortsAccounted(n)
  {
    assert t in s.pc && port in s.owner;
  }

  lemma StartsFrame(s: State, n: State, t: Tid, was: Pc, now: Pc)
    requires StartsMatched(s) && Moves(s, n, t, was, now) && StartOf(was) == StartOf(now)
    requires HasPort(now) ==> HasPort(was) && was.port == now.port
    requires n.starter == s.starter && n.reg.devices == s.reg.devices
    ensures StartsMatched(n)
  {
  }

  lemma StartsOfNewEntry(s: State, n: State, t: Tid, was: Pc, now: Pc, id: nat, device: Device<Handle>)
    requires StartsMatched(s) && Moves(s, n, t, was, now) && StartOf(was) == None && now == Pc.Reserved(id, device.port)
    requires id !in s.reg.devices && !device.running
    requires n.reg.devices == s.reg.devices[id := device] && n.starter == s.starter[id := t]
    ensures StartsMatched(n)
  {
  }

  lemma StartsOfDroppedEntry(s: State, n: State, t: Tid, was: Pc, now: Pc, id: nat)
    requires StartsMatched(s) && Moves(s, n, t, was, now) && StartOf(was) == Some(id) && StartOf(now) == None
    requires n.reg.devices == s.reg.devices - {id} && n.starter == s.starter - {id}
    ensures StartsMatched(n)
  {
    assert t in s.pc && id in s.starter;
  }

  lemma StartsOfFinalizedEntry(s: State, n: State, t: Tid, was: Pc, now: Pc, id: nat, device: Device<Handle>)
    requires StartsMatched(s) && Moves(s, n, t, was, now) && StartOf(was) == Some(id) && StartOf(now) == None
    requires id in s.reg.devices && device.running && device.port == s.reg.devices[id].port
    requires n.reg.devices == s.reg.devices[id := device] && n.starter == s.starter - {id}
    ensures StartsMatched(n)
  {
    assert t in s.pc && id in s.starter;
  }

  lemma StartsOfTakenEntry(s: State, n: State, t: Tid, was: Pc, now: Pc, id: nat)
    requires StartsMatched(s) && Moves(s, n, t, was, now) && StartOf(was) == StartOf(now) == None
    requires id in s.reg.devices && s.reg.devices[id].running
    requires n.reg.devices == s.reg.devices - {id} && n.starter == s.starter
    ensures StartsMatched(n)
  {
    forall u | u in n.pc && HasPort(n.pc[u])
      ensures n.pc[u].id in n.reg.devices && n.reg.devices[n.pc[u].id].port == n.pc[u].port
    {
      assert u in s.pc && s.pc[u].id in s.starter;
    }
  }

  lemma HandlesFrame(s: State, n: State, t: Tid, was: Pc, now: Pc)
    requires HandlesAccounted(s) && Moves(s, n, t, was, now) && HandleOf(was) == HandleOf(now)
    requires HandleOf(now).Some? ==> was.id == now.id
    requires now.Taken? || now.Stopped? ==> (was.Taken? || was.Stopped?) && was.device == now.device
    requires n.handles == s.handles && n.dead == s.dead && n.reg.devices == s.reg.devices
    ensures HandlesAccounted(n)
  {
    forall u, h
      ensures u in n.pc && HandleOf(n.pc[u]) == Some(h) <==> h in n.handles && n.handles[h].place == AtThread(u)
    {
      assert u in s.pc && HandleOf(s.pc[u]) == Some(h) <==> h in s.handles && s.handles[h].place == AtThread(u);
    }
    forall u, h | h in n.handles && u in n.pc && HandleOf(n.pc[u]) == Some(h)
      ensures n.handles[h].id == n.pc[u].id
      ensures n.pc[u].Taken? || n.pc[u].Stopped? ==> n.handles[h].port == n.pc[u].device.port
    {
      assert u in s.pc && HandleOf(s.pc[u]) == Some(h);
    }
  }

  lemma HandlesOfNewEntry(s: State, n: State, t: Tid, was: Pc, now: Pc, id: nat, device: Device<Handle>)
    requires HandlesAccounted(s) && Moves(s, n, t, was, now) && HandleOf(was) == None && now.Reserved?
    requires id !in s.reg.devices && device.handle == None && (forall h :: h in s.handles ==> s.handles[h].id != id)
    requires n.reg.devices == s.reg.devices[id := device] && n.handles == s.handles && n.dead == s.dead
    ensures HandlesAccounted(n)
  {
  }

  lemma HandlesOfDroppedEntry(s: State, n: State, t: Tid, was: Pc, now: Pc, id: nat)
    requires HandlesAccounted(s) && Moves(s, n, t, was, now) && HandleOf(was) == None && now == Idle
    requires id in s.reg.devices && s.reg.devices[id].handle == None
    requires n.reg.devices == s.reg.devices - {id} && n.handles == s.handles && n.dead == s.dead
    ensures HandlesAccounted(n)
  {
  }

  lemma HandlesOfTakenEntry(s: State, n: State, t: Tid, was: Pc, now: Pc, id: nat, h: Handle)
    requires HandlesAccounted(s) && Moves(s, n, t, was, now) && HandleOf(was) == None
    requires id in s.reg.devices && s.reg.devices[id].handle == Some(h) && now == Taken(id, s.reg.devices[id])
    requires n.reg.devices == s.reg.devices - {id} && n.dead == s.dead
    requires n.handles == s.handles[h := Live(id, s.reg.devices[id].port, AtThread(t))]
    ensures HandlesAccounted(n)
  {
    assert id in s.reg.devices && h in s.handles;
  }

  lemma HandlesOfCreated(s: State, n: State, t: Tid, was: Pc, now: Pc, h: Handle)
    requires HandlesAccounted(s) && Moves(s, n, t, was, now) && was.Reserved? && now == Created(was.id, was.port, h)
    requires was.id in s.reg.devices && s.reg.devices[was.id].port == was.port
    requires h !in s.handles && h !in s.dead && n.reg.devices == s.reg.devices && n.dead == s.dead
    requires n.handles == s.handles[h := Live(was.id, was.port, AtThread(t))]
    ensures HandlesAccounted(n)
  {
  }

  lemma HandlesOfDestroyed(s: State, n: State, t: Tid, was: Pc, now: Pc, h: Handle)
    requires HandlesAccounted(s) && Moves(s, n, t, was, now) && HandleOf(was) == Some(h) && HandleOf(now) == None
    requires !now.Taken? && !now.Stopped? && n.reg.devices == s.reg.devices
    requires n.handles == s.handles - {h} && n.dead == s.dead + {h}
    ensures HandlesAccounted(n)
  {
    assert t in s.pc && h in s.handles;
  }

  lemma HandlesOfFinalized(s: State, n: State, t: Tid, was: Pc, now: Pc, device: Device<Handle>)
    requires HandlesAccounted(s) && Moves(s, n, t, was, now) && was.Ran? && now == Idle
    requires was.id in s.reg.devices && s.reg.devices[was.id].handle == None
    requires device == s.reg.devices[was.id].(running := true, handle := Some(was.handle)) && device.port == was.port
    requires n.reg.devices == s.reg.devices[was.id := device] && n.dead == s.dead
    requires n.handles == s.handles[was.handle := Live(was.id, was.port, AtEntry(was.id))]
    ensures HandlesAccounted(n)
  {
    assert t in s.pc && was.handle in s.handles;
  }

  lemma CopiesFrame(s: State, n: State, t: Tid, was: Pc, now: Pc)
    requires CopiesAccounted(s) && Moves(s, n, t, was, now) && CopiesOf(was) == CopiesOf(now)
    requires n.copies == s.copies && n.reg.devices.Keys == s.reg.devices.Keys
    ensures CopiesAccounted(n)
  {
    assert forall id :: id in n.reg.devices <==> id in s.reg.devices;
    forall u | u in n.pc ensures u in s.pc && CopiesOf(n.pc[u]) == CopiesOf(s.pc[u]) {
    }
    forall u, id ensures u in n.pc && CopiesOf(n.pc[u]) == Some(id) <==> id in n.copies && n.copies[id] == AtThread(u) {
      assert u in s.pc && CopiesOf(s.pc[u]) == Some(id) <==> id in s.copies && s.copies[id] == AtThread(u);
    }
  }

  lemma CopiesOfNewEntry(s: State, n: State, t: Tid, was: Pc, now: Pc, id: nat)
    requires CopiesAccounted(s) && Moves(s, n, t, was, now) && CopiesOf(was) == CopiesOf(now) == None
    requires id !in s.copies && n.copies == s.copies[id := AtEntry(id)]
    requires n.reg.devices.Keys == s.reg.devices.Keys + {id}
    ensures CopiesAccounted(n)
  {
    assert forall d :: d in n.reg.devices <==> d in s.reg.devices || d == id;
  }

  lemma CopiesOfDroppedEntry(s: State, n: State, t: Tid, was: Pc, now: Pc, id: nat)
    requires CopiesAccounted(s) && Moves(s, n, t, was, now) && CopiesOf(was) == CopiesOf(now) == None
    requires id in s.reg.devices && n.copies == s.copies - {id} && n.reg.devices.Keys == s.reg.devices.Keys - {id}
    ensures CopiesAccounted(n)
  {
    assert forall d :: d in n.reg.devices <==> d in s.reg.devices && d != id;
  }

  lemma CopiesOfTakenEntry(s: State, n: State, t: Tid, was: Pc, now: Pc, id: nat)
    requires CopiesAccounted(s) && Moves(s, n, t, was, now) && CopiesOf(was) == None && CopiesOf(now) == Some(id)
    requires id in s.reg.devices && n.copies == s.copies[id := AtThread(t)]
    requires n.reg.devices.Keys == s.reg.devices.Keys - {id}
    ensures CopiesAccounted(n)
  {
    assert forall d :: d in n.reg.devices <==> d in s.reg.devices && d != id;
  }

  lemma CopiesOfFreed(s: State, n: State, t: Tid, was: Pc, now: Pc, id: nat)
    requires CopiesAccounted(s) && Moves(s, n, t, was, now) && CopiesOf(was) == Some(id) && CopiesOf(now) == None
    requires n.copies == s.copies - {id} && n.reg.devices == s.reg.devices
    ensures CopiesAccounted(n)
  {
    assert t in s.pc && id in s.copies;
  }

  lemma BirthsFrame(s: State, n: State, t: Tid, was: Pc, now: Pc)
    requires BirthsRecorded(s) && Moves(s, n, t, was, now) && AddressMatchesBirth(s.born, now)
    requires n.born == s.born && n.reg.nextId == s.reg.nextId && (forall id :: id in n.copies ==> id in s.born)
    requires forall id :: id in n.reg.devices ==>
      id in s.reg.devices && n.reg.devices[id].addr == s.reg.devices[id].addr
    requires forall h :: h in n.handles ==> n.handles[h].id in s.born
    ensures BirthsRecorded(n)
  {
  }

  lemma BirthsOfNewEntry(s: State, n: State, t: Tid, was: Pc, now: Pc, device: Device<Handle>)
    requires BirthsRecorded(s) && Moves(s, n, t, was, now) && now.Reserved?
    requires n.reg.devices == s.reg.devices[s.reg.nextId := device] && n.reg.nextId == s.reg.nextId + 1
    requires s.reg.nextId > 0 && n.born == s.born[s.reg.nextId := device.addr]
    requires n.copies == s.copies[s.reg.nextId := AtEntry(s.reg.nextId)] && n.handles == s.handles
    ensures BirthsRecorded(n)
  {
  }

  lemma EntriesAreBorn(s: State)
    requires BirthsRecorded(s)
    ensures forall id :: id in s.reg.devices ==> id in s.born && s.reg.devices[id].addr == s.born[id]
    ensures forall id :: id in s.copies ==> id in s.born
    ensures forall h :: h in s.handles ==> s.handles[h].id in s.born
    ensures forall t :: t in s.pc ==> AddressMatchesBirth(s.born, s.pc[t])
  {
  }

  // ----- then, step by step

  /** A thread inside the start phase finds its own entry, still mid-start. */
  lemma StarterFindsItsEntry(s: State, t: Tid)
    requires StartsMatched(s) && EntriesCoherent(s.reg) && t in s.pc && StartOf(s.pc[t]).Some?
    ensures var id := s.pc[t].id;
      && id in s.reg.devices && !s.reg.devices[id].running && s.reg.devices[id].handle == None
      && (HasPort(s.pc[t]) ==> s.reg.devices[id].port == s.pc[t].port)
  {
    assert t in s.pc && s.pc[t].id in s.starter;
  }

  lemma BornIdsAreOld(s: State)
    requires BirthsRecorded(s)
    ensures s.reg.nextId !in s.reg.devices && s.reg.nextId !in s.copies
    ensures forall h :: h in s.handles ==> s.handles[h].id != s.reg.nextId
  {
    assert s.reg.nextId !in s.born;
  }

  lemma StopperHasHandle(s: State, t: Tid)
    requires HandlesAccounted(s) && t in s.pc && (s.pc[t].Taken? || s.pc[t].Stopped?)
    ensures s.pc[t].device.handle.Some? && s.pc[t].device.handle.value in s.handles
  {
    assert t in s.pc && s.pc[t].device.handle.value in s.handles;
  }

  /** The port a stopping thread still owes is held, and no entry has it. */
  lemma OwedPortIsHeld(s: State, t: Tid)
    requires PortsAccounted(s) && t in s.pc && PortOwedBy(s.pc[t]).Some?
    ensures var p := PortOwedBy(s.pc[t]).value;
      p in s.reg.pool.held && forall id :: id in s.reg.devices ==> s.reg.devices[id].port != p
  {
    var p := PortOwedBy(s.pc[t]).value;
    assert t in s.pc && p in s.owner;
    forall id | id in s.reg.devices ensures s.reg.devices[id].port != p {
      assert id in s.reg.devices && p in s.owner;
    }
  }

  lemma NewEntryKeepsInv(s: State, n: State, t: Tid, device: Device<Handle>)
    requires Inv(s) && t in s.pc && s.pc[t] == Idle
    requires device.handle == None && !device.running && device.port !in s.reg.pool.held
    requires var id := s.reg.nextId;
      && n == s.(reg := n.reg,
                 pc := s.pc[t := Pc.Reserved(id, device.port)],
                 copies := s.copies[id := AtEntry(id)],
                 owner := s.owner[device.port := AtEntry(id)],
                 starter := s.starter[id := t],
                 born := s.born[id := device.addr])
      && n.reg.devices == s.reg.devices[id := device] && n.reg.nextId == id + 1
      && n.reg.pool.held == s.reg.pool.held + {device.port} && Coherent(n.reg)
    ensures Inv(n)
  {
    hide PortsAccounted, StartsMatched, HandlesAccounted, CopiesAccounted, BirthsRecorded, WellFormed;
    BornIdsAreOld(s);
    var id := s.reg.nextId;
    PortsOfNewEntry(s, n, t, Idle, n.pc[t], id, device);
    StartsOfNewEntry(s, n, t, Idle, n.pc[t], id, device);
    HandlesOfNewEntry(s, n, t, Idle, n.pc[t], id, device);
    CopiesOfNewEntry(s, n, t, Idle, n.pc[t], id);
    BirthsOfNewEntry(s, n, t, Idle, n.pc[t], device);
  }

  lemma RefusalKeepsInv(s: State, n: State, t: Tid)
    requires Inv(s) && t in s.pc && s.pc[t] == Idle && n == s.(reg := n.reg) && Coherent(n.reg)
    requires n.reg.devices == s.reg.devices && n.reg.nextId == s.reg.nextId && n.reg.pool.held == s.reg.pool.held
    ensures Inv(n)
  {
    hide PortsAccounted, StartsMatched, HandlesAccounted, CopiesAccounted, BirthsRecorded,
      WellFormed, EntriesCoherent;
    EntriesAreBorn(s);
    assert n.pc == s.pc[t := Idle];
    PortsFrame(s, n, t, Idle, Idle);
    StartsFrame(s, n, t, Idle, Idle);
    HandlesFrame(s, n, t, Idle, Idle);
    CopiesFrame(s, n, t, Idle, Idle);
    BirthsFrame(s, n, t, Idle, Idle);
  }

  lemma ReserveKeepsInv(s: State, step: Step)
    requires Inv(s) && Enabled(s, step) && step.action.Reserve?
    ensures Inv(Next(s, step))
  {
    hide PortsAccounted, StartsMatched, HandlesAccounted, CopiesAccounted, BirthsRecorded,
      WellFormed, EntriesCoherent;
    var n, t, a := Next(s, step), step.t, step.action;
    var (reg, result) := DeviceTable.Reserve(s.reg, a.addr, a.password, a.stored, a.kept);
    ReserveKeepsCoherent(s.reg, a.addr, a.password, a.stored, a.kept);
    ReservedPortIsNew(s.reg, a.addr, a.password, a.stored, a.kept);
    if result.Reserved? {
      NewEntryKeepsInv(s, n, t, Device(result.port, false, a.addr, a.password, None));
    } else {
      RefusalKeepsInv(s, n, t);
    }
  }

  /** The steps that move one thread and change nothing else that the registry keeps. */
  lemma QuietStepKeepsInv(s: State, step: Step)
    requires Inv(s) && Enabled(s, step)
    requires step.action.CreateFails? || step.action.RunFails? || step.action.RunSucceeds? || step.action.StopHandle?
    ensures Inv(Next(s, step))
  {
    hide PortsAccounted, StartsMatched, HandlesAccounted, CopiesAccounted, BirthsRecorded,
      WellFormed, EntriesCoherent;
    EntriesAreBorn(s);
    var n, t := Next(s, step), step.t;
    PortsFrame(s, n, t, s.pc[t], n.pc[t]);
    StartsFrame(s, n, t, s.pc[t], n.pc[t]);
    HandlesFrame(s, n, t, s.pc[t], n.pc[t]);
    CopiesFrame(s, n, t, s.pc[t], n.pc[t]);
    BirthsFrame(s, n, t, s.pc[t], n.pc[t]);
  }

  lemma FindKeepsInv(s: State, step: Step)
    requires Inv(s) && Enabled(s, step) && step.action.FindByAddress?
    ensures Inv(Next(s, step))
  {
    hide PortsAccounted, StartsMatched, HandlesAccounted, CopiesAccounted, BirthsRecorded,
      WellFormed, EntriesCoherent;
    EntriesAreBorn(s);
    var n, t := Next(s, step), step.t;
    if AddressTaken(s.reg, step.action.addr) {
      PortsFrame(s, n, t, s.pc[t], n.pc[t]);
      StartsFrame(s, n, t, s.pc[t], n.pc[t]);
      HandlesFrame(s, n, t, s.pc[t], n.pc[t]);
      CopiesFrame(s, n, t, s.pc[t], n.pc[t]);
      BirthsFrame(s, n, t, s.pc[t], n.pc[t]);
    }
  }

  lemma CreateKeepsInv(s: State, step: Step)
    requires Inv(s) && Enabled(s, step) && step.action.Create?
    ensures Inv(Next(s, step))
  {
    hide PortsAccounted, StartsMatched, HandlesAccounted, CopiesAccounted, BirthsRecorded,
      WellFormed, EntriesCoherent;
    EntriesAreBorn(s);
    var n, t := Next(s, step), step.t;
    PortsFrame(s, n, t, s.pc[t], n.pc[t]);
    StartsFrame(s, n, t, s.pc[t], n.pc[t]);
    StarterFindsItsEntry(s, t);
    HandlesOfCreated(s, n, t, s.pc[t], n.pc[t], step.action.handle);
    CopiesFrame(s, n, t, s.pc[t], n.pc[t]);
    BirthsFrame(s, n, t, s.pc[t], n.pc[t]);
  }

  lemma DestroyFailedKeepsInv(s: State, step: Step)
    requires Inv(s) && Enabled(s, step) && step.action.DestroyFailed?
    ensures Inv(Next(s, step))
  {
    hide PortsAccounted, StartsMatched, HandlesAccounted, CopiesAccounted, BirthsRecorded,
      WellFormed, EntriesCoherent;
    EntriesAreBorn(s);
    var n, t := Next(s, step), step.t;
    PortsFrame(s, n, t, s.pc[t], n.pc[t]);
    StartsFrame(s, n, t, s.pc[t], n.pc[t]);
    HandlesOfDestroyed(s, n, t, s.pc[t], n.pc[t], s.pc[t].handle);
    CopiesFrame(s, n, t, s.pc[t], n.pc[t]);
    BirthsFrame(s, n, t, s.pc[t], n.pc[t]);
  }

  lemma RollbackKeepsInv(s: State, step: Step)
    requires Inv(s) && Enabled(s, step) && step.action.Rollback?
    ensures Inv(Next(s, step))
  {
    hide PortsAccounted, StartsMatched, HandlesAccounted, CopiesAccounted, BirthsRecorded,
      WellFormed, EntriesCoherent;
    EntriesAreBorn(s);
    var n, t, was := Next(s, step), step.t, s.pc[step.t];
    StarterFindsItsEntry(s, t);
    RollbackKeepsCoherent(s.reg, was.id, step.action.kept);
    PortsOfDroppedEntry(s, n, t, was, Idle, was.id);
    StartsOfDroppedEntry(s, n, t, was, Idle, was.id);
    HandlesOfDroppedEntry(s, n, t, was, Idle, was.id);
    CopiesOfDroppedEntry(s, n, t, was, Idle, was.id);
    BirthsFrame(s, n, t, was, Idle);
  }

  lemma FinalizeKeepsInv(s: State, step: Step)
    requires Inv(s) && Enabled(s, step) && step.action.Finalize?
    ensures Inv(Next(s, step))
  {
    hide PortsAccounted, StartsMatched, HandlesAccounted, CopiesAccounted, BirthsRecorded,
      WellFormed, EntriesCoherent;
    EntriesAreBorn(s);
    var n, t, was := Next(s, step), step.t, s.pc[step.t];
    StarterFindsItsEntry(s, t);
    FinalizeKeepsCoherent(s.reg, was.id, was.handle);
    var device := s.reg.devices[was.id].(running := true, handle := Some(was.handle));
    PortsFrame(s, n, t, was, Idle);
    StartsOfFinalizedEntry(s, n, t, was, Idle, was.id, device);
    HandlesOfFinalized(s, n, t, was, Idle, device);
    CopiesFrame(s, n, t, was, Idle);
    BirthsFrame(s, n, t, was, Idle);
  }

  lemma RemoveKeepsInv(s: State, step: Step)
    requires Inv(s) && Enabled(s, step) && step.action.Remove?
    ensures Inv(Next(s, step))
  {
    hide PortsAccounted, StartsMatched, HandlesAccounted, CopiesAccounted, BirthsRecorded,
      WellFormed, EntriesCoherent;
    EntriesAreBorn(s);
    var n, t, was, id := Next(s, step), step.t, s.pc[step.t], step.action.id;
    RemoveKeepsCoherent(s.reg, id);
    if id in s.reg.devices && s.reg.devices[id].running {
      var now := Taken(id, s.reg.devices[id]);
      PortsOfTakenEntry(s, n, t, was, now, id);
      StartsOfTakenEntry(s, n, t, was, now, id);
      HandlesOfTakenEntry(s, n, t, was, now, id, s.reg.devices[id].handle.value);
      CopiesOfTakenEntry(s, n, t, was, now, id);
      BirthsFrame(s, n, t, was, now);
    } else {
      PortsFrame(s, n, t, was, Idle);
      StartsFrame(s, n, t, was, Idle);
      HandlesFrame(s, n, t, was, Idle);
      CopiesFrame(s, n, t, was, Idle);
      BirthsFrame(s, n, t, was, Idle);
    }
  }

  lemma DestroyHandleKeepsInv(s: State, step: Step)
    requires Inv(s) && Enabled(s, step) && step.action.DestroyHandle?
    ensures Inv(Next(s, step))
  {
    hide PortsAccounted, StartsMatched, HandlesAccounted, CopiesAccounted, BirthsRecorded,
      WellFormed, EntriesCoherent;
    EntriesAreBorn(s);
    var n, t, was := Next(s, step), step.t, s.pc[step.t];
    StopperHasHandle(s, t);
    PortsFrame(s, n, t, was, n.pc[t]);
    StartsFrame(s, n, t, was, n.pc[t]);
    HandlesOfDestroyed(s, n, t, was, n.pc[t], was.device.handle.value);
    CopiesFrame(s, n, t, was, n.pc[t]);
    BirthsFrame(s, n, t, was, n.pc[t]);
  }

  lemma FreeCopiesKeepsInv(s: State, step: Step)
    requires Inv(s) && Enabled(s, step) && step.action.FreeCopies?
    ensures Inv(Next(s, step))
  {
    hide PortsAccounted, StartsMatched, HandlesAccounted, CopiesAccounted, BirthsRecorded,
      WellFormed, EntriesCoherent;
    EntriesAreBorn(s);
    var n, t, was := Next(s, step), step.t, s.pc[step.t];
    PortsFrame(s, n, t, was, n.pc[t]);
    StartsFrame(s, n, t, was, n.pc[t]);
    HandlesFrame(s, n, t, was, n.pc[t]);
    CopiesOfFreed(s, n, t, was, n.pc[t], was.id);
    BirthsFrame(s, n, t, was, n.pc[t]);
  }

  lemma FreePortKeepsInv(s: State, step: Step)
    requires Inv(s) && Enabled(s, step) && step.action.FreePort?
    ensures Inv(Next(s, step))
  {
    hide PortsAccounted, StartsMatched, HandlesAccounted, CopiesAccounted, BirthsRecorded,
      WellFormed, EntriesCoherent;
    EntriesAreBorn(s);
    var n, t, was := Next(s, step), step.t, s.pc[step.t];
    OwedPortIsHeld(s, t);
    FreePortKeepsCoherent(s.reg, was.port, step.action.kept);
    PortsOfFreedPort(s, n, t, was, Idle, was.port);
    StartsFrame(s, n, t, was, Idle);
    HandlesFrame(s, n, t, was, Idle);
    CopiesFrame(s, n, t, was, Idle);
    BirthsFrame(s, n, t, was, Idle);
  }

  lemma StepKeepsInv(s: State, step: Step)
    requires Inv(s) && Enabled(s, step)
    ensures Inv(Next(s, step))
  {
    match step.action {
      case Reserve(_, _, _, _) => ReserveKeepsInv(s, step);
      case Create(_) => CreateKeepsInv(s, step);
      case DestroyFailed => DestroyFailedKeepsInv(s, step);
      case Rollback(_) => RollbackKeepsInv(s, step);
      case Finalize => FinalizeKeepsInv(s, step);
      case FindByAddress(_) => FindKeepsInv(s, step);
      case Remove(_) => RemoveKeepsInv(s, step);
      case DestroyHandle => DestroyHandleKeepsInv(s, step);
      case FreeCopies => FreeCopiesKeepsInv(s, step);
      case FreePort(_) => FreePortKeepsInv(s, step);
      case _ => QuietStepKeepsInv(s, step);
    }
  }
}
