/**
 What holds in every state that any number of interleaved starts and stops can reach, and over
 whole runs. Nothing here looks at one step's code: all of it follows from the invariant of
 module DeviceProtocol.
 */
module DeviceSafety {
  import opened Common
  import opened PortPool
  import opened DeviceTable
  import opened DeviceProtocol

  /** Each step is enabled in the state the earlier ones lead to. */
  ghost predicate Legal(s: State, steps: seq<Step>)
    decreases steps, 0
  {
    steps != [] ==>
      Legal(s, steps[..|steps| - 1]) && Enabled(After(s, steps[..|steps| - 1]), steps[|steps| - 1])
  }

  ghost function After(s: State, steps: seq<Step>): State
    requires Legal(s, steps)
    decreases steps, 1
  {
    if steps == [] then s else Next(After(s, steps[..|steps| - 1]), steps[|steps| - 1])
  }

  ghost predicate Reachable(s: State) {
    exists first: Port, last: Port, threads: set<Tid>, steps: seq<Step> ::
      first <= last && Legal(Initial(first, last, threads), steps) && s == After(Initial(first, last, threads), steps)
  }

  lemma {:induction false} RunKeepsInv(s: State, steps: seq<Step>)
    requires Inv(s) && Legal(s, steps)
    ensures Inv(After(s, steps))
  {
    hide Inv;
    if steps != [] {
      RunKeepsInv(s, steps[..|steps| - 1]);
      StepKeepsInv(After(s, steps[..|steps| - 1]), steps[|steps| - 1]);
    }
  }

  lemma ReachableIsInv(s: State)
    requires Reachable(s)
    ensures Inv(s)
  {
    hide Inv;
    var first: Port, last: Port, threads: set<Tid>, steps: seq<Step> :|
      first <= last && Legal(Initial(first, last, threads), steps) && s == After(Initial(first, last, threads), steps);
    InitialInv(first, last, threads);
    RunKeepsInv(Initial(first, last, threads), steps);
  }

  // ----- what no step disturbs

  predicate Kept(step: Step) {
    match step.action
    case Reserve(_, _, _, kept) => kept
    case Rollback(kept) => kept
    case FreePort(kept) => kept
    case _ => true
  }

  function Destroys(s: State, step: Step): Option<Handle>
    requires Enabled(s, step)
  {
    var pc := s.pc[step.t];
    if step.action.DestroyFailed? then Some(pc.handle)
    else if step.action.DestroyHandle? then pc.device.handle
    else None
  }

  /** The entry for `id` in `now` is the reservation it was in `before`. */
  ghost predicate SameReservation(before: State, now: State, id: nat) {
    && id in before.reg.devices && id in now.reg.devices
    && now.reg.devices[id].addr == before.reg.devices[id].addr
    && now.reg.devices[id].port == before.reg.devices[id].port
    && now.reg.devices[id].password == before.reg.devices[id].password
  }

  /** Other threads, spent ids, existing reservations, destroyed handles and lost ports stay as they are. */
  ghost predicate Framed(s: State, step: Step, n: State)
    requires Enabled(s, step)
  {
    && n.pc == s.pc[step.t := if step.t in n.pc then n.pc[step.t] else Idle]
    && s.reg.nextId <= n.reg.nextId
    && (forall id :: id < s.reg.nextId && id in n.reg.devices ==> SameReservation(s, n, id))
    && s.dead <= n.dead
    && (Destroys(s, step).Some? ==> Destroys(s, step).value in n.dead)
    && (Kept(step) ==> n.reg.pool.lost == s.reg.pool.lost)
  }

  lemma StepIsFramed(s: State, step: Step)
    requires Enabled(s, step)
    ensures Framed(s, step, Next(s, step))
  {
    hide Next, Framed;
    if step.action.Reserve? { FramedReserve(s, step); }
    else if step.action.Create? || step.action.CreateFails? || step.action.RunFails? || step.action.RunSucceeds? {
      FramedRun(s, step);
    }
    else if step.action.DestroyFailed? || step.action.Rollback? || step.action.Finalize? { FramedStartEnd(s, step); }
    else if step.action.FindByAddress? || step.action.Remove? || step.action.StopHandle? { FramedStop(s, step); }
    else { FramedTeardown(s, step); }
  }

  lemma FramedReserve(s: State, step: Step)
    requires Enabled(s, step) && step.action.Reserve?
    ensures Framed(s, step, Next(s, step))
  {
    hide AddressTaken;
    var a := step.action;
    var (reg, result) := DeviceTable.Reserve(s.reg, a.addr, a.password, a.stored, a.kept);
    assert Next(s, step).reg == reg;
  }

  lemma FramedRun(s: State, step: Step)
    requires Enabled(s, step)
    requires step.action.Create? || step.action.CreateFails? || step.action.RunFails? || step.action.RunSucceeds?
    ensures Framed(s, step, Next(s, step))
  {
  }

  lemma FramedStartEnd(s: State, step: Step)
    requires Enabled(s, step) && (step.action.DestroyFailed? || step.action.Rollback? || step.action.Finalize?)
    ensures Framed(s, step, Next(s, step))
  {
  }

  lemma FramedStop(s: State, step: Step)
    requires Enabled(s, step) && (step.action.FindByAddress? || step.action.Remove? || step.action.StopHandle?)
    ensures Framed(s, step, Next(s, step))
  {
  }

  lemma FramedTeardown(s: State, step: Step)
    requires Enabled(s, step) && (step.action.DestroyHandle? || step.action.FreeCopies? || step.action.FreePort?)
    ensures Framed(s, step, Next(s, step))
  {
  }

  // ----- ports

  datatype PortPlace = InFreeList(index: nat) | OfEntry(id: nat) | OwedBy(t: Tid) | Lost

  ghost predicate IsAt(s: State, p: Port, place: PortPlace) {
    match place
    case InFreeList(i) => i < |s.reg.pool.free| && s.reg.pool.free[i] == p
    case OfEntry(id) => id in s.reg.devices && s.reg.devices[id].port == p
    case OwedBy(t) => t in s.pc && PortOwedBy(s.pc[t]) == Some(p)
    case Lost => p in s.reg.pool.lost
  }

  lemma HeldPortHasOnePlace(s: State, p: Port)
    requires PortsAccounted(s) && p in s.owner
    ensures forall id :: IsAt(s, p, OfEntry(id)) <==> s.owner[p] == AtEntry(id)
    ensures forall t :: IsAt(s, p, OwedBy(t)) <==> s.owner[p] == AtThread(t)
  {
    forall id ensures IsAt(s, p, OfEntry(id)) <==> s.owner[p] == AtEntry(id) {
      assert id in s.reg.devices ==> p in s.owner;
    }
    forall t ensures IsAt(s, p, OwedBy(t)) <==> s.owner[p] == AtThread(t) {
      assert t in s.pc ==> p in s.owner;
    }
  }

  lemma OtherPortHasNoHolder(s: State, p: Port)
    requires PortsAccounted(s) && p !in s.owner
    ensures forall id :: !IsAt(s, p, OfEntry(id))
    ensures forall t :: !IsAt(s, p, OwedBy(t))
  {
    forall id ensures !IsAt(s, p, OfEntry(id)) {
      assert id in s.reg.devices ==> p !in s.owner;
    }
    forall t ensures !IsAt(s, p, OwedBy(t)) {
      assert t in s.pc ==> p !in s.owner;
    }
  }

  lemma PoolPlaces(pool: Pool, p: Port)
    requires WellFormed(pool)
    ensures Issued(pool, p) <==> p in pool.free || p in pool.held || p in pool.lost
    ensures !(p in pool.free && p in pool.held) && !(p in pool.free && p in pool.lost)
    ensures !(p in pool.held && p in pool.lost)
    ensures forall i, j :: 0 <= i < |pool.free| && 0 <= j < |pool.free| && pool.free[i] == p == pool.free[j] ==> i == j
  {
  }

  lemma PlacesAreDisjoint(s: State, p: Port)
    requires PortsAccounted(s) && WellFormed(s.reg.pool)
    ensures Issued(s.reg.pool, p) <==> exists place :: IsAt(s, p, place)
    ensures forall one, other :: IsAt(s, p, one) && IsAt(s, p, other) ==> one == other
  {
    hide WellFormed, PortsAccounted;
    var pool := s.reg.pool;
    PoolPlaces(pool, p);
    OwnersAreHeld(s, p);
    if p in s.owner {
      HeldPortHasOnePlace(s, p);
      assert IsAt(s, p, if s.owner[p].AtEntry? then OfEntry(s.owner[p].id) else OwedBy(s.owner[p].t));
    } else {
      OtherPortHasNoHolder(s, p);
      if p in pool.free {
        var i :| 0 <= i < |pool.free| && pool.free[i] == p;
        assert IsAt(s, p, InFreeList(i));
      } else if p in pool.lost {
        assert IsAt(s, p, Lost);
      }
    }
  }

  lemma OwnersAreHeld(s: State, p: Port)
    requires PortsAccounted(s)
    ensures p in s.owner <==> p in s.reg.pool.held
  {
  }

  /**
   The ports issued so far are split exactly into the free list, the entries, the ports that
   stopping threads still owe, and those lost to a failed growth: every issued port is in one
   of these places and in one only, and a port never issued is in none.
   */
  lemma IssuedPortsArePartitioned(s: State, p: Port)
    requires Reachable(s)
    ensures Issued(s.reg.pool, p) <==> exists place :: IsAt(s, p, place)
    ensures forall one, other :: IsAt(s, p, one) && IsAt(s, p, other) ==> one == other
  {
    hide Reachable, IsAt, PortsAccounted, StartsMatched, HandlesAccounted, CopiesAccounted, BirthsRecorded, WellFormed;
    ReachableIsInv(s);
    PlacesAreDisjoint(s, p);
  }

  /** No port is lost as long as the free list can grow whenever it has to. */
  lemma {:induction false} NoPortIsLostWithoutFailure(s: State, steps: seq<Step>)
    requires Legal(s, steps) && s.reg.pool.lost == {} && forall step :: step in steps ==> Kept(step)
    ensures After(s, steps).reg.pool.lost == {}
  {
    hide Next, Enabled;
    if steps != [] {
      NoPortIsLostWithoutFailure(s, steps[..|steps| - 1]);
      StepIsFramed(After(s, steps[..|steps| - 1]), steps[|steps| - 1]);
    }
  }

  /** PORT_EXHAUSTED is the answer exactly when every port of the range is in use or lost. */
  lemma ExhaustedIffEveryPortInUse(s: State)
    requires Reachable(s)
    ensures Exhausted(s.reg.pool) <==>
      forall p: Port :: s.reg.pool.first <= p <= s.reg.pool.last ==>
        (exists id :: IsAt(s, p, OfEntry(id))) || (exists t :: IsAt(s, p, OwedBy(t))) || IsAt(s, p, Lost)
  {
    ReachableIsInv(s);
    ExhaustedIffWholeRangeTaken(s.reg.pool);
    forall p: Port
      ensures p in s.reg.pool.held || p in s.reg.pool.lost <==>
        (exists id :: IsAt(s, p, OfEntry(id))) || (exists t :: IsAt(s, p, OwedBy(t))) || IsAt(s, p, Lost)
    {
      HeldIffSomeoneHasIt(s, p);
    }
  }

  lemma HeldIffSomeoneHasIt(s: State, p: Port)
    requires PortsAccounted(s)
    ensures p in s.reg.pool.held <==> (exists id :: IsAt(s, p, OfEntry(id))) || (exists t :: IsAt(s, p, OwedBy(t)))
  {
    assert p in s.owner <==> p in s.reg.pool.held;
    if p in s.owner {
      HeldPortHasOnePlace(s, p);
      assert if s.owner[p].AtEntry? then IsAt(s, p, OfEntry(s.owner[p].id)) else IsAt(s, p, OwedBy(s.owner[p].t));
    } else {
      OtherPortHasNoHolder(s, p);
    }
  }

  // ----- handles

  /** Who keeps the port a live handle listens on: its entry, or the thread tearing it down. */
  lemma LiveHandleKeepsItsPort(s: State, h: Handle)
    requires Inv(s) && h in s.handles
    ensures s.handles[h].port in s.owner
    ensures var place := s.owner[s.handles[h].port];
      if place.AtEntry? then place.id == s.handles[h].id && place.id in s.reg.devices
        && if s.reg.devices[place.id].running then s.reg.devices[place.id].handle == Some(h)
           else place.id in s.starter && s.starter[place.id] in s.pc && HandleOf(s.pc[s.starter[place.id]]) == Some(h)
      else place.t in s.pc && HandleOf(s.pc[place.t]) == Some(h)
  {
    hide CopiesAccounted, BirthsRecorded, WellFormed;
    var live := s.handles[h];
    assert live.port in s.owner <==> live.port in s.reg.pool.held;
    match live.place {
      case AtEntry(id) => assert id in s.reg.devices && live.port in s.owner;
      case AtThread(t) =>
        assert t in s.pc && h in s.handles;
        if s.pc[t].Taken? || s.pc[t].Stopped? {
          assert t in s.pc && live.port in s.owner;
        } else {
          assert t in s.pc && live.id in s.starter;
          assert live.id in s.reg.devices && live.port in s.owner;
        }
    }
  }

  /** Two live handles, whether starting, running or being torn down, never share a port. */
  lemma LiveHandlesHaveDistinctPorts(s: State, h: Handle, other: Handle)
    requires Reachable(s) && h in s.handles && other in s.handles && h != other
    ensures s.handles[h].port != s.handles[other].port
    ensures s.handles[h].port !in s.reg.pool.free
  {
    ReachableIsInv(s);
    LiveHandleKeepsItsPort(s, h);
    LiveHandleKeepsItsPort(s, other);
  }

  /**
   The registry keeps two entries off one address, not two handles: an old handle may still be
   torn down while a new one starts. At most one of them belongs to an entry.
   */
  lemma HandlesOfOneAddress(s: State, h: Handle, other: Handle)
    requires Reachable(s) && h in s.handles && other in s.handles && h != other
    ensures s.handles[h].id in s.born && s.handles[other].id in s.born
    ensures s.born[s.handles[h].id] == s.born[s.handles[other].id] ==>
      s.handles[h].id !in s.reg.devices || s.handles[other].id !in s.reg.devices
  {
    LiveHandlesHaveDistinctPorts(s, h, other);
    ReachableIsInv(s);
    hide PortsAccounted, StartsMatched, CopiesAccounted, WellFormed;
    if s.handles[h].id in s.reg.devices && s.handles[other].id in s.reg.devices {
      assert s.handles[h].id in s.reg.devices && h in s.handles;
      assert s.handles[other].id in s.reg.devices && other in s.handles;
    }
  }

  /** A stop that has taken the device of this address and not yet destroyed its handle. */
  predicate TearsDown(pc: Pc, addr: Address) {
    (pc.Taken? || pc.Stopped?) && pc.device.addr == addr
  }

  ghost predicate HasAddress(s: State, h: Handle, addr: Address) {
    h in s.handles && s.handles[h].id in s.born && s.born[s.handles[h].id] == addr
  }

  lemma TornDownHandleIsLive(s: State, u: Tid, addr: Address)
    requires HandlesAccounted(s) && BirthsRecorded(s) && u in s.pc && TearsDown(s.pc[u], addr)
    ensures exists g :: HasAddress(s, g, addr)
  {
    StopperHasHandle(s, u);
    var g := s.pc[u].device.handle.value;
    assert u in s.pc && g in s.handles;
    assert AddressMatchesBirth(s.born, s.pc[u]);
    assert HasAddress(s, g, addr);
  }

  lemma HandleAtItsEntry(s: State, g: Handle)
    requires HandlesAccounted(s) && g in s.handles && s.handles[g].place.AtEntry?
    ensures s.handles[g].id in s.reg.devices && s.reg.devices[s.handles[g].id].handle == Some(g)
  {
    assert s.handles[g].place.id in s.reg.devices && g in s.handles;
  }

  /** With its address reserved for a start that has no handle yet, a live handle is being torn down. */
  lemma OtherHandleIsTornDown(s: State, t: Tid, g: Handle)
    requires StartsMatched(s) && HandlesAccounted(s) && BirthsRecorded(s) && EntriesCoherent(s.reg)
    requires t in s.pc && s.pc[t].Reserved? && s.pc[t].id in s.reg.devices
    requires HasAddress(s, g, s.reg.devices[s.pc[t].id].addr)
    ensures exists u :: u in s.pc && TearsDown(s.pc[u], s.reg.devices[s.pc[t].id].addr)
  {
    var id, live := s.pc[t].id, s.handles[g];
    StarterFindsItsEntry(s, t);
    match live.place
    case AtEntry(e) =>
      HandleAtItsEntry(s, g);
      assert false;
    case AtThread(u) =>
      assert u in s.pc && g in s.handles;
      if StartOf(s.pc[u]).Some? {
        StarterFindsItsEntry(s, u);
        assert t in s.pc && id in s.starter;
        assert u in s.pc && id in s.starter;
      }
      assert AddressMatchesBirth(s.born, s.pc[u]);
      assert TearsDown(s.pc[u], s.reg.devices[id].addr);
  }

  lemma EntryWasBorn(s: State, id: nat)
    requires BirthsRecorded(s) && id in s.reg.devices
    ensures id in s.born && s.born[id] == s.reg.devices[id].addr
  {
  }

  /**
   Exactly when one address gets two live handles: a start creates its handle beside another live
   one of the same address if and only if some stop of that address has not destroyed its own yet.
   */
  lemma SecondHandleIffStopUnderWay(s: State, t: Tid, h: Handle)
    requires Reachable(s) && Enabled(s, Step(t, Create(h)))
    ensures s.pc[t].id in s.born
    ensures var addr := s.born[s.pc[t].id];
      (exists g :: HasAddress(s, g, addr)) <==> (exists u :: u in s.pc && TearsDown(s.pc[u], addr))
    ensures HasAddress(Next(s, Step(t, Create(h))), h, s.born[s.pc[t].id])
  {
    hide HandlesAccounted, StartsMatched, PortsAccounted, CopiesAccounted, BirthsRecorded, WellFormed;
    hide EntriesCoherent, Reachable;
    ReachableIsInv(s);
    StarterFindsItsEntry(s, t);
    EntryWasBorn(s, s.pc[t].id);
    var addr := s.reg.devices[s.pc[t].id].addr;
    if g :| HasAddress(s, g, addr) { OtherHandleIsTornDown(s, t, g); }
    if u :| u in s.pc && TearsDown(s.pc[u], addr) { TornDownHandleIsLive(s, u, addr); }
  }

  // ----- mid-start entries

  /** An entry is mid-start exactly while one thread, and one only, is inside its start phase. */
  lemma MidStartIffSomeThreadIsStarting(s: State, id: nat)
    requires Reachable(s)
    ensures id in s.reg.devices && !s.reg.devices[id].running <==>
      exists t :: t in s.pc && StartOf(s.pc[t]) == Some(id)
    ensures forall t, u :: t in s.pc && u in s.pc && StartOf(s.pc[t]) == StartOf(s.pc[u]) == Some(id) ==> t == u
  {
    ReachableIsInv(s);
    StartersMatchThreads(s, id);
  }

  lemma StartersMatchThreads(s: State, id: nat)
    requires StartsMatched(s)
    ensures id in s.reg.devices && !s.reg.devices[id].running <==>
      exists t :: t in s.pc && StartOf(s.pc[t]) == Some(id)
    ensures forall t, u :: t in s.pc && u in s.pc && StartOf(s.pc[t]) == StartOf(s.pc[u]) == Some(id) ==> t == u
  {
    if id in s.starter {
      assert s.starter[id] in s.pc && id in s.starter;
      assert StartOf(s.pc[s.starter[id]]) == Some(id);
    }
    forall t | t in s.pc && StartOf(s.pc[t]) == Some(id) ensures id in s.starter && s.starter[id] == t {
      assert t in s.pc && id in s.starter;
    }
  }

  // ----- nothing is used after it is freed, or freed twice, or looked for in vain

  /** Some live handle still borrows the string copies made for device `id`. */
  ghost predicate Borrowed(s: State, id: nat) {
    exists h :: h in s.handles && s.handles[h].id == id
  }

  /** What would go wrong if the step were taken in this state. */
  ghost predicate Faults(s: State, step: Step)
    requires Enabled(s, step)
  {
    var pc := s.pc[step.t];
    match step.action
    case RunFails => pc.handle !in s.handles || pc.id !in s.copies
    case RunSucceeds => pc.handle !in s.handles || pc.id !in s.copies
    case DestroyFailed => pc.handle !in s.handles || pc.id !in s.copies
    case Rollback(_) =>
      pc.id !in s.reg.devices || s.reg.devices[pc.id].running || s.reg.devices[pc.id].port !in s.reg.pool.held
      || pc.id !in s.copies || Borrowed(s, pc.id)
    case Finalize => pc.id !in s.reg.devices || s.reg.devices[pc.id].running || pc.handle !in s.handles
    case StopHandle => pc.device.handle == None || pc.device.handle.value !in s.handles || pc.id !in s.copies
    case DestroyHandle => pc.device.handle == None || pc.device.handle.value !in s.handles || pc.id !in s.copies
    case FreeCopies => pc.id !in s.copies || Borrowed(s, pc.id)
    case FreePort(_) => pc.port !in s.reg.pool.held
    case _ => false
  }

  /** The copies a live handle borrows stay until it is destroyed, and belong with the handle. */
  lemma CopiesOutliveTheirHandle(s: State, h: Handle)
    requires Inv(s) && h in s.handles
    ensures s.handles[h].id in s.copies
    ensures var place := s.copies[s.handles[h].id];
      if place.AtEntry? then
        s.handles[h].id in s.reg.devices
        && (s.reg.devices[s.handles[h].id].running
            || exists t :: t in s.pc && HandleOf(s.pc[t]) == Some(h) && StartOf(s.pc[t]) == Some(s.handles[h].id))
      else place.t in s.pc && HandleOf(s.pc[place.t]) == Some(h)
  {
    hide PortsAccounted, BirthsRecorded, WellFormed;
    var live := s.handles[h];
    match live.place {
      case AtEntry(id) => assert id in s.reg.devices && h in s.handles;
      case AtThread(t) =>
        assert t in s.pc && h in s.handles;
        if s.pc[t].Taken? || s.pc[t].Stopped? {
          assert t in s.pc && live.id in s.copies;
        } else {
          assert t in s.pc && live.id in s.starter;
        }
    }
  }

  lemma UnwindingBorrowsNothing(s: State, t: Tid)
    requires Inv(s) && t in s.pc && (s.pc[t].Unwinding? || s.pc[t].Destroyed?)
    ensures !Borrowed(s, s.pc[t].id)
    ensures s.pc[t].id in s.copies
  {
    hide PortsAccounted, HandlesAccounted, BirthsRecorded, WellFormed;
    var id := s.pc[t].id;
    assert s.pc[t].Unwinding? ==> t in s.pc && id in s.starter;
    assert s.pc[t].Destroyed? ==> t in s.pc && id in s.copies;
    forall h | h in s.handles ensures s.handles[h].id != id {
      CopiesOutliveTheirHandle(s, h);
    }
  }

  /**
   In every reachable state every step finds what it needs: live handles, unfreed copies, its own
   entry still mid-start, a port that is really held; and copies are freed only when no live
   handle borrows them.
   */
  lemma NoReachableStepFaults(s: State, step: Step)
    requires Reachable(s) && Enabled(s, step)
    ensures !Faults(s, step)
  {
    hide PortsAccounted, StartsMatched, HandlesAccounted, CopiesAccounted, BirthsRecorded, WellFormed, EntriesCoherent;
    hide Reachable, Borrowed;
    ReachableIsInv(s);
    var t, pc := step.t, s.pc[step.t];
    if StartOf(pc).Some? { StarterFindsItsEntry(s, t); }
    if HandleOf(pc).Some? { HandleInHandIsLive(s, t); }
    if pc.Unwinding? || pc.Destroyed? { UnwindingBorrowsNothing(s, t); }
    if pc.Taken? || pc.Stopped? { StopperHasHandle(s, t); HandleInHandIsLive(s, t); }
    if pc.Unwinding? { EntryPortIsHeld(s.reg, pc.id); }
    if pc.CopiesFreed? { OwedPortIsHeld(s, t); }
  }

  lemma HandleInHandIsLive(s: State, t: Tid)
    requires Inv(s) && t in s.pc && HandleOf(s.pc[t]).Some?
    ensures HandleOf(s.pc[t]).value in s.handles && s.pc[t].id in s.copies
  {
    hide PortsAccounted, StartsMatched, CopiesAccounted, BirthsRecorded, WellFormed, EntriesCoherent;
    var h := HandleOf(s.pc[t]).value;
    assert t in s.pc && h in s.handles;
    CopiesOutliveTheirHandle(s, h);
  }

  // ----- when nothing is under way

  ghost predicate Quiet(s: State) {
    forall t :: t in s.pc ==> s.pc[t] == Idle
  }

  ghost predicate SomeEntryRuns(s: State, h: Handle) {
    exists id :: id in s.reg.devices && s.reg.devices[id].handle == Some(h)
  }

  ghost predicate SomeEntryHas(s: State, p: Port) {
    exists id :: id in s.reg.devices && s.reg.devices[id].port == p
  }

  lemma ThreadHasHandle(s: State, h: Handle)
    requires HandlesAccounted(s) && h in s.handles && s.handles[h].place.AtThread?
    ensures s.handles[h].place.t in s.pc && s.pc[s.handles[h].place.t] != Idle
  {
    assert s.handles[h].place.t in s.pc && h in s.handles;
  }

  lemma ThreadHasCopies(s: State, id: nat)
    requires CopiesAccounted(s) && id in s.copies && s.copies[id].AtThread?
    ensures s.copies[id].t in s.pc && s.pc[s.copies[id].t] != Idle
  {
    assert s.copies[id].t in s.pc && id in s.copies;
  }

  lemma QuietHandles(s: State, h: Handle)
    requires HandlesAccounted(s) && Quiet(s)
    ensures h in s.handles <==> SomeEntryRuns(s, h)
  {
    if h in s.handles && s.handles[h].place.AtThread? {
      ThreadHasHandle(s, h);
      assert false;
    }
    if h in s.handles {
      assert s.handles[h].place.id in s.reg.devices && h in s.handles;
    }
    forall id | id in s.reg.devices && s.reg.devices[id].handle == Some(h) ensures h in s.handles {
      assert id in s.reg.devices && h in s.handles;
    }
  }

  lemma QuietCopies(s: State, id: nat)
    requires CopiesAccounted(s) && Quiet(s)
    ensures id in s.copies <==> id in s.reg.devices
  {
    if id in s.copies && s.copies[id].AtThread? {
      ThreadHasCopies(s, id);
      assert false;
    }
  }

  lemma QuietPorts(s: State, p: Port)
    requires PortsAccounted(s) && Quiet(s)
    ensures p in s.reg.pool.held <==> SomeEntryHas(s, p)
  {
    HeldIffSomeoneHasIt(s, p);
    forall id ensures IsAt(s, p, OfEntry(id)) <==> id in s.reg.devices && s.reg.devices[id].port == p {
    }
    forall t ensures !IsAt(s, p, OwedBy(t)) {
    }
  }

  lemma QuietEntries(s: State, id: nat)
    requires StartsMatched(s) && Quiet(s)
    ensures id in s.reg.devices ==> s.reg.devices[id].running
  {
    StartersMatchThreads(s, id);
  }

  /** With every thread idle, what is left is exactly what the running entries own. */
  lemma QuietStateOwnsOnlyRunningDevices(s: State)
    requires Reachable(s) && Quiet(s)
    ensures forall id :: id in s.reg.devices ==> s.reg.devices[id].running
    ensures forall h :: h in s.handles <==> SomeEntryRuns(s, h)
    ensures forall id :: id in s.copies <==> id in s.reg.devices
    ensures forall p :: p in s.reg.pool.held <==> SomeEntryHas(s, p)
  {
    ReachableIsInv(s);
    hide Reachable, PortsAccounted, StartsMatched, HandlesAccounted, CopiesAccounted, BirthsRecorded, Coherent,
      Quiet, SomeEntryRuns, SomeEntryHas;
    forall h ensures h in s.handles <==> SomeEntryRuns(s, h) { QuietHandles(s, h); }
    forall id ensures id in s.copies <==> id in s.reg.devices { QuietCopies(s, id); }
    forall id ensures id in s.reg.devices ==> s.reg.devices[id].running { QuietEntries(s, id); }
    forall p ensures p in s.reg.pool.held <==> SomeEntryHas(s, p) { QuietPorts(s, p); }
  }

  // ----- over whole runs

  /** An id in the table belongs to the reservation that first got it, for as long as it is there. */
  lemma {:induction false} IdsAreNeverReused(s: State, steps: seq<Step>, id: nat)
    requires Legal(s, steps) && id < s.reg.nextId
    ensures id < After(s, steps).reg.nextId
    ensures id in After(s, steps).reg.devices ==> SameReservation(s, After(s, steps), id)
  {
    hide Next, Enabled;
    if steps != [] {
      IdsAreNeverReused(s, steps[..|steps| - 1], id);
      StepIsFramed(After(s, steps[..|steps| - 1]), steps[|steps| - 1]);
    }
  }

  lemma {:induction false} DeadHandlesStayDead(s: State, steps: seq<Step>)
    requires Legal(s, steps)
    ensures s.dead <= After(s, steps).dead
  {
    hide Next, Enabled;
    if steps != [] {
      DeadHandlesStayDead(s, steps[..|steps| - 1]);
      StepIsFramed(After(s, steps[..|steps| - 1]), steps[|steps| - 1]);
    }
  }

  lemma {:induction false} OtherStepsLeaveThreadAlone(s: State, steps: seq<Step>, t: Tid)
    requires Legal(s, steps) && t in s.pc && forall step :: step in steps ==> step.t != t
    ensures t in After(s, steps).pc && After(s, steps).pc[t] == s.pc[t]
  {
    hide Next, Enabled;
    if steps != [] {
      OtherStepsLeaveThreadAlone(s, steps[..|steps| - 1], t);
      StepIsFramed(After(s, steps[..|steps| - 1]), steps[|steps| - 1]);
    }
  }

  /** The step takes device `id` out of the table to tear it down. */
  predicate Takes(s: State, step: Step, id: nat) {
    step.action == Remove(id) && id in s.reg.devices && s.reg.devices[id].running
  }

  /** Of all the stops of one device id, over a whole run, at most one gets to tear it down. */
  lemma AtMostOneStopSucceeds(s: State, step: Step, id: nat, later: seq<Step>, again: Step)
    requires Reachable(s) && Enabled(s, step) && Takes(s, step, id) && Legal(Next(s, step), later)
    ensures !Takes(After(Next(s, step), later), again, id)
  {
    ReachableIsInv(s);
    TakenIsGone(s, step, id);
    hide Next, Enabled, Inv, Reachable;
    IdsAreNeverReused(Next(s, step), later, id);
  }

  lemma TakenIsGone(s: State, step: Step, id: nat)
    requires Inv(s) && Enabled(s, step) && Takes(s, step, id)
    ensures id !in Next(s, step).reg.devices && id < Next(s, step).reg.nextId
  {
    hide PortsAccounted, StartsMatched, HandlesAccounted, CopiesAccounted, BirthsRecorded, WellFormed;
  }

  /** No handle is destroyed twice over a run; QuietStateOwnsOnlyRunningDevices: none is left over. */
  lemma NoHandleIsDestroyedTwice(s: State, step: Step, h: Handle, later: seq<Step>, again: Step)
    requires Reachable(s) && Enabled(s, step) && Destroys(s, step) == Some(h)
    requires Legal(Next(s, step), later) && Enabled(After(Next(s, step), later), again)
    ensures Destroys(After(Next(s, step), later), again) != Some(h)
  {
    ReachableIsInv(s);
    hide Next, Enabled, Inv, Destroys, Reachable;
    StepIsFramed(s, step);
    StepKeepsInv(s, step);
    RunKeepsInv(Next(s, step), later);
    DeadHandlesStayDead(Next(s, step), later);
    OnlyLiveHandlesAreDestroyed(After(Next(s, step), later), again);
  }

  lemma OnlyLiveHandlesAreDestroyed(s: State, step: Step)
    requires Inv(s) && Enabled(s, step)
    ensures Destroys(s, step).Some? ==> Destroys(s, step).value in s.handles && Destroys(s, step).value !in s.dead
  {
    hide PortsAccounted, StartsMatched, CopiesAccounted, BirthsRecorded, Coherent;
    if Destroys(s, step).Some? { assert step.t in s.pc && Destroys(s, step).value in s.handles; }
  }

  /**
   A stop by address looks the id up in one critical section and removes it in another. The
   device it removes is the very reservation that held the address when it was looked up.
   */
  lemma StopByAddressTakesTheDeviceItFound(s: State, t: Tid, addr: Address, others: seq<Step>, id: nat)
    requires Reachable(s) && Enabled(s, Step(t, FindByAddress(addr)))
    requires var found := Next(s, Step(t, FindByAddress(addr)));
      && Legal(found, others) && (forall step :: step in others ==> step.t != t)
      && var n := After(found, others);
         Enabled(n, Step(t, Remove(id))) && n.pc[t].Resolved? && Takes(n, Step(t, Remove(id)), id)
    ensures var n := After(Next(s, Step(t, FindByAddress(addr))), others);
      SameReservation(s, n, id) && s.reg.devices[id].addr == addr
  {
    ReachableIsInv(s);
    LookupFindsHolder(s, Step(t, FindByAddress(addr)));
    var found := Next(s, Step(t, FindByAddress(addr)));
    hide Next, Enabled, Inv, Legal, After, Reachable;
    OtherStepsLeaveThreadAlone(found, others, t);
    ResolvedIdIsRemoved(After(found, others), Step(t, Remove(id)));
    IdsAreNeverReused(found, others, id);
  }

  lemma ResolvedIdIsRemoved(s: State, step: Step)
    requires Enabled(s, step) && step.action.Remove? && s.pc[step.t].Resolved?
    ensures s.pc[step.t].id == step.action.id
  {
  }

  lemma LookupFindsHolder(s: State, step: Step)
    requires Inv(s) && Enabled(s, step) && step.action.FindByAddress?
    ensures step.t in Next(s, step).pc && Next(s, step).reg == s.reg
    ensures var now := Next(s, step).pc[step.t];
      now.Resolved? ==>
        now.id in s.reg.devices && now.id < s.reg.nextId && s.reg.devices[now.id].addr == step.action.addr
  {
    hide PortsAccounted, StartsMatched, HandlesAccounted, CopiesAccounted, BirthsRecorded, WellFormed;
  }

  // ----- what the ends of a start leave behind

  /**
   A failed start ends in Rollback: every other entry is as it was, the address is free to be
   started again, the port is back in the pool unless the free list could not grow, and nothing
   the start made is live.
   */
  lemma FailedStartLeavesNothing(s: State, step: Step)
    requires Reachable(s) && Enabled(s, step) && step.action.Rollback?
    ensures var id, n := s.pc[step.t].id, Next(s, step);
      && id in s.reg.devices
      && n.reg.devices == s.reg.devices - {id}
      && !AddressTaken(n.reg, s.reg.devices[id].addr)
      && n.reg.pool.held == s.reg.pool.held - {s.reg.devices[id].port}
      && (step.action.kept ==> s.reg.devices[id].port in n.reg.pool.free)
      && id !in n.copies && !Borrowed(n, id)
  {
    hide Inv, Reachable, AddressTaken, Borrowed, EntriesCoherent;
    NoReachableStepFaults(s, step);
    EntriesStayCoherent(s);
    RollbackFreesAddress(s.reg, s.pc[step.t].id, step.action.kept);
    SameHandlesBorrowTheSame(s, Next(s, step), s.pc[step.t].id);
  }

  lemma EntriesStayCoherent(s: State)
    requires Reachable(s)
    ensures EntriesCoherent(s.reg)
  {
    ReachableIsInv(s);
  }

  lemma SameHandlesBorrowTheSame(s: State, n: State, id: nat)
    requires n.handles == s.handles
    ensures Borrowed(n, id) <==> Borrowed(s, id)
  {
  }

  lemma RollbackFreesAddress<H>(r: Registry<H>, id: nat, kept: bool)
    requires EntriesCoherent(r) && id in r.devices
    ensures !AddressTaken(DeviceTable.Rollback(r, id, kept), r.devices[id].addr)
  {
  }

  /** A start that succeeds leaves a running entry whose live handle has exactly the entry's port. */
  lemma SucceededStartIsRunning(s: State, step: Step)
    requires Reachable(s) && Enabled(s, step) && step.action.Finalize?
    ensures var pc, n := s.pc[step.t], Next(s, step);
      && pc.id in s.reg.devices
      && n.reg.devices == s.reg.devices[pc.id := s.reg.devices[pc.id].(running := true, handle := Some(pc.handle))]
      && n.reg.devices[pc.id].port == pc.port
      && pc.handle in s.handles && n.handles[pc.handle] == Live(pc.id, pc.port, AtEntry(pc.id))
  {
    hide Reachable, PortsAccounted, StartsMatched, HandlesAccounted, CopiesAccounted, BirthsRecorded;
    hide WellFormed, EntriesCoherent;
    NoReachableStepFaults(s, step);
    ReachableIsInv(s);
    StarterFindsItsEntry(s, step.t);
  }

  // ----- the limit of the address check

  lemma Extend(s: State, steps: seq<Step>, step: Step)
    requires Legal(s, steps) && Enabled(After(s, steps), step)
    ensures Legal(s, steps + [step]) && After(s, steps + [step]) == Next(After(s, steps), step)
  {
    assert (steps + [step])[..|steps|] == steps;
  }

  lemma Then(a: State, s: State, steps: seq<Step>, step: Step) returns (r: (State, seq<Step>))
    requires Legal(a, steps) && s == After(a, steps) && Enabled(s, step)
    ensures r == (Next(s, step), steps + [step]) && Legal(a, r.1) && r.0 == After(a, r.1)
  {
    Extend(a, steps, step);
    r := (Next(s, step), steps + [step]);
  }

  lemma StartOneDevice(first: Port, last: Port, addr: Address) returns (r: (State, seq<Step>))
    requires first < last
    ensures Legal(Initial(first, last, {0, 1}), r.1) && r.0 == After(Initial(first, last, {0, 1}), r.1)
    ensures var s := r.0;
      && s.pc == map[0 := Ran(1, first, 0), 1 := Idle]
      && s.reg.devices == map[1 := Device(first, false, addr, None, None)] && s.reg.nextId == 2
      && s.reg.pool.free == [] && s.reg.pool.next == first as int + 1 && s.reg.pool.last == last
      && s.born == map[1 := addr] && s.handles == map[0 := Live(1, first, AtThread(0))] && s.dead == {}
  {
    hide Legal, After;
    var a := Initial(first, last, {0, 1});
    assert Legal(a, []) && After(a, []) == a by { EmptyRun(a); }
    r := Then(a, a, [], Step(0, Reserve(addr, None, true, true)));
    r := Then(a, r.0, r.1, Step(0, Create(0)));
    r := Then(a, r.0, r.1, Step(0, RunSucceeds));
  }

  lemma EmptyRun(s: State)
    ensures Legal(s, []) && After(s, []) == s
  {
  }

  lemma BeginToStopIt(first: Port, last: Port, addr: Address) returns (r: (State, seq<Step>))
    requires first < last
    ensures Legal(Initial(first, last, {0, 1}), r.1) && r.0 == After(Initial(first, last, {0, 1}), r.1)
    ensures var s := r.0;
      && 1 in s.pc && s.pc[1] == Idle && s.reg.devices == map[] && s.reg.nextId == 2
      && s.reg.pool.free == [] && s.reg.pool.next == first as int + 1 && s.reg.pool.last == last
      && s.born == map[1 := addr] && s.handles == map[0 := Live(1, first, AtThread(0))] && s.dead == {}
  {
    hide Legal, After;
    var a := Initial(first, last, {0, 1});
    r := StartOneDevice(first, last, addr);
    r := Then(a, r.0, r.1, Step(0, Finalize));
    r := Then(a, r.0, r.1, Step(0, Remove(1)));
  }

  /**
   One address, two live handles: thread 0 starts a device and begins to stop it; while its
   handle is still alive thread 1 starts the same address again.
   */
  lemma OneAddressCanHaveTwoLiveHandles(first: Port, last: Port, addr: Address) returns (s: State)
    requires first < last
    ensures Reachable(s) && 0 in s.handles && 1 in s.handles
    ensures s.handles[0].id in s.born && s.handles[1].id in s.born
    ensures s.born[s.handles[0].id] == s.born[s.handles[1].id] == addr
  {
    var a := Initial(first, last, {0, 1});
    var r := BeginToStopIt(first, last, addr);
    hide Legal, After;
    r := Then(a, r.0, r.1, Step(1, Reserve(addr, None, true, true)));
    r := Then(a, r.0, r.1, Step(1, Create(1)));
    s := r.0;
  }
}
