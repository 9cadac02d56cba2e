/**
 What holds of the scans in every reachable state and over whole runs, and what exactly it takes
 for a call to use a worker that another one has destroyed.
 */
module ScanSafety {
  import opened Common
  import opened ScanTable
  import opened ScanProtocol

  // ----- runs

  ghost predicate Legal(s: State, steps: seq<Step>)
    decreases steps, 0
  {
    steps != [] ==>
      Legal(s, steps[..|steps| - 1]) && Enabled(After(s, steps[..|steps| - 1]), steps[|steps| - 1])
  }

  ghost function After(s: State, steps: seq<Step>): State
    requires Legal(s, steps)
    decreases steps, 1
  {
    if steps == [] then s else Next(After(s, steps[..|steps| - 1]), steps[|steps| - 1])
  }

  ghost predicate Reachable(s: State) {
    exists threads: set<Tid>, steps: seq<Step> :: Legal(Initial(threads), steps) && s == After(Initial(threads), steps)
  }

  lemma {:induction false} RunKeepsInv(s: State, steps: seq<Step>)
    requires Inv(s) && Legal(s, steps)
    ensures Inv(After(s, steps))
  {
    hide Inv;
    if steps != [] {
      RunKeepsInv(s, steps[..|steps| - 1]);
      StepKeepsInv(After(s, steps[..|steps| - 1]), steps[|steps| - 1]);
    }
  }

  lemma InitialInv(threads: set<Tid>)
    ensures Inv(Initial(threads))
  {
  }

  lemma ReachableIsInv(s: State)
    requires Reachable(s)
    ensures Inv(s)
  {
    hide Inv;
    var threads: set<Tid>, steps: seq<Step> :| Legal(Initial(threads), steps) && s == After(Initial(threads), steps);
    InitialInv(threads);
    RunKeepsInv(Initial(threads), steps);
  }

  // ----- the dispatcher, however the calls overlap

  /** A scan that is active can publish: the dispatcher is up. Without one it goes down once nobody owes a stop. */
  lemma DispatcherFollowsActiveScans(s: State)
    requires Reachable(s)
    ensures s.scans.active != map[] ==> s.dispatcher == Up
    ensures s.scans.active == map[] && (forall t :: t in s.pc ==> !OwesStop(s.pc[t])) ==> s.dispatcher == Down
  {
    hide Reachable, Inv;
    ReachableIsInv(s);
    assert DispatcherInv(s) by { InvGivesDispatcherInv(s); }
  }

  lemma InvGivesDispatcherInv(s: State)
    requires Inv(s)
    ensures DispatcherInv(s)
  {
  }

  /**
   The price of stopping the dispatcher without the lock: a first scan whose server could bind is
   nevertheless refused exactly while some thread still owes the stop of the one before.
   */
  lemma StartRefusedIffStopOwed(s: State, step: Step)
    requires Reachable(s) && Enabled(s, step) && step.action == Add(true, true)
    ensures Next(s, step).pc[step.t].Dropping? <==> exists t :: t in s.pc && OwesStop(s.pc[t])
    ensures !Next(s, step).pc[step.t].Dropping? ==> Next(s, step).pc[step.t] == Registered(s.pc[step.t].id)
  {
    hide Reachable, Inv;
    ReachableIsInv(s);
    assert DispatcherInv(s) by { InvGivesDispatcherInv(s); }
    if s.owing.Some? { assert OwesStop(s.pc[s.owing.value]); }
  }

  // ----- the workers, however the calls overlap

  /** Somebody has this worker in hand and is still to destroy it. */
  ghost predicate InHand(s: State, id: nat) {
    exists u :: u in s.pc && WorkerOf(s.pc[u]) == Some(id)
  }

  /**
   A worker is destroyed exactly if its scan is not active and nobody has it in hand, or a robbed start
   destroyed it.
   */
  lemma DestroyedIffOutOfAllHands(s: State, id: nat)
    requires Inv(s) && id in s.made
    ensures id in s.dead <==> id in s.strays || (id !in s.scans.active && !InHand(s, id))
  {
    hide DispatcherInv, IdsBounded, StartsDistinct, StartsNew, PositionsSound, EarlyKnown, LoopsKnown;
    if id !in s.strays {
      if id in s.owner && s.owner[id].AtThread? {
        assert s.owner[id].t in s.pc && id in s.owner;
      }
      if InHand(s, id) {
        var u :| u in s.pc && WorkerOf(s.pc[u]) == Some(id);
        assert u in s.pc && id !in s.strays ==> id in s.owner;
      }
    }
  }

  /** Using a worker that is already destroyed: launching it, destroying it again, or reading its hosts. */
  predicate Faults(s: State, step: Step)
    requires Enabled(s, step)
  {
    (step.action.Launch? || step.action.DestroyWorker? || step.action.ReadSnapshot?) && s.pc[step.t].id in s.dead
  }

  /** Some stop has taken this scan out and not yet destroyed its worker. */
  ghost predicate BeingStopped(s: State, id: nat) {
    exists u :: u in s.pc && (s.pc[u].Dropping? || s.pc[u].Ending?) && s.pc[u].role.OfStop? && s.pc[u].id == id
  }

  /** While a start is under way, only a stop can have its worker in hand. */
  lemma InOthersHandsIffBeingStopped(s: State, t: Tid)
    requires StartsDistinct(s) && t in s.pc && WorkerOf(s.pc[t]) == None && StartOf(s.pc[t]).Some?
    ensures InHand(s, StartOf(s.pc[t]).value) <==> BeingStopped(s, StartOf(s.pc[t]).value)
  {
    var id := StartOf(s.pc[t]).value;
    if InHand(s, id) {
      var u :| u in s.pc && WorkerOf(s.pc[u]) == Some(id);
      assert StartOf(s.pc[u]) != Some(id);
    }
    if BeingStopped(s, id) {
      var u :| u in s.pc && (s.pc[u].Dropping? || s.pc[u].Ending?) && s.pc[u].role.OfStop? && s.pc[u].id == id;
      assert WorkerOf(s.pc[u]) == Some(id);
    }
  }

  /** A start launches a destroyed worker exactly if a stop came early and has finished with it. */
  lemma LaunchFaultsIffStoppedEarly(s: State, t: Tid, ok: bool)
    requires Reachable(s) && Enabled(s, Step(t, Launch(ok)))
    ensures Faults(s, Step(t, Launch(ok))) <==> s.pc[t].id in s.early && !BeingStopped(s, s.pc[t].id)
  {
    hide Reachable, InHand, BeingStopped;
    ReachableIsInv(s);
    assert PositionSound(s, s.pc[t]);
    DestroyedIffOutOfAllHands(s, s.pc[t].id);
    InOthersHandsIffBeingStopped(s, t);
  }

  /**
   A worker is destroyed a second time exactly if a start was robbed of it by an early stop and the
   other of the two was faster.
   */
  lemma SecondDestroyIffRobbed(s: State, t: Tid)
    requires Reachable(s) && Enabled(s, Step(t, DestroyWorker))
    ensures Faults(s, Step(t, DestroyWorker)) <==>
      if s.pc[t].role.OfRobbedStart? then !BeingStopped(s, s.pc[t].id) else s.pc[t].id in s.strays
    ensures Faults(s, Step(t, DestroyWorker)) ==> s.pc[t].id in s.early
  {
    hide Reachable, InHand, BeingStopped;
    ReachableIsInv(s);
    var id := s.pc[t].id;
    assert PositionSound(s, s.pc[t]);
    DestroyedIffOutOfAllHands(s, id);
    if s.pc[t].role.OfRobbedStart? {
      InOthersHandsIffBeingStopped(s, t);
    } else {
      assert InHand(s, id) by { HoldsIt(s, t); }
    }
  }

  lemma HoldsIt(s: State, t: Tid)
    requires t in s.pc && WorkerOf(s.pc[t]).Some?
    ensures InHand(s, WorkerOf(s.pc[t]).value)
  {
  }

  /**
   A snapshot reads a destroyed worker exactly if, since it found the worker, the scan was taken out
   and whoever took it has destroyed it: no early stop is needed for that.
   */
  lemma SnapshotFaultsIffTakenAndDestroyed(s: State, t: Tid)
    requires Reachable(s) && Enabled(s, Step(t, ReadSnapshot))
    ensures Faults(s, Step(t, ReadSnapshot)) <==>
      s.pc[t].id in s.strays || (s.pc[t].id !in s.scans.active && !InHand(s, s.pc[t].id))
  {
    hide Reachable, InHand;
    ReachableIsInv(s);
    assert PositionSound(s, s.pc[t]);
    DestroyedIffOutOfAllHands(s, s.pc[t].id);
  }

  function WholeStop(u: Tid, id: nat): seq<Step> {
    [Step(u, Remove(id)), Step(u, RequestStop), Step(u, DestroyWorker)]
  }

  /** A stop of a scan that does not sweep yet runs through at once. */
  lemma WholeStopDestroys(s: State, u: Tid, id: nat)
    requires u in s.pc && s.pc[u] == Idle && id in s.scans.active && id !in s.looping
    ensures Legal(s, WholeStop(u, id)) && id in After(s, WholeStop(u, id)).dead
    ensures forall t :: t in s.pc && t != u ==>
      t in After(s, WholeStop(u, id)).pc && After(s, WholeStop(u, id)).pc[t] == s.pc[t]
  {
    var a := EmptyRun(s);
    hide Legal, After, Launching;
    a := Then(s, a.0, a.1, Step(u, Remove(id)));
    assert a.0.pc[u].Dropping? && a.0.pc[u].id == id && a.0.looping == s.looping;
    a := Then(s, a.0, a.1, Step(u, RequestStop));
    a := Then(s, a.0, a.1, Step(u, DestroyWorker));
    assert a.1 == WholeStop(u, id);
  }

  /** Any launch that comes after a whole early stop uses a destroyed worker. */
  lemma EarlyStopMakesLaunchFault(s: State, t: Tid, u: Tid, ok: bool)
    requires Reachable(s) && t in s.pc && s.pc[t].Registered? && s.pc[t].id in s.scans.active
    requires u in s.pc && s.pc[u] == Idle
    ensures Legal(s, WholeStop(u, s.pc[t].id))
    ensures var n := After(s, WholeStop(u, s.pc[t].id));
      Enabled(n, Step(t, Launch(ok))) && Faults(n, Step(t, Launch(ok)))
  {
    hide Reachable, Legal, After, WholeStop;
    StartDoesNotSweepYet(s, t);
    WholeStopDestroys(s, u, s.pc[t].id);
  }

  lemma StartDoesNotSweepYet(s: State, t: Tid)
    requires Reachable(s) && t in s.pc && StartOf(s.pc[t]).Some?
    ensures StartOf(s.pc[t]).value !in s.looping
  {
    hide Reachable;
    ReachableIsInv(s);
    assert PositionSound(s, s.pc[t]);
  }

  lemma EmptyRun(s: State) returns (r: (State, seq<Step>))
    ensures r == (s, []) && Legal(s, []) && After(s, []) == s
  {
    r := (s, []);
  }

  /** Every active scan sweeps once its start is through, and no sweep outlives its worker but by an early stop. */
  lemma ActiveScansSweep(s: State, id: nat)
    requires Reachable(s)
    ensures id in s.scans.active && !Launching(s, id) ==> id in s.looping && id !in s.stopping
    ensures id in s.looping && id in s.dead ==> id in s.early
  {
    hide Reachable, Launching;
    ReachableIsInv(s);
    hide WorkersAccounted, WorkersInHand, PositionsSound;
  }

  lemma StepOnlyAdds(s: State, step: Step)
    requires Enabled(s, step)
    ensures s.dead <= Next(s, step).dead && s.made <= Next(s, step).made
    ensures s.scans.nextId <= Next(s, step).scans.nextId && s.early <= Next(s, step).early
  {
    hide Launching;
  }

  lemma {:induction false} DestroyedStaysDestroyed(s: State, steps: seq<Step>)
    requires Legal(s, steps)
    ensures s.dead <= After(s, steps).dead && s.made <= After(s, steps).made
    ensures s.scans.nextId <= After(s, steps).scans.nextId && s.early <= After(s, steps).early
  {
    if steps != [] {
      var before := After(s, steps[..|steps| - 1]);
      DestroyedStaysDestroyed(s, steps[..|steps| - 1]);
      hide Legal, After, Enabled;
      StepOnlyAdds(before, steps[|steps| - 1]);
    }
  }

  /** Over any run, no worker is destroyed twice whose scan was not stopped early. */
  lemma NoWorkerDestroyedTwice(s: State, step: Step, later: seq<Step>, again: Step)
    requires Reachable(s) && Enabled(s, step) && step.action == DestroyWorker
    requires Legal(Next(s, step), later) && Enabled(After(Next(s, step), later), again) && again.action == DestroyWorker
    requires s.pc[step.t].id !in After(Next(s, step), later).early
    ensures After(Next(s, step), later).pc[again.t].id != s.pc[step.t].id
  {
    hide Inv, Reachable;
    var n := Next(s, step);
    ReachableIsInv(s);
    StepKeepsInv(s, step);
    RunKeepsInv(n, later);
    DestroyedStaysDestroyed(n, later);
    HandsAreLive(After(n, later), again);
  }

  lemma HandsAreLive(s: State, step: Step)
    requires Inv(s) && Enabled(s, step) && step.action == DestroyWorker
    ensures s.pc[step.t].id in s.dead ==> s.pc[step.t].id in s.early
  {
    var id := s.pc[step.t].id;
    assert PositionSound(s, s.pc[step.t]);
    assert step.t in s.pc && id !in s.strays ==> id in s.owner || s.pc[step.t].role.OfRobbedStart?;
  }

  /** The id that a start takes is not one that any start took before. */
  lemma IdsAreNeverReused(s: State, step: Step, later: seq<Step>, again: Step)
    requires Enabled(s, step) && step.action == TakeId
    requires Legal(Next(s, step), later) && Enabled(After(Next(s, step), later), again) && again.action == TakeId
    ensures Next(After(Next(s, step), later), again).pc[again.t].id != Next(s, step).pc[step.t].id
  {
    DestroyedStaysDestroyed(Next(s, step), later);
  }

  /** When every call has returned, the workers left are those of the active scans, which all sweep. */
  lemma QuietStateOwnsOnlyActiveScans(s: State)
    requires Reachable(s) && forall t :: t in s.pc ==> s.pc[t] == Idle
    ensures s.made - s.dead == s.scans.active.Keys && s.scans.active.Keys <= s.looping
    ensures s.dispatcher == if s.scans.active == map[] then Down else Up
  {
    hide Reachable;
    ReachableIsInv(s);
    QuietWorkers(s);
    hide Inv;
    DispatcherFollowsActiveScans(s);
  }

  lemma OwnerHoldsIt(s: State, id: nat)
    requires WorkersInHand(s) && id in s.owner && s.owner[id].AtThread?
    ensures s.owner[id].t in s.pc && WorkerOf(s.pc[s.owner[id].t]) == Some(id)
  {
    assert s.owner[id].t in s.pc && id in s.owner;
  }

  lemma QuietWorkers(s: State)
    requires Inv(s) && forall t :: t in s.pc ==> s.pc[t] == Idle
    ensures s.made - s.dead == s.scans.active.Keys && s.scans.active.Keys <= s.looping
  {
    hide DispatcherInv, IdsBounded, StartsDistinct, StartsNew, PositionsSound, EarlyKnown;
    forall id | id in s.owner ensures s.owner[id] == AtEntry {
      if s.owner[id].AtThread? { OwnerHoldsIt(s, id); }
    }
    assert s.owner.Keys == s.scans.active.Keys;
    forall id: nat | id in s.scans.active ensures id in s.looping {
      assert !Launching(s, id);
    }
  }

  // ----- runs that show where the limits are

  lemma Then(a: State, s: State, steps: seq<Step>, step: Step) returns (r: (State, seq<Step>))
    requires Legal(a, steps) && s == After(a, steps) && Enabled(s, step)
    ensures r == (Next(s, step), steps + [step]) && Legal(a, r.1) && r.0 == After(a, r.1)
  {
    assert (steps + [step])[..|steps|] == steps;
    r := (Next(s, step), steps + [step]);
  }

  lemma ReachableBy(threads: set<Tid>, s: State, steps: seq<Step>)
    requires Legal(Initial(threads), steps) && s == After(Initial(threads), steps)
    ensures Reachable(s)
  {
  }

  /** Thread 0 has started a scan and is about to launch its worker; thread 1 has done nothing yet. */
  lemma RegisterOneScan() returns (r: (State, seq<Step>))
    ensures Legal(Initial({0, 1}), r.1) && r.0 == After(Initial({0, 1}), r.1)
    ensures r.0 == State(Scans(map[1 := 1], 2), Up, map[0 := Registered(1), 1 := Idle], {}, {},
                         map[1 := AtEntry], {1}, {}, None, {}, {})
  {
    var a := Initial({0, 1});
    r := EmptyRun(a);
    hide Legal, After;
    r := Then(a, r.0, r.1, Step(0, TakeId));
    r := Then(a, r.0, r.1, Step(0, Create(true)));
    r := Then(a, r.0, r.1, Step(0, Add(true, true)));
  }

  /** Thread 0 has launched its scan: it sweeps, and both threads are idle. */
  lemma LaunchOneScan() returns (r: (State, seq<Step>))
    ensures Legal(Initial({0, 1}), r.1) && r.0 == After(Initial({0, 1}), r.1)
    ensures r.0 == State(Scans(map[1 := 1], 2), Up, map[0 := Idle, 1 := Idle], {1}, {},
                         map[1 := AtEntry], {1}, {}, None, {}, {})
  {
    r := RegisterOneScan();
    hide Legal, After;
    r := Then(Initial({0, 1}), r.0, r.1, Step(0, Launch(true)));
  }

  /** Thread 0 stops the only scan; before it gets to stop the dispatcher, thread 1's start is refused. */
  lemma OverlappingStartIsRefused() returns (s: State, step: Step)
    ensures Reachable(s) && Enabled(s, step) && step.action == Add(true, true) && s.scans.active == map[]
    ensures Next(s, step).pc[step.t].Dropping?
  {
    var a := Initial({0, 1});
    var r := LaunchOneScan();
    hide Legal, After, Launching, Reachable;
    r := Then(a, r.0, r.1, Step(0, Remove(1)));
    r := Then(a, r.0, r.1, Step(1, TakeId));
    r := Then(a, r.0, r.1, Step(1, Create(true)));
    ReachableBy({0, 1}, r.0, r.1);
    s, step := r.0, Step(1, Add(true, true));
  }

  /** Thread 1 has found a scan that sweeps, and thread 0 is about to destroy its worker. */
  lemma StopUnderSnapshot() returns (r: (State, seq<Step>))
    ensures Legal(Initial({0, 1}), r.1) && r.0 == After(Initial({0, 1}), r.1)
    ensures r.0.pc == map[0 := Ending(1, OfStop(true)), 1 := Snapshotting(1)] && r.0.looping == {}
  {
    var a := Initial({0, 1});
    r := LaunchOneScan();
    hide Legal, After, Launching;
    r := Then(a, r.0, r.1, Step(1, FindForSnapshot(1)));
    r := Then(a, r.0, r.1, Step(0, Remove(1)));
    r := Then(a, r.0, r.1, Step(0, RequestStop));
    r := Then(a, r.0, r.1, Step(0, LoopEnds(1)));
  }

  /** Thread 1 finds a scan that sweeps; before it reads the hosts, thread 0 stops the scan and destroys its worker. */
  lemma StopUnderSnapshotFaults() returns (s: State, step: Step)
    ensures Reachable(s) && Enabled(s, step) && step.action == ReadSnapshot && Faults(s, step)
  {
    var a := Initial({0, 1});
    var r := StopUnderSnapshot();
    hide Legal, After, Launching, Reachable;
    r := Then(a, r.0, r.1, Step(0, DestroyWorker));
    ReachableBy({0, 1}, r.0, r.1);
    s, step := r.0, Step(1, ReadSnapshot);
  }

  // ----- a snapshot, from the find to the read

  /** Is this the destruction of the worker of `id`? */
  ghost predicate Destroys(s: State, step: Step, id: nat) {
    step.t in s.pc && step.action.DestroyWorker? && s.pc[step.t].Ending? && s.pc[step.t].id == id
  }

  /** Somewhere in this run the worker of `id` is destroyed. */
  ghost predicate SomeDestroys(s: State, later: seq<Step>, id: nat)
    requires Legal(s, later)
  {
    exists i :: 0 <= i < |later| && DestroysAt(s, later, id, i)
  }

  ghost predicate DestroysAt(s: State, later: seq<Step>, id: nat, i: nat)
    requires Legal(s, later) && i < |later|
  {
    LegalUpTo(s, later, i);
    Destroys(After(s, later[..i]), later[i], id)
  }

  lemma {:induction false} LegalUpTo(s: State, later: seq<Step>, i: nat)
    requires Legal(s, later) && i <= |later|
    ensures Legal(s, later[..i])
    ensures i < |later| ==> Enabled(After(s, later[..i]), later[i])
    decreases |later|
  {
    if i == |later| {
      assert later[..i] == later;
    } else if i < |later| - 1 {
      assert later[..|later| - 1][..i] == later[..i];
      LegalUpTo(s, later[..|later| - 1], i);
    }
  }

  lemma SomeDestroysSplit(s: State, later: seq<Step>, id: nat)
    requires Legal(s, later) && later != []
    ensures Legal(s, later[..|later| - 1])
    ensures SomeDestroys(s, later, id) <==>
      SomeDestroys(s, later[..|later| - 1], id) || Destroys(After(s, later[..|later| - 1]), later[|later| - 1], id)
  {
    hide Enabled, Next, Destroys;
    var k := |later| - 1;
    var before := later[..k];
    forall i | 0 <= i < k ensures DestroysAt(s, before, id, i) <==> DestroysAt(s, later, id, i) {
      assert before[..i] == later[..i] && before[i] == later[i];
    }
    assert DestroysAt(s, later, id, k) <==> Destroys(After(s, before), later[k], id);
    if SomeDestroys(s, before, id) {
      var i :| 0 <= i < k && DestroysAt(s, before, id, i);
      assert DestroysAt(s, later, id, i);
    }
    if SomeDestroys(s, later, id) && !DestroysAt(s, later, id, k) {
      var i :| 0 <= i < |later| && DestroysAt(s, later, id, i);
      assert DestroysAt(s, before, id, i);
    }
  }

  lemma {:induction false} DeadMeansSomeDestroyed(s: State, later: seq<Step>, id: nat)
    requires Legal(s, later) && id !in s.dead
    ensures id in After(s, later).dead <==> SomeDestroys(s, later, id)
  {
    if later != [] {
      var before, step := After(s, later[..|later| - 1]), later[|later| - 1];
      DeadMeansSomeDestroyed(s, later[..|later| - 1], id);
      SomeDestroysSplit(s, later, id);
      hide Legal, After, SomeDestroys;
      DeadGrowsByDestroys(before, step, id);
    }
  }

  lemma DeadGrowsByDestroys(s: State, step: Step, id: nat)
    requires Enabled(s, step)
    ensures id in Next(s, step).dead <==> id in s.dead || Destroys(s, step, id)
  {
    hide Launching;
  }

  /** Has `u` stopped scan `id` in the first `k` of these steps? */
  ghost predicate StoppedBy(later: seq<Step>, k: nat, u: Tid, id: nat) {
    exists j :: 0 <= j < k && j < |later| && later[j] == Step(u, Remove(id))
  }

  /**
   Who can come to destroy the worker of a scan that was active in `s`: a thread that has stopped it
   since, or the one whose start was under way then.
   */
  ghost predicate KnownFrom(s: State, later: seq<Step>, k: nat, id: nat, u: Tid, pc: Pc) {
    && ((pc.Dropping? || pc.Ending?) && pc.id == id && pc.role.OfStop? ==> StoppedBy(later, k, u, id))
    && (StartOf(pc) == Some(id) ==> u in s.pc && LaunchOf(s.pc[u]) == Some(id))
  }

  lemma KnownAtFirst(s: State, later: seq<Step>, id: nat, u: Tid)
    requires Inv(s) && id in s.scans.active && u in s.pc
    ensures KnownFrom(s, later, 0, id, u, s.pc[u])
  {
    hide DispatcherInv, IdsBounded, StartsDistinct, LoopsKnown, HangsKnown;
    WorkerAtHandIsNotActive(s, u);
    ActiveWasMade(s, id);
    if s.pc[u].Numbered? { NumberIsNew(s, u); }
  }

  lemma ActiveWasMade(s: State, id: nat)
    requires WorkersAccounted(s) && id in s.scans.active
    ensures id in s.made && id !in s.dead
  {
  }

  lemma StepKeepsKnown(s: State, later: seq<Step>, k: nat, id: nat, b: State, u: Tid)
    requires k < |later| && Enabled(b, later[k]) && id < b.scans.nextId && u in b.pc
    requires KnownFrom(s, later, k, id, u, b.pc[u])
    ensures u in Next(b, later[k]).pc && KnownFrom(s, later, k + 1, id, u, Next(b, later[k]).pc[u])
  {
    hide Launching;
    var step := later[k];
    if StoppedBy(later, k, u, id) {
      var j :| 0 <= j < k && j < |later| && later[j] == Step(u, Remove(id));
      assert j < k + 1;
    }
    if u == step.t && step.action == Remove(id) { assert later[k] == Step(u, Remove(id)); }
  }

  lemma {:induction false} DestroyersAreKnown(s: State, later: seq<Step>, k: nat, id: nat, u: Tid)
    requires Inv(s) && Legal(s, later) && id in s.scans.active && k <= |later|
    ensures Legal(s, later[..k])
    ensures var b := After(s, later[..k]);
      id < b.scans.nextId && (u in b.pc <==> u in s.pc) && (u in b.pc ==> KnownFrom(s, later, k, id, u, b.pc[u]))
    decreases k
  {
    LegalUpTo(s, later, k);
    if k == 0 {
      assert IdsBounded(s);
      if u in s.pc { KnownAtFirst(s, later, id, u); }
    } else {
      DestroyersAreKnown(s, later, k - 1, id, u);
      LegalUpTo(s, later, k - 1);
      var b, step := After(s, later[..k - 1]), later[k - 1];
      assert later[..k][..k - 1] == later[..k - 1];
      assert After(s, later[..k]) == Next(b, step);
      hide Legal, After, Inv, KnownFrom;
      StepOnlyAdds(b, step);
      ThreadsStay(b, step);
      if u in b.pc { StepKeepsKnown(s, later, k - 1, id, b, u); }
    }
  }

  lemma ThreadsStay(s: State, step: Step)
    requires Enabled(s, step)
    ensures Next(s, step).pc.Keys == s.pc.Keys
  {
    hide Launching;
  }

  /** No thread but the reader moves it from between the find and the read. */
  lemma {:induction false} ReaderWaits(s: State, t: Tid, later: seq<Step>)
    requires t in s.pc && s.pc[t].Snapshotting? && Legal(s, later) && Step(t, ReadSnapshot) !in later
    ensures t in After(s, later).pc && After(s, later).pc[t] == s.pc[t]
  {
    if later != [] {
      ReaderWaits(s, t, later[..|later| - 1]);
      hide Launching;
    }
  }

  /** Was this destruction by a stop since `s`, or by a start that was under way in `s`? */
  ghost predicate Blamed(s: State, later: seq<Step>, id: nat, i: nat)
    requires i < |later|
  {
    StoppedBy(later, i, later[i].t, id) || (later[i].t in s.pc && LaunchOf(s.pc[later[i].t]) == Some(id))
  }

  lemma DestructionsAreBlamed(s: State, later: seq<Step>, id: nat)
    requires Inv(s) && Legal(s, later) && id in s.scans.active
    ensures forall i :: 0 <= i < |later| && DestroysAt(s, later, id, i) ==> Blamed(s, later, id, i)
  {
    hide Inv, KnownFrom;
    forall i | 0 <= i < |later| && DestroysAt(s, later, id, i) ensures Blamed(s, later, id, i) {
      DestroyersAreKnown(s, later, i, id, later[i].t);
      DestroyersRole(s, later, i, id);
    }
  }

  /**
   A read faults if and only if somebody has destroyed the worker since it was found; and that was
   either a stop of this scan that began after the find, or the rollback of a start that was still
   under way at the find.
   */
  lemma SnapshotFaultsIffDestroyedSince(s: State, t: Tid, id: nat, later: seq<Step>)
    requires Reachable(s) && Enabled(s, Step(t, FindForSnapshot(id))) && id in s.scans.active
    requires Legal(Next(s, Step(t, FindForSnapshot(id))), later) && Step(t, ReadSnapshot) !in later
    ensures var n := Next(s, Step(t, FindForSnapshot(id)));
      && Enabled(After(n, later), Step(t, ReadSnapshot))
      && (Faults(After(n, later), Step(t, ReadSnapshot)) <==> SomeDestroys(n, later, id))
    ensures var n := Next(s, Step(t, FindForSnapshot(id)));
      forall i :: 0 <= i < |later| && DestroysAt(n, later, id, i) ==> Blamed(n, later, id, i)
  {
    hide Reachable, Inv, SomeDestroys, DestroysAt, Blamed;
    var find := Step(t, FindForSnapshot(id));
    var n := Next(s, find);
    ReachableIsInv(s);
    StepKeepsInv(s, find);
    hide Legal, After;
    ReaderWaits(n, t, later);
    NotDeadIfActive(n, id);
    DeadMeansSomeDestroyed(n, later, id);
    DestructionsAreBlamed(n, later, id);
  }

  lemma NotDeadIfActive(s: State, id: nat)
    requires Inv(s) && id in s.scans.active
    ensures id !in s.dead
  {
    ActiveWasMade(s, id);
  }

  lemma DestroyersRole(s: State, later: seq<Step>, i: nat, id: nat)
    requires Legal(s, later) && i < |later| && Legal(s, later[..i]) && DestroysAt(s, later, id, i)
    requires later[i].t in After(s, later[..i]).pc
    requires KnownFrom(s, later, i, id, later[i].t, After(s, later[..i]).pc[later[i].t])
    ensures Blamed(s, later, id, i)
  {
    hide Legal, After;
  }

  predicate NoStopOf(later: seq<Step>, id: nat) {
    forall i :: 0 <= i < |later| ==> later[i].action != Remove(id)
  }

  /** A scan whose start has returned stays active, and its worker alive, as long as nobody stops it. */
  lemma {:induction false} StaysActive(s: State, later: seq<Step>, id: nat)
    requires Inv(s) && Legal(s, later) && NoStopOf(later, id) && id in s.scans.active && !Launching(s, id)
    ensures Inv(After(s, later)) && id in After(s, later).scans.active && !Launching(After(s, later), id)
  {
    if later != [] {
      var before, step := After(s, later[..|later| - 1]), later[|later| - 1];
      StaysActive(s, later[..|later| - 1], id);
      hide Legal, After, Inv;
      StepKeepsInv(before, step);
      StepKeepsActive(before, step, id);
    }
  }

  lemma StepKeepsActive(s: State, step: Step, id: nat)
    requires Inv(s) && Enabled(s, step) && step.action != Remove(id) && id in s.scans.active && !Launching(s, id)
    ensures id in Next(s, step).scans.active && !Launching(Next(s, step), id)
  {
    hide DispatcherInv, IdsBounded, StartsDistinct, StartsNew, WorkersAccounted, WorkersInHand, EarlyKnown;
    hide LoopsKnown, HangsKnown;
    var n := Next(s, step);
    assert PositionSound(s, s.pc[step.t]);
    hide PositionsSound;
    assert LaunchOf(s.pc[step.t]) != Some(id);
    forall u | u in n.pc ensures LaunchOf(n.pc[u]) != Some(id) {
      if u != step.t { assert LaunchOf(s.pc[u]) != Some(id); }
    }
  }

  // ----- and what can happen without a stop

  /** The rollback of the start that `u` has under way, from where it is, up to the end of its worker. */
  lemma RollBack(s: State, u: Tid, id: nat) returns (r: (State, seq<Step>))
    requires Inv(s) && u in s.pc && LaunchOf(s.pc[u]) == Some(id) && id in s.scans.active
    ensures Legal(s, r.1) && r.0 == After(s, r.1) && id in r.0.dead && NoStopOf(r.1, id)
    ensures forall i :: 0 <= i < |r.1| ==> r.1[i].t == u
    ensures forall t :: t in s.pc && t != u ==> t in r.0.pc && r.0.pc[t] == s.pc[t]
  {
    assert id !in s.looping by { assert PositionSound(s, s.pc[u]); }
    hide Inv, Launching;
    r := EmptyRun(s);
    hide Legal, After;
    if s.pc[u].Registered? { r := Forward(s, r.0, r.1, u, id, Launch(false)); }
    r := Forward(s, r.0, r.1, u, id, Withdraw);
    if r.0.pc[u].Withdrawn? {
      r := Forward(s, r.0, r.1, u, id, StopServer);
      r := Forward(s, r.0, r.1, u, id, ClearRunning);
    }
    r := Forward(s, r.0, r.1, u, id, RequestStop);
    r := Forward(s, r.0, r.1, u, id, DestroyWorker);
  }

  /** Where a start that rolls back is after one of its steps. */
  predicate RollsTo(s: State, n: State, u: Tid, id: nat, action: Action)
    requires u in s.pc && u in n.pc
  {
    match action
    case Launch(_) => n.pc[u] == LaunchFailed(id) && n.scans == s.scans
    case Withdraw => n.pc[u] == Withdrawn(id) || n.pc[u] == Dropping(id, OfStart)
    case StopServer => n.pc[u] == Stopping(Some(id))
    case ClearRunning => n.pc[u] == Dropping(id, OfStart)
    case RequestStop => n.pc[u] == Ending(id, OfStart)
    case _ => id in n.dead
  }

  lemma Forward(a: State, s: State, steps: seq<Step>, u: Tid, id: nat, action: Action) returns (r: (State, seq<Step>))
    requires Legal(a, steps) && s == After(a, steps) && Enabled(s, Step(u, action)) && NoStopOf(steps, id)
    requires forall i :: 0 <= i < |steps| ==> steps[i].t == u
    requires id !in s.looping && action != TakeId
    requires match action
      case Launch(ok) => s.pc[u] == Registered(id) && !ok
      case Withdraw => s.pc[u] == LaunchFailed(id) && id in s.scans.active
      case StopServer => s.pc[u] == Withdrawn(id)
      case ClearRunning => s.pc[u] == Stopping(Some(id))
      case RequestStop => s.pc[u] == Dropping(id, OfStart)
      case DestroyWorker => s.pc[u] == Ending(id, OfStart)
      case _ => false
    ensures Legal(a, r.1) && r.0 == After(a, r.1) && NoStopOf(r.1, id) && id !in r.0.looping
    ensures forall i :: 0 <= i < |r.1| ==> r.1[i].t == u
    ensures u in r.0.pc && RollsTo(s, r.0, u, id, action)
    ensures forall t :: t in s.pc && t != u ==> t in r.0.pc && r.0.pc[t] == s.pc[t]
  {
    hide Legal, After, Launching;
    r := Then(a, s, steps, Step(u, action));
  }

  /**
   For a caller to know before it asks for a snapshot: without any stop of this scan the read can
   still fault, if and only if the start of the scan has not returned.
   */
  lemma SnapshotSafeWithoutStopIffStartReturned(s: State, t: Tid, id: nat)
    requires Reachable(s) && Enabled(s, Step(t, FindForSnapshot(id))) && id in s.scans.active
    ensures var n, read := Next(s, Step(t, FindForSnapshot(id))), Step(t, ReadSnapshot);
      (exists later :: Legal(n, later) && read !in later && NoStopOf(later, id)
                       && Enabled(After(n, later), read) && Faults(After(n, later), read))
      <==> Launching(s, id)
  {
    hide Reachable, Inv;
    var find, read := Step(t, FindForSnapshot(id)), Step(t, ReadSnapshot);
    var n := Next(s, find);
    ReachableIsInv(s);
    StepKeepsInv(s, find);
    SameLaunchesAfterFind(s, t, id);
    hide Legal, After, NoStopOf, Next, Enabled, Faults;
    if Launching(s, id) {
      var later := FaultWithoutStop(n, t, id);
    } else {
      forall later | Legal(n, later) && read !in later && NoStopOf(later, id) && Enabled(After(n, later), read)
        ensures !Faults(After(n, later), read)
      {
        StaysActive(n, later, id);
        ActiveReadIsSafe(n, t, id, later);
      }
    }
  }

  lemma SameLaunchesAfterFind(s: State, t: Tid, id: nat)
    requires Enabled(s, Step(t, FindForSnapshot(id))) && id in s.scans.active
    ensures var n := Next(s, Step(t, FindForSnapshot(id)));
      && id in n.scans.active && t in n.pc && n.pc[t] == Snapshotting(id)
      && (Launching(n, id) <==> Launching(s, id))
  {
    var n := Next(s, Step(t, FindForSnapshot(id)));
    if Launching(s, id) {
      var u :| u in s.pc && LaunchOf(s.pc[u]) == Some(id);
      assert u in n.pc && LaunchOf(n.pc[u]) == Some(id);
    }
    if Launching(n, id) {
      var u :| u in n.pc && LaunchOf(n.pc[u]) == Some(id);
      assert u in s.pc && LaunchOf(s.pc[u]) == Some(id);
    }
  }

  lemma FaultWithoutStop(n: State, t: Tid, id: nat) returns (later: seq<Step>)
    requires Inv(n) && t in n.pc && n.pc[t] == Snapshotting(id) && id in n.scans.active && Launching(n, id)
    ensures Legal(n, later) && Step(t, ReadSnapshot) !in later && NoStopOf(later, id)
    ensures Enabled(After(n, later), Step(t, ReadSnapshot)) && Faults(After(n, later), Step(t, ReadSnapshot))
  {
    hide Inv, Legal, After;
    var u :| u in n.pc && LaunchOf(n.pc[u]) == Some(id);
    var r := RollBack(n, u, id);
    later := r.1;
  }

  lemma ActiveReadIsSafe(n: State, t: Tid, id: nat, later: seq<Step>)
    requires t in n.pc && n.pc[t] == Snapshotting(id) && Legal(n, later) && Step(t, ReadSnapshot) !in later
    requires Inv(After(n, later)) && id in After(n, later).scans.active
    requires Enabled(After(n, later), Step(t, ReadSnapshot))
    ensures !Faults(After(n, later), Step(t, ReadSnapshot))
  {
    hide Inv;
    ReaderWaits(n, t, later);
    hide Legal, After;
    NotDeadIfActive(After(n, later), id);
  }

  // ----- a stop that never ends

  /** What keeps a hanging stop where it is. */
  lemma StepKeepsHanging(s: State, u: Tid, step: Step)
    requires Inv(s) && u in s.pc && Hangs(s, s.pc[u]) && s.pc[u].role.OfStop? && Enabled(s, step)
    ensures u in Next(s, step).pc && Next(s, step).pc[u] == s.pc[u] && Hangs(Next(s, step), s.pc[u])
  {
    hide DispatcherInv, IdsBounded, StartsDistinct, StartsNew, WorkersAccounted, EarlyKnown, HangsKnown, Launching;
    assert PositionSound(s, s.pc[step.t]);
    hide PositionsSound;
    var id := s.pc[u].id;
    if step.t != u { OnlyStopperHasIt(s, u, step.t); }
    hide WorkersInHand;
    assert StartOf(s.pc[step.t]) != Some(id);
  }

  /** While the loop of a worker runs, only the stop that has it in hand can end it. */
  lemma OnlyStopperHasIt(s: State, u: Tid, t: Tid)
    requires WorkersInHand(s) && LoopsKnown(s) && u in s.pc && t in s.pc && t != u
    requires Hangs(s, s.pc[u]) && s.pc[u].role.OfStop?
    ensures WorkerOf(s.pc[t]) != Some(s.pc[u].id)
  {
    var id := s.pc[u].id;
    assert u in s.pc && id in s.owner ==> s.owner[id] == AtThread(u);
    assert t in s.pc && id !in s.strays && WorkerOf(s.pc[t]) == Some(id) ==> id in s.owner;
  }

  lemma {:induction false} HangsForEver(s: State, u: Tid, later: seq<Step>)
    requires Inv(s) && u in s.pc && Hangs(s, s.pc[u]) && s.pc[u].role.OfStop? && Legal(s, later)
    ensures Inv(After(s, later)) && u in After(s, later).pc
    ensures After(s, later).pc[u] == s.pc[u] && Hangs(After(s, later), s.pc[u])
  {
    if later != [] {
      var before, step := After(s, later[..|later| - 1]), later[|later| - 1];
      HangsForEver(s, u, later[..|later| - 1]);
      hide Legal, After, Inv, Hangs;
      StepKeepsInv(before, step);
      StepKeepsHanging(before, u, step);
    }
  }

  /**
   A stop that waits for the loop of its worker can never end if and only if the loop runs and the
   request to stop has been taken back; and then the stop was an early one, whose start has reset
   the flag since: the scan sweeps on, and is registered no more.
   */
  lemma StopNeverEndsIffFlagWasReset(s: State, u: Tid)
    requires Reachable(s) && u in s.pc && s.pc[u].Ending? && s.pc[u].role.OfStop?
    ensures (forall later :: Legal(s, later) ==> u in After(s, later).pc && After(s, later).pc[u] == s.pc[u])
      <==> Hangs(s, s.pc[u])
    ensures Hangs(s, s.pc[u]) ==> s.pc[u].id in s.early && s.pc[u].id !in s.scans.active
  {
    hide Reachable, Inv;
    ReachableIsInv(s);
    if Hangs(s, s.pc[u]) {
      HangingIsEarly(s, u);
      forall later | Legal(s, later) ensures u in After(s, later).pc && After(s, later).pc[u] == s.pc[u] {
        HangsForEver(s, u, later);
      }
    } else {
      var r := StopEnds(s, u);
    }
  }

  lemma HangingIsEarly(s: State, u: Tid)
    requires Inv(s) && u in s.pc && Hangs(s, s.pc[u])
    ensures s.pc[u].id in s.early && s.pc[u].id !in s.scans.active
  {
  }

  lemma StopEnds(s: State, u: Tid) returns (r: (State, seq<Step>))
    requires u in s.pc && s.pc[u].Ending? && !Hangs(s, s.pc[u])
    ensures Legal(s, r.1) && r.0 == After(s, r.1) && u in r.0.pc && r.0.pc[u] != s.pc[u]
  {
    r := EmptyRun(s);
    hide Legal, After, Launching;
    if s.pc[u].id in s.looping { r := Then(s, r.0, r.1, Step(u, LoopEnds(s.pc[u].id))); }
    r := Then(s, r.0, r.1, Step(u, DestroyWorker));
  }

  /** Thread 1 stops scan 1 and asks its loop to end before there is one; then thread 0 launches it. */
  lemma EarlyStopCanHang() returns (s: State)
    ensures Reachable(s) && s.pc == map[0 := Idle, 1 := Ending(1, OfStop(true))] && Hangs(s, s.pc[1])
  {
    var a := Initial({0, 1});
    var r := RegisterOneScan();
    hide Legal, After, Launching, Reachable;
    r := Then(a, r.0, r.1, Step(1, Remove(1)));
    r := Then(a, r.0, r.1, Step(1, RequestStop));
    r := Then(a, r.0, r.1, Step(0, Launch(true)));
    ReachableBy({0, 1}, r.0, r.1);
    s := r.0;
  }

  /** A run without a stop: thread 1 finds the scan of thread 0, whose launch then fails. */
  lemma FailedLaunchUnderSnapshotFaults() returns (s: State, later: seq<Step>)
    ensures Reachable(s) && s.pc == map[0 := Registered(1), 1 := Idle]
    ensures var n := Next(s, Step(1, FindForSnapshot(1)));
      && Enabled(s, Step(1, FindForSnapshot(1))) && Legal(n, later) && NoStopOf(later, 1)
      && Enabled(After(n, later), Step(1, ReadSnapshot)) && Faults(After(n, later), Step(1, ReadSnapshot))
  {
    var r := RegisterOneScan();
    ReachableBy({0, 1}, r.0, r.1);
    s := r.0;
    assert 0 in s.pc && LaunchOf(s.pc[0]) == Some(1);
    assert Enabled(s, Step(1, FindForSnapshot(1))) && Launching(s, 1) && 1 in s.scans.active;
    hide Legal, After, Reachable, Inv, Enabled, Next, Launching, Faults;
    ReachableIsInv(s);
    StepKeepsInv(s, Step(1, FindForSnapshot(1)));
    SameLaunchesAfterFind(s, 1, 1);
    later := FaultWithoutStop(Next(s, Step(1, FindForSnapshot(1))), 1, 1);
  }
}
