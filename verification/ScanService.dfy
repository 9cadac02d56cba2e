/**
 Starting and stopping scans, one call after another. At every return the shared dispatcher is
 up exactly when some scan is active. Overlapping calls are the subject of ScanProtocol.
 */
module ScanServices {
  import opened Common
  import opened ScanTable
  import opened ScanRegistries
  import opened ScanWorkers

  /** What everything outside answers during one start. */
  datatype StartAnswers = StartAnswers(create: CreateAnswers, binds: bool, reallocOk: bool, threadOk: bool)

  ghost predicate Owns(active: map<nat, ScanWorker>, workers: set<ScanWorker>) {
    && (forall id :: id in active ==> active[id] in workers && active[id].scanId == id)
    && (forall w :: w in workers ==> w.scanId in active && active[w.scanId] == w)
  }

  ghost predicate AllSweep(workers: set<ScanWorker>)
    reads workers
  {
    forall w :: w in workers ==> w.Sweeping()
  }

  lemma OwnsOneMore(active: map<nat, ScanWorker>, workers: set<ScanWorker>, w: ScanWorker)
    requires Owns(active, workers) && AllSweep(workers) && w.scanId !in active && w.Sweeping()
    ensures Owns(active[w.scanId := w], workers + {w}) && AllSweep(workers + {w})
  {
  }

  lemma OwnsOneLess(active: map<nat, ScanWorker>, workers: set<ScanWorker>, id: nat)
    requires Owns(active, workers) && AllSweep(workers) && id in active
    ensures active[id] in workers && active[id].Sweeping()
    ensures Owns(active - {id}, workers - {active[id]}) && AllSweep(workers - {active[id]})
  {
  }

  class ScanOrchestration {
    const registry: ScanRegistry<ScanWorker>
    const dispatcher: ScanDispatcher
    const defaultSweepIntervalMs: uint32
    ghost var workers: set<ScanWorker>

    ghost function Scanning(): Scans<ScanWorker>
      reads registry, registry.entries
      requires registry.Valid()
    {
      registry.Value()
    }

    ghost predicate Valid()
      reads this, registry, registry.entries, dispatcher, workers
    {
      && registry.Valid() && IdsBelow(Scanning())
      && Owns(Scanning().active, workers) && AllSweep(workers)
      && dispatcher.Value() == if Scanning().active == map[] then Down else Up
    }

    constructor (defaultSweepIntervalMs: uint32)
      ensures Valid() && Scanning() == Scans(map[], 1) && workers == {}
      ensures fresh(registry) && fresh(registry.entries) && fresh(dispatcher)
    {
      registry := new ScanRegistry();
      dispatcher := new ScanDispatcher();
      this.defaultSweepIntervalMs := defaultSweepIntervalMs;
      workers := {};
    }

    /** `attempted` is the worker this call created, if it got that far; the id is used up in any case. */
    method StartScan(request: ScanRequest, a: StartAnswers)
      returns (err: ScanError, scanId: nat, ghost attempted: Option<ScanWorker>)
      requires Valid()
      modifies this, registry, registry.entries, dispatcher
      ensures Valid() && (registry.entries == old(registry.entries) || fresh(registry.entries))
      ensures scanId == old(Scanning().nextId) && Scanning().nextId == scanId + 1
      ensures attempted.Some? ==> fresh(attempted.value)
      ensures err ==
        if CreateError(request, a.create) != ScanOK then CreateError(request, a.create)
        else if old(Scanning().active) == map[] && !a.binds then DispatcherFailed
        else if !a.reallocOk && !old(registry.HasRoom()) then ScanOutOfMemory
        else if !a.threadOk then ThreadCreateFailed else ScanOK
      ensures attempted == None <==> CreateError(request, a.create) != ScanOK
      ensures attempted.Some? ==>
        && attempted.value.interfaceId == request.interfaceId && attempted.value.mmsPort == request.mmsPort
        && request.interfaceId != "" && request.mmsPort > 0
      ensures err == ScanInvalidArgument <==> request.interfaceId == "" || request.mmsPort <= 0
      ensures err == DiscoveryCreateFailed <==>
        request.interfaceId != "" && request.mmsPort > 0 && a.create.memoryOk && !a.create.discoveryOk
      ensures err == ScanOutOfMemory <==>
        && request.interfaceId != "" && request.mmsPort > 0
        && (|| !a.create.memoryOk
            || (a.create.discoveryOk && (old(Scanning().active) != map[] || a.binds)
                && !a.reallocOk && !old(registry.HasRoom())))
      ensures err == ScanOK <==>
        && request.interfaceId != "" && request.mmsPort > 0 && a.create.memoryOk && a.create.discoveryOk
        && (old(Scanning().active) != map[] || a.binds) && (a.reallocOk || old(registry.HasRoom())) && a.threadOk
      ensures err == ScanOK <==> attempted.Some? && attempted.value.Sweeping()
      ensures err == ScanOK ==>
        && Scanning().active == old(Scanning().active)[scanId := attempted.value]
        && workers == old(workers) + {attempted.value}
      ensures err != ScanOK ==> Scanning().active == old(Scanning().active) && workers == old(workers)
      ensures err != ScanOK && attempted.Some? ==> attempted.value.destroyed && !attempted.value.hasThread
    {
      hide Owns, AllSweep, ScanRegistry.Valid, ScanRegistry.Value, ScanWorker.Follows, ScanWorker.Covers;
      CreateErrorTellsWhatIsMissing(request, a.create);
      hide CreateError;
      ghost var before := Scanning();
      attempted := None;
      scanId := registry.NextScanId();
      var worker;
      worker, err := ScanWorker.Create(scanId, request, defaultSweepIntervalMs, a.create);
      if worker == null { return; }
      attempted := Some(worker);
      err := Register(worker, a.binds, a.reallocOk);
      if err == ScanOK { err := Launch(worker, a.threadOk, before.active); }
    }

    /** Puts the worker into the registry, with the dispatcher up, or destroys it. */
    method Register(worker: ScanWorker, binds: bool, reallocOk: bool) returns (err: ScanError)
      requires Valid() && 0 < worker.scanId < Scanning().nextId && worker.scanId !in Scanning().active
      requires !worker.hasThread && !worker.destroyed && !worker.stopRequested && worker !in workers
      modifies registry, registry.entries, dispatcher, worker
      ensures registry.entries == old(registry.entries) || fresh(registry.entries)
      ensures err == if old(Scanning().active) == map[] && !binds then DispatcherFailed
        else if !reallocOk && !old(registry.HasRoom()) then ScanOutOfMemory else ScanOK
      ensures err != ScanOK ==>
        Valid() && Scanning() == old(Scanning()) && worker.destroyed && !worker.hasThread
      ensures err == ScanOK ==>
        && registry.Valid() && dispatcher.Value() == Up && AllSweep(workers) && unchanged(worker)
        && Scanning() == old(Scanning()).(active := old(Scanning()).active[worker.scanId := worker])
    {
      hide Owns, AllSweep, ScanRegistry.Valid, ScanRegistry.Value;
      var added := registry.AddAndMaybeStartDispatcher(dispatcher, worker.scanId, worker, binds, reallocOk);
      if added != Added {
        worker.Destroy();
        return if added == DispatcherStartFailed then DispatcherFailed else ScanOutOfMemory;
      }
      return ScanOK;
    }

    /** Starts the thread of a worker just registered, or takes the registration back. */
    method Launch(worker: ScanWorker, threadOk: bool, ghost before: map<nat, ScanWorker>) returns (err: ScanError)
      requires registry.Valid() && dispatcher.Value() == Up && IdsBelow(Scanning())
      requires Owns(before, workers) && AllSweep(workers) && worker !in workers
      requires worker.scanId !in before && Scanning().active == before[worker.scanId := worker]
      requires !worker.hasThread && !worker.destroyed && !worker.stopRequested
      modifies this, registry, registry.entries, dispatcher, worker
      ensures Valid() && registry.entries == old(registry.entries) && Scanning().nextId == old(Scanning().nextId)
      ensures err == if threadOk then ScanOK else ThreadCreateFailed
      ensures err == ScanOK ==>
        worker.Sweeping() && Scanning().active == old(Scanning().active) && workers == old(workers) + {worker}
      ensures err != ScanOK ==>
        worker.destroyed && !worker.hasThread && Scanning().active == before && workers == old(workers)
    {
      hide Owns, AllSweep, ScanRegistry.Valid, ScanRegistry.Value;
      err := worker.Start(threadOk);
      if err != ScanOK {
        var removed, nowEmpty := registry.Remove(worker.scanId);
        if nowEmpty { dispatcher.Stop(); }
        worker.Destroy();
        assert Scanning().active == before;
        return;
      }
      OwnsOneMore(before, workers, worker);
      workers := workers + {worker};
      assert worker.scanId in Scanning().active;
    }

    method StopScan(scanId: nat) returns (err: ScanError)
      requires Valid()
      modifies this, registry, registry.entries, dispatcher, workers
      ensures Valid() && registry.entries == old(registry.entries)
      ensures err == if scanId in old(Scanning().active) then ScanOK else ScanNotFound
      ensures err == ScanNotFound ==> Scanning() == old(Scanning()) && workers == old(workers)
      ensures err == ScanOK ==>
        && Scanning() == old(Scanning()).(active := old(Scanning()).active - {scanId})
        && var worker := old(Scanning().active)[scanId];
           workers == old(workers) - {worker} && worker in old(workers) && worker.destroyed && worker.exited
      ensures forall w :: w in workers ==> unchanged(w)
    {
      hide Owns, AllSweep, ScanRegistry.Valid, ScanRegistry.Value;
      ghost var before := Scanning();
      var worker, nowEmpty := registry.Remove(scanId);
      if worker == None { return ScanNotFound; }
      OwnsOneLess(before.active, workers, scanId);
      workers := workers - {worker.value};
      worker.value.Destroy();
      if nowEmpty { dispatcher.Stop(); }
      return ScanOK;
    }

    /** Drains the active scans; nothing is left running. */
    method Destroy()
      requires Valid()
      modifies this, registry, registry.entries, dispatcher, workers
      ensures Valid() && workers == {} && Scanning().active == map[] && dispatcher.Value() == Down
      ensures forall w :: w in old(workers) ==> w.destroyed && w.exited
    {
      hide AllSweep, ScanRegistry.Valid, ScanRegistry.Value;
      var scanId := registry.AnyActiveScanId();
      while scanId != 0
        invariant Valid() && registry.entries == old(registry.entries) && workers <= old(workers)
        invariant if Scanning().active == map[] then scanId == 0 else scanId in Scanning().active
        invariant forall w :: w in old(workers) - workers ==> w.destroyed && w.exited
        decreases workers
      {
        var _ := StopScan(scanId);
        scanId := registry.AnyActiveScanId();
      }
      dispatcher.Stop();
    }
  }
}
