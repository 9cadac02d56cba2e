/**
 One background scan: it sweeps the subnet again and again and publishes every host it has not
 seen before, until it is told to stop. The stop flag is written by another thread, so the loop
 only ever looks at it.
 */
module ScanWorkers {
  import opened Common

  datatype Found = Found(host: string, authRequired: bool)

  /** `look` is how often the loop had looked at the stop flag when it published. */
  datatype Publication = Publication(found: Found, look: nat)

  // ----- what a scan is for: first occurrences

  function Hosts(xs: seq<Found>): (hs: seq<string>)
    ensures |hs| == |xs| && forall i :: 0 <= i < |xs| ==> hs[i] == xs[i].host
  {
    seq(|xs|, i requires 0 <= i < |xs| => xs[i].host)
  }

  /** Not found before. An empty host is never recognised as found before. */
  ghost predicate FirstOccurrence(xs: seq<Found>, i: nat)
    requires i < |xs|
  {
    xs[i].host == "" || forall j :: 0 <= j < i ==> xs[j].host != xs[i].host
  }

  ghost function FirstOccurrences(xs: seq<Found>): seq<Found> {
    if xs == [] then []
    else
      var n := |xs| - 1;
      FirstOccurrences(xs[..n]) + if FirstOccurrence(xs, n) then [xs[n]] else []
  }

  /** All that the first `n` sweeps returned; a sweep may fail. */
  function Swept(sweeps: nat -> Option<seq<Found>>, n: nat): seq<Found> {
    if n == 0 then [] else Swept(sweeps, n - 1) + if sweeps(n - 1).Some? then sweeps(n - 1).value else []
  }

  /** The sweeps stand one behind the other, each with its hosts in the order it returned them. */
  lemma {:induction false} SweptInOrder(sweeps: nat -> Option<seq<Found>>, n: nat, m: nat, i: nat)
    requires m < n && sweeps(m).Some? && i < |sweeps(m).value|
    ensures |Swept(sweeps, m)| + i < |Swept(sweeps, n)|
    ensures Swept(sweeps, n)[|Swept(sweeps, m)| + i] == sweeps(m).value[i]
  {
    if m < n - 1 { SweptInOrder(sweeps, n - 1, m, i); }
  }

  /** And nothing else: every host swept was returned by some sweep. */
  lemma {:induction false} SweptIsReturned(sweeps: nat -> Option<seq<Found>>, n: nat, k: nat) returns (m: nat, i: nat)
    requires k < |Swept(sweeps, n)|
    ensures m < n && sweeps(m).Some? && i < |sweeps(m).value| && k == |Swept(sweeps, m)| + i
    ensures Swept(sweeps, n)[k] == sweeps(m).value[i]
  {
    if k < |Swept(sweeps, n - 1)| {
      m, i := SweptIsReturned(sweeps, n - 1, k);
    } else {
      m, i := n - 1, k - |Swept(sweeps, n - 1)|;
    }
  }

  function Founds(log: seq<Publication>): (xs: seq<Found>)
    ensures |xs| == |log| && forall i :: 0 <= i < |log| ==> xs[i] == log[i].found
  {
    seq(|log|, i requires 0 <= i < |log| => log[i].found)
  }

  lemma {:induction false} FirstOccurrencesExtend(xs: seq<Found>, k: nat)
    requires k <= |xs|
    ensures FirstOccurrences(xs[..k]) <= FirstOccurrences(xs)
    decreases |xs| - k
  {
    if k == |xs| {
      assert xs[..k] == xs;
    } else {
      assert xs[..k + 1][..k] == xs[..k];
      FirstOccurrencesExtend(xs, k + 1);
    }
  }

  lemma LastOne(xs: seq<Found>)
    requires xs != []
    ensures var before, last := xs[..|xs| - 1], xs[|xs| - 1].host;
      && Hosts(xs) == Hosts(before) + [last]
      && (FirstOccurrence(xs, |xs| - 1) <==> last == "" || last !in Hosts(before))
      && Hosts(FirstOccurrences(xs)) == Hosts(FirstOccurrences(before)) + if FirstOccurrence(xs, |xs| - 1) then [last]
        else []
  {
    var before := xs[..|xs| - 1];
    forall j | 0 <= j < |before| ensures xs[j].host in Hosts(before) {
      assert Hosts(before)[j] == xs[j].host;
    }
  }

  lemma HostsSplit(xs: seq<Found>, ys: seq<Found>)
    ensures Hosts(xs + ys) == Hosts(xs) + Hosts(ys)
  {
  }

  /** Every host swept is among the first occurrences, and no other. */
  lemma {:induction false} FirstOccurrencesCover(xs: seq<Found>, host: string)
    ensures host in Hosts(FirstOccurrences(xs)) <==> host in Hosts(xs)
  {
    if xs != [] {
      LastOne(xs);
      FirstOccurrencesCover(xs[..|xs| - 1], host);
    }
  }

  lemma DuplicatesOfAppended(hs: seq<string>, h: string)
    ensures NoDuplicates(hs + [h]) <==> NoDuplicates(hs) && h !in hs
  {
    if NoDuplicates(hs + [h]) {
      assert forall i :: 0 <= i < |hs| ==> (hs + [h])[i] == hs[i];
      assert (hs + [h])[|hs|] == h;
    }
  }

  ghost predicate EmptyAtMostOnce(xs: seq<Found>) {
    forall i, j :: 0 <= i < j < |xs| && xs[i].host == "" ==> xs[j].host != ""
  }

  lemma EmptyAtMostOnceSplit(xs: seq<Found>)
    requires xs != []
    ensures EmptyAtMostOnce(xs) <==>
      EmptyAtMostOnce(xs[..|xs| - 1]) && (xs[|xs| - 1].host == "" ==> "" !in Hosts(xs[..|xs| - 1]))
  {
    var before := xs[..|xs| - 1];
    assert forall i :: 0 <= i < |before| ==> before[i] == xs[i] && Hosts(before)[i] == xs[i].host;
  }

  /** The hosts come once each, with the empty host as the one exception. */
  lemma {:induction false} HostsOnceUnlessEmpty(xs: seq<Found>)
    ensures NoDuplicates(Hosts(FirstOccurrences(xs))) <==> EmptyAtMostOnce(xs)
  {
    hide NoDuplicates, EmptyAtMostOnce;
    if xs == [] {
      NothingTwice();
    } else {
      var before, last := xs[..|xs| - 1], xs[|xs| - 1].host;
      LastOne(xs);
      EmptyAtMostOnceSplit(xs);
      HostsOnceUnlessEmpty(before);
      FirstOccurrencesCover(before, last);
      DuplicatesOfAppended(Hosts(FirstOccurrences(before)), last);
      assert Hosts(FirstOccurrences(before)) + [] == Hosts(FirstOccurrences(before));
    }
  }

  lemma NothingTwice()
    ensures NoDuplicates(Hosts([])) && EmptyAtMostOnce([])
  {
  }

  ghost predicate Deduplicated(seen: seq<string>, log: seq<Found>, done: seq<Found>) {
    seen == Hosts(FirstOccurrences(done)) && log == FirstOccurrences(done)
  }

  /** What is left of that when hosts cannot always be recorded: none is missed, none made up. */
  ghost predicate NothingMissed(seen: seq<string>, log: seq<Found>, done: seq<Found>) {
    && (forall h :: h in Hosts(done) <==> h in Hosts(log))
    && (forall h :: h in seen ==> h in Hosts(done))
  }

  lemma DeduplicatedStep(seen: seq<string>, log: seq<Found>, done: seq<Found>, x: Found)
    requires Deduplicated(seen, log, done)
    ensures if x.host == "" || x.host !in seen then Deduplicated(seen + [x.host], log + [x], done + [x])
      else Deduplicated(seen, log, done + [x])
  {
    assert (done + [x])[..|done|] == done;
    LastOne(done + [x]);
    FirstOccurrencesCover(done, x.host);
    HostsSplit(FirstOccurrences(done), [x]);
  }

  lemma NothingMissedStep(seen: seq<string>, log: seq<Found>, done: seq<Found>, x: Found, recorded: bool)
    requires NothingMissed(seen, log, done)
    ensures if x.host == "" || x.host !in seen
      then NothingMissed(if recorded then seen + [x.host] else seen, log + [x], done + [x])
      else NothingMissed(seen, log, done + [x])
  {
    HostsSplit(done, [x]);
    HostsSplit(log, [x]);
    assert Hosts([x]) == [x.host];
  }

  /**
   How the log of a scan relates to its sweeps when it ends: a prefix of the deduplication of
   everything swept, complete up to the last sweep but for at most one host seen and held back.
   */
  lemma LogIsPrefixOfDeduplication(seen: seq<string>, log: seq<Found>, held: seq<Found>,
      sweeps: nat -> Option<seq<Found>>, n: nat, k: nat)
    requires k <= |Swept(sweeps, n)| && (n > 0 ==> |Swept(sweeps, n - 1)| <= k)
    requires Deduplicated(seen, log + held, Swept(sweeps, n)[..k])
    ensures log <= FirstOccurrences(Swept(sweeps, n)) && |seen| == |log| + |held|
    ensures n > 0 ==> FirstOccurrences(Swept(sweeps, n - 1)) <= log + held
    ensures k == |Swept(sweeps, n)| && held == [] ==> log == FirstOccurrences(Swept(sweeps, n))
  {
    var all := Swept(sweeps, n);
    FirstOccurrencesExtend(all, k);
    assert log <= log + held;
    assert all[..|all|] == all && log + [] == log;
    if n > 0 {
      var before := Swept(sweeps, n - 1);
      assert all[..k][..|before|] == before;
      FirstOccurrencesExtend(all[..k], |before|);
    }
  }

  /** Even when hosts cannot be recorded, the hosts looked at are exactly those published or held. */
  lemma NoHostIsMissedOrMadeUp(seen: seq<string>, log: seq<Found>, held: seq<Found>, done: seq<Found>, h: string)
    requires NothingMissed(seen, log + held, done)
    ensures h in Hosts(done) <==> h in Hosts(log) || h in Hosts(held)
    ensures h in seen ==> h in Hosts(done)
  {
    HostsSplit(log, held);
  }

  // ----- the worker

  /** Another thread sets the flag at some moment: before the `setAt`-th look and for good. */
  class StopFlag {
    const setAt: nat
    var looks: nat

    constructor (setAt: nat)
      ensures this.setAt == setAt && looks == 0
    {
      this.setAt, looks := setAt, 0;
    }

    ghost predicate Seen()
      reads this
    {
      looks > setAt
    }

    method Requested() returns (stop: bool)
      modifies this
      ensures looks == old(looks) + 1 && stop == Seen()
    {
      stop := looks >= setAt;
      looks := looks + 1;
    }
  }

  datatype ScanRequest = ScanRequest(
    interfaceId: string, mmsPort: int, sweepIntervalMs: uint32, password: Option<string>)

  datatype ScanError =
    | ScanOK
    | ScanInvalidArgument
    | ScanOutOfMemory
    | DispatcherFailed
    | ThreadCreateFailed
    | DiscoveryCreateFailed
    | ScanNotFound

  /** The copy of the password may fail for itself, and nobody notices. */
  datatype CreateAnswers = CreateAnswers(memoryOk: bool, passwordCopied: bool, discoveryOk: bool)

  function CreateError(request: ScanRequest, a: CreateAnswers): ScanError {
    if request.interfaceId == "" || request.mmsPort <= 0 then ScanInvalidArgument
    else if !a.memoryOk then ScanOutOfMemory
    else if !a.discoveryOk then DiscoveryCreateFailed
    else ScanOK
  }

  /** Which requests can be served at all, and what is missing when one is not. */
  lemma CreateErrorTellsWhatIsMissing(request: ScanRequest, a: CreateAnswers)
    ensures CreateError(request, a) == ScanInvalidArgument <==> request.interfaceId == "" || request.mmsPort <= 0
    ensures CreateError(request, a) == ScanOutOfMemory <==>
      request.interfaceId != "" && request.mmsPort > 0 && !a.memoryOk
    ensures CreateError(request, a) == DiscoveryCreateFailed <==>
      request.interfaceId != "" && request.mmsPort > 0 && a.memoryOk && !a.discoveryOk
    ensures CreateError(request, a) == ScanOK <==>
      request.interfaceId != "" && request.mmsPort > 0 && a.memoryOk && a.discoveryOk
  {
  }

  const InitialSweepGraceMs: uint32 := 300

  class ScanWorker {
    const scanId: nat
    const interfaceId: string
    const mmsPort: int
    const sweepIntervalMs: uint32
    const password: Option<string>
    var seenHosts: array<string>
    var seenCount: nat
    var published: seq<Publication>
    var hasThread: bool
    var stopRequested: bool
    var exited: bool
    var destroyed: bool

    constructor (scanId: nat, interfaceId: string, mmsPort: int, sweepIntervalMs: uint32, password: Option<string>)
      ensures this.scanId == scanId && this.interfaceId == interfaceId && this.mmsPort == mmsPort
      ensures this.sweepIntervalMs == sweepIntervalMs && this.password == password
      ensures fresh(seenHosts) && Follows([], []) && Covers([], []) && published == []
      ensures !hasThread && !stopRequested && !destroyed
    {
      this.scanId, this.interfaceId, this.mmsPort := scanId, interfaceId, mmsPort;
      this.sweepIntervalMs, this.password := sweepIntervalMs, password;
      seenHosts := new string[0];
      seenCount, published := 0, [];
      hasThread, stopRequested, exited, destroyed := false, false, false, false;
    }

    ghost function Seen(): seq<string>
      reads this`seenHosts, this`seenCount, seenHosts
    {
      if seenCount <= seenHosts.Length then seenHosts[..seenCount] else []
    }

    /** Up to date with all of `done`; a host in `held` was recorded but not published. */
    ghost predicate Follows(done: seq<Found>, held: seq<Found>)
      reads this`seenHosts, this`seenCount, this`published, seenHosts
    {
      seenCount <= seenHosts.Length && Deduplicated(Seen(), Founds(published) + held, done)
    }

    ghost predicate Covers(done: seq<Found>, held: seq<Found>)
      reads this`seenHosts, this`seenCount, this`published, seenHosts
    {
      seenCount <= seenHosts.Length && NothingMissed(Seen(), Founds(published) + held, done)
    }

    method IsHostNew(host: string) returns (isNew: bool)
      requires seenCount <= seenHosts.Length
      ensures isNew <==> host == "" || host !in Seen()
    {
      if |host| == 0 { return true; }
      for i := 0 to seenCount
        invariant host !in seenHosts[..i]
      {
        if seenHosts[i] == host { return false; }
      }
      return true;
    }

    method AppendToSeenSet(host: string, memoryOk: bool) returns (ok: bool)
      requires seenCount <= seenHosts.Length
      modifies this`seenHosts, this`seenCount, seenHosts
      ensures seenCount <= seenHosts.Length && (seenHosts == old(seenHosts) || fresh(seenHosts))
      ensures ok == memoryOk && Seen() == old(Seen()) + if ok then [host] else []
    {
      if !memoryOk { return false; }
      ghost var before := seenHosts[..seenCount];
      if seenCount >= seenHosts.Length {
        var newCapacity := if seenHosts.Length > 0 then seenHosts.Length * 2 else 16;
        var grown := new string[newCapacity](_ => "");
        forall i | 0 <= i < seenCount { grown[i] := seenHosts[i]; }
        seenHosts := grown;
      }
      assert seenHosts[..seenCount] == before;
      seenHosts[seenCount] := host;
      seenCount := seenCount + 1;
      assert seenHosts[..seenCount] == before + [host];
      return true;
    }

    /** A copy of the hosts seen so far, for callers that do not listen to the stream. */
    method SnapshotHosts(memoryOk: bool, copied: nat -> bool) returns (hosts: seq<Option<string>>)
      requires seenCount <= seenHosts.Length
      ensures |hosts| == if memoryOk then |Seen()| else 0
      ensures forall i :: 0 <= i < |hosts| ==> hosts[i] == if copied(i) then Some(Seen()[i]) else None
    {
      hosts := [];
      if seenCount == 0 || !memoryOk { return; }
      for i := 0 to seenCount
        invariant |hosts| == i && forall k :: 0 <= k < i ==> hosts[k] == if copied(k) then Some(Seen()[k]) else None
      {
        hosts := hosts + [if copied(i) then Some(seenHosts[i]) else None];
      }
    }

    /** In chunks, so that a stop is noticed before the whole interval has passed. */
    method InterruptibleSleep(totalMs: uint32, flag: StopFlag) returns (slept: uint32)
      modifies flag
      ensures flag.looks >= old(flag.looks)
      ensures slept <= totalMs && (slept == totalMs || flag.Seen())
    {
      var chunkMs: uint32 := 20;
      slept := 0;
      while slept < totalMs
        invariant slept <= totalMs && flag.looks >= old(flag.looks)
        decreases totalMs - slept
      {
        var stop := flag.Requested();
        if stop { break; }
        slept := slept + if totalMs - slept < chunkMs then totalMs - slept else chunkMs;
      }
    }

    // ----- its life

    /** The creation that fails leaves nothing; a zero interval means the default. */
    static method Create(scanId: nat, request: ScanRequest, defaultSweepIntervalMs: uint32, a: CreateAnswers)
      returns (worker: ScanWorker?, err: ScanError)
      ensures err == CreateError(request, a) && (worker != null <==> err == ScanOK)
      ensures worker != null ==> worker.interfaceId != "" && worker.mmsPort > 0
      ensures err == ScanInvalidArgument <==> request.interfaceId == "" || request.mmsPort <= 0
      ensures err == ScanOutOfMemory <==> request.interfaceId != "" && request.mmsPort > 0 && !a.memoryOk
      ensures err == DiscoveryCreateFailed <==>
        request.interfaceId != "" && request.mmsPort > 0 && a.memoryOk && !a.discoveryOk
      ensures err == ScanOK <==> request.interfaceId != "" && request.mmsPort > 0 && a.memoryOk && a.discoveryOk
      ensures worker != null ==>
        && fresh(worker) && fresh(worker.seenHosts) && worker.Follows([], []) && worker.Covers([], [])
        && worker.published == [] && !worker.hasThread && !worker.stopRequested && !worker.destroyed
        && worker.scanId == scanId && worker.interfaceId == request.interfaceId && worker.mmsPort == request.mmsPort
        && worker.password == (if a.passwordCopied then request.password else None)
        && worker.sweepIntervalMs == if request.sweepIntervalMs > 0 then request.sweepIntervalMs
          else defaultSweepIntervalMs
    {
      worker := null;
      if |request.interfaceId| == 0 || request.mmsPort <= 0 { return null, ScanInvalidArgument; }
      if !a.memoryOk { return null, ScanOutOfMemory; }
      if !a.discoveryOk { return null, DiscoveryCreateFailed; }
      var interval := if request.sweepIntervalMs > 0 then request.sweepIntervalMs else defaultSweepIntervalMs;
      var password := if a.passwordCopied then request.password else None;
      worker := new ScanWorker(scanId, request.interfaceId, request.mmsPort, interval, password);
      return worker, ScanOK;
    }

    /** Alive: its thread sweeps, and nobody has asked it to stop. */
    predicate Sweeping()
      reads this
    {
      hasThread && !stopRequested && !destroyed
    }

    method Start(threadOk: bool) returns (err: ScanError)
      requires !hasThread && !destroyed && !stopRequested
      modifies this`stopRequested, this`exited, this`hasThread
      ensures err == (if threadOk then ScanOK else ThreadCreateFailed)
      ensures !stopRequested && !exited && hasThread == threadOk
    {
      stopRequested, exited := false, false;
      hasThread := threadOk;
      return if threadOk then ScanOK else ThreadCreateFailed;
    }

    /** Waits for the thread, whose loop ends once it sees the flag; a second stop does nothing. */
    method Stop()
      requires stopRequested && hasThread ==> exited
      modifies this`stopRequested, this`exited
      ensures stopRequested && (hasThread ==> exited)
    {
      if stopRequested { return; }
      stopRequested := true;
      if hasThread { exited := true; }
    }

    /** The thread is over before anything it uses is freed. */
    method Destroy()
      requires !destroyed && (stopRequested && hasThread ==> exited)
      modifies this
      ensures destroyed && stopRequested && !hasThread && (old(hasThread) ==> exited)
    {
      Stop();
      hasThread := false;
      destroyed := true;
    }

    // ----- the sweep loop; `perfect` says that every new host could be recorded

    /** Everything written to the log since `before` was published before the stop was seen. */
    ghost predicate InTime(before: seq<Publication>, flag: StopFlag)
      reads this`published
    {
      && before <= published
      && forall i :: |before| <= i < |published| ==> published[i].look <= flag.setAt
    }

    method Announce(x: Found, memoryOk: bool, flag: StopFlag, ghost done: seq<Found>, ghost perfect: bool)
      returns (ghost held: seq<Found>)
      requires Covers(done, []) && (perfect ==> Follows(done, []) && memoryOk)
      modifies this`seenHosts, this`seenCount, this`published, seenHosts, flag
      ensures seenHosts == old(seenHosts) || fresh(seenHosts)
      ensures Covers(done + [x], held) && (perfect ==> Follows(done + [x], held))
      ensures |held| <= 1 && (held != [] ==> flag.Seen()) && flag.looks >= old(flag.looks)
      ensures InTime(old(published), flag)
    {
      hide Deduplicated, NothingMissed;
      ghost var seen := Seen();
      assert Founds(published) + [] == Founds(published) && seen + [] == seen;
      NothingMissedStep(seen, Founds(published), done, x, memoryOk);
      if perfect { DeduplicatedStep(seen, Founds(published), done, x); }
      var isNew := IsHostNew(x.host);
      if isNew { var _ := AppendToSeenSet(x.host, memoryOk); }
      held := [];
      if isNew {
        var stop := flag.Requested();
        if stop {
          held := [x];
        } else {
          published := published + [Publication(x, flag.looks)];
          assert Founds(published) + [] == Founds(old(published)) + [x];
        }
      }
    }

    /** One sweep's results, until they are through or the stop is seen; `k` of them were looked at. */
    method PublishNew(results: seq<Found>, memory: nat -> bool, flag: StopFlag, ghost done: seq<Found>,
        ghost perfect: bool)
      returns (ghost k: nat, ghost held: seq<Found>)
      requires Covers(done, []) && (perfect ==> Follows(done, []) && forall i :: memory(i))
      modifies this`seenHosts, this`seenCount, this`published, seenHosts, flag
      ensures seenHosts == old(seenHosts) || fresh(seenHosts)
      ensures k <= |results| && |held| <= 1 && (k < |results| || held != [] ==> flag.Seen())
      ensures Covers(done + results[..k], held) && (perfect ==> Follows(done + results[..k], held))
      ensures flag.looks >= old(flag.looks) && InTime(old(published), flag)
    {
      hide Covers, Follows;
      held := [];
      assert done + results[..0] == done;
      var i := 0;
      while i < |results|
        invariant i <= |results| && |held| <= 1 && (held != [] ==> flag.Seen())
        invariant Covers(done + results[..i], held) && (perfect ==> Follows(done + results[..i], held))
        invariant seenHosts == old(seenHosts) || fresh(seenHosts)
        invariant flag.looks >= old(flag.looks) && InTime(old(published), flag)
      {
        var stop := flag.Requested();
        if stop { break; }
        assert done + results[..i + 1] == done + results[..i] + [results[i]];
        held := Announce(results[i], memory(flag.looks), flag, done + results[..i], perfect);
        i := i + 1;
      }
      k := i;
    }

    /**
     Sweeps until the stop is seen. `n` sweeps were made and the first `k` of all the hosts they
     returned were looked at; only the last sweep can have been cut short, and only the last host
     looked at can have been recorded without being published.
     */
    method SweepLoop(sweeps: nat -> Option<seq<Found>>, memory: nat -> bool, flag: StopFlag)
      returns (ghost n: nat, ghost k: nat, ghost held: seq<Found>)
      requires Follows([], []) && Covers([], []) && published == []
      modifies this, seenHosts, flag
      ensures exited && flag.Seen()
      ensures k <= |Swept(sweeps, n)| && (n > 0 ==> |Swept(sweeps, n - 1)| <= k)
      ensures |held| <= 1 && Covers(Swept(sweeps, n)[..k], held)
      ensures (forall i :: memory(i)) ==> Follows(Swept(sweeps, n)[..k], held)
      ensures forall i :: 0 <= i < |published| ==> published[i].look <= flag.setAt
    {
      hide Covers, Follows;
      ghost var perfect := forall i :: memory(i);
      var _ := InterruptibleSleep(InitialSweepGraceMs, flag);
      n, k, held := 0, 0, [];
      var sweep := 0;
      var stop := flag.Requested();
      while !stop
        invariant n == sweep && k <= |Swept(sweeps, n)| && (n > 0 ==> |Swept(sweeps, n - 1)| <= k)
        invariant k < |Swept(sweeps, n)| || held != [] ==> flag.Seen()
        invariant |held| <= 1 && stop == flag.Seen()
        invariant Covers(Swept(sweeps, n)[..k], held) && (perfect ==> Follows(Swept(sweeps, n)[..k], held))
        invariant seenHosts == old(seenHosts) || fresh(seenHosts)
        invariant InTime([], flag)
        decreases flag.setAt + 1 - flag.looks
      {
        ghost var done := Swept(sweeps, n);
        assert done[..k] == done;
        var results := sweeps(sweep);
        if results.Some? {
          ghost var j;
          j, held := PublishNew(results.value, memory, flag, done, perfect);
          k := k + j;
          assert Swept(sweeps, n + 1)[..k] == done + results.value[..j];
        } else {
          assert Swept(sweeps, n + 1)[..k] == done;
        }
        sweep := sweep + 1;
        n := sweep;
        var _ := InterruptibleSleep(sweepIntervalMs, flag);
        stop := flag.Requested();
      }
      exited := true;
    }
  }
}
