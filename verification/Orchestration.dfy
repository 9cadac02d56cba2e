/**
 The orchestration handle: three ways to obtain a model, two shared tails, about a dozen failure
 exits, stop and destroy. What the sub-features answer is a parameter of each run. Every
 acquisition, use and release goes to the handle's log, which OrchestrationLedger judges: a
 method can write an event only by proving that the event is allowed.
 */
module Orchestration {
  import opened Common
  import opened OrchestrationLedger
  import opened ResultLists

  datatype Error =
    | OK
    | InvalidArgument
    | IpcDispatcherFailed
    | BootstrapFailed
    | StagingFailed
    | IedNameResolutionFailed
    | ModelLoadFailed
    | ReportClientFailed
    | GooseSubscriberFailed
    | OnlineDiscoveryFailed
    | NoCapabilities

  datatype Stage =
    | StageNone
    | IpcDispatcherStart
    | BootstrapStage
    | StagingStage
    | IedNameResolution
    | ModelLoad
    | OnlineDiscovery
    | ReportClientStart
    | GooseSubscriberStart
    | NoCapabilitiesStage

  datatype Detail = Detail(stage: Stage, lastCandidateStatus: CandidateStatus, discoveredIedCount: nat)

  const ClearDetail := Detail(StageNone, NoMmsServer, 0)

  datatype StartAnswer = Started | NoTargets | StartFails

  /** What the report client and the goose subscriber answer. */
  datatype TailAnswers = TailAnswers(
    reportCreated: bool, reportStart: StartAnswer, gooseCreated: bool, gooseStart: StartAnswer)

  /**
   `namesListed` is the number of IED names found, or None if the file could not be listed;
   `nameCopied` says whether memory was found for a copy of the only one.
   */
  datatype SclAnswers = SclAnswers(namesListed: Option<nat>, nameCopied: bool, modelLoads: bool, tail: TailAnswers)

  /** `scan` is one status per candidate (None for a missing result), or None if the scan itself fails. */
  datatype BootstrapAnswers = BootstrapAnswers(
    created: bool, scan: Option<seq<Option<CandidateStatus>>>, staged: bool, scl: SclAnswers)

  // ----- which exit a run takes, as documented: the first stage that fails decides

  function TailError(t: TailAnswers): Error {
    if !t.reportCreated || t.reportStart == StartFails then ReportClientFailed
    else if !t.gooseCreated || t.gooseStart == StartFails then GooseSubscriberFailed
    else if t.reportStart == NoTargets && t.gooseStart == NoTargets then NoCapabilities
    else OK
  }

  function SclError(s: SclAnswers, iedName: string): Error {
    if iedName == "" && s.namesListed != Some(1) then IedNameResolutionFailed
    else if !s.modelLoads then ModelLoadFailed
    else TailError(s.tail)
  }

  predicate SomeRetrieved(scan: seq<Option<CandidateStatus>>) {
    Some(FileRetrieved) in scan
  }

  function BootstrapError(b: BootstrapAnswers, iedName: string): Error {
    if !b.created || b.scan == None || !SomeRetrieved(b.scan.value) then BootstrapFailed
    else if !b.staged then StagingFailed
    else SclError(b.scl, iedName)
  }

  function OnlineError(ipcStarts: bool, modelBuilt: bool, t: TailAnswers): Error {
    if !ipcStarts then IpcDispatcherFailed else if !modelBuilt then OnlineDiscoveryFailed else TailError(t)
  }

  function StageOf(err: Error): Stage {
    match err
    case OK => StageNone
    case InvalidArgument => StageNone
    case IpcDispatcherFailed => IpcDispatcherStart
    case BootstrapFailed => BootstrapStage
    case StagingFailed => StagingStage
    case IedNameResolutionFailed => IedNameResolution
    case ModelLoadFailed => ModelLoad
    case ReportClientFailed => ReportClientStart
    case GooseSubscriberFailed => GooseSubscriberStart
    case OnlineDiscoveryFailed => OnlineDiscovery
    case NoCapabilities => NoCapabilitiesStage
  }

  // ----- what the exits mean, in terms of the answers alone

  /** Both clients can be made, neither fails to start, and one side without targets is no failure. */
  predicate ProducersStart(t: TailAnswers) {
    && t.reportCreated && t.gooseCreated && t.reportStart != StartFails && t.gooseStart != StartFails
    && (t.reportStart == Started || t.gooseStart == Started)
  }

  predicate Named(s: SclAnswers, iedName: string) {
    iedName != "" || s.namesListed == Some(1)
  }

  predicate Retrieves(b: BootstrapAnswers) {
    b.created && b.scan.Some? && exists i :: 0 <= i < |b.scan.value| && b.scan.value[i] == Some(FileRetrieved)
  }

  lemma TailExits(t: TailAnswers)
    ensures TailError(t) == OK <==>
      && t.reportCreated && t.gooseCreated && t.reportStart != StartFails && t.gooseStart != StartFails
      && (t.reportStart == Started || t.gooseStart == Started)
    ensures TailError(t) == OK <==> ProducersStart(t)
    ensures TailError(t) == ReportClientFailed <==> !t.reportCreated || t.reportStart == StartFails
    ensures TailError(t) == GooseSubscriberFailed <==>
      && t.reportCreated && t.reportStart != StartFails
      && (!t.gooseCreated || t.gooseStart == StartFails)
    ensures TailError(t) == NoCapabilities <==>
      t.reportCreated && t.gooseCreated && t.reportStart == NoTargets && t.gooseStart == NoTargets
    ensures TailError(t) in {OK, ReportClientFailed, GooseSubscriberFailed, NoCapabilities}
  {
  }

  /** A protocol that the device does not have never fails a run whose other protocol starts. */
  lemma OneProtocolIsEnough(t: TailAnswers)
    requires t.reportCreated && t.gooseCreated
    ensures t.reportStart == NoTargets && t.gooseStart == Started ==> TailError(t) == OK
    ensures t.reportStart == Started && t.gooseStart == NoTargets ==> TailError(t) == OK
  {
  }

  lemma SclExits(s: SclAnswers, iedName: string)
    ensures SclError(s, iedName) == OK <==>
      (iedName != "" || s.namesListed == Some(1)) && s.modelLoads && ProducersStart(s.tail)
    ensures SclError(s, iedName) == IedNameResolutionFailed <==> iedName == "" && s.namesListed != Some(1)
    ensures SclError(s, iedName) == ModelLoadFailed <==> (iedName != "" || s.namesListed == Some(1)) && !s.modelLoads
    ensures SclError(s, iedName) !in {InvalidArgument, IpcDispatcherFailed, BootstrapFailed, StagingFailed}
  {
    TailExits(s.tail);
  }

  lemma BootstrapExits(b: BootstrapAnswers, iedName: string)
    ensures BootstrapError(b, iedName) == OK <==>
      Retrieves(b) && b.staged && Named(b.scl, iedName) && b.scl.modelLoads && ProducersStart(b.scl.tail)
    ensures BootstrapError(b, iedName) == BootstrapFailed <==>
      !b.created || b.scan == None || forall i :: 0 <= i < |b.scan.value| ==> b.scan.value[i] != Some(FileRetrieved)
    ensures BootstrapError(b, iedName) == StagingFailed <==> Retrieves(b) && !b.staged
    ensures BootstrapError(b, iedName) !in {InvalidArgument, IpcDispatcherFailed}
  {
    SclExits(b.scl, iedName);
  }

  lemma OnlineExits(ipcStarts: bool, modelBuilt: bool, t: TailAnswers)
    ensures OnlineError(ipcStarts, modelBuilt, t) == OK <==> ipcStarts && modelBuilt && ProducersStart(t)
    ensures OnlineError(ipcStarts, modelBuilt, t) == IpcDispatcherFailed <==> !ipcStarts
    ensures OnlineError(ipcStarts, modelBuilt, t) == OnlineDiscoveryFailed <==> ipcStarts && !modelBuilt
    ensures OnlineError(ipcStarts, modelBuilt, t) !in {InvalidArgument, BootstrapFailed}
  {
    TailExits(t);
  }

  /** The stage in the detail tells one failure from another. */
  lemma StageTellsTheFailure(err: Error)
    ensures StageOf(err) == StageNone <==> err == OK || err == InvalidArgument
    ensures StageOf(err) == IpcDispatcherStart <==> err == IpcDispatcherFailed
    ensures StageOf(err) == BootstrapStage <==> err == BootstrapFailed
    ensures StageOf(err) == StagingStage <==> err == StagingFailed
    ensures StageOf(err) == IedNameResolution <==> err == IedNameResolutionFailed
    ensures StageOf(err) == ModelLoad <==> err == ModelLoadFailed
    ensures StageOf(err) == OnlineDiscovery <==> err == OnlineDiscoveryFailed
    ensures StageOf(err) == ReportClientStart <==> err == ReportClientFailed
    ensures StageOf(err) == GooseSubscriberStart <==> err == GooseSubscriberFailed
    ensures StageOf(err) == NoCapabilitiesStage <==> err == NoCapabilities
  {
  }

  /** The status reported for a failed bootstrap is the last candidate's, if there is one. */
  lemma FailureStatusIsTheLast(b: BootstrapAnswers)
    ensures b.created && b.scan.Some? && b.scan.value != [] && b.scan.value[|b.scan.value| - 1].Some? ==>
      FailureStatus(b) == b.scan.value[|b.scan.value| - 1].value
    ensures !b.created || b.scan == None || b.scan.value == [] || b.scan.value[|b.scan.value| - 1] == None ==>
      FailureStatus(b) == NoMmsServer
  {
  }

  /** Which of the two protocols a successful run found on the device. */
  datatype Availability = Availability(mms: bool, goose: bool)

  class OrchestrationHandle {
    const port: uint16
    const password: Option<string>
    var ipcUp: bool
    var iedModel: Option<nat>
    var reportClient: Option<nat>
    var gooseSubscriber: Option<nat>
    var running: bool
    var destroyed: bool
    var log: seq<Event>
    ghost var runs: nat     // how many runs were attempted, their arguments being in order

    ghost function Books(): Option<Ledger>
      reads this`log
    {
      Replay(log)
    }

    /** The log replays to exactly these live resources, and the dispatcher is as recorded. */
    ghost predicate Holds(live: map<nat, Kind>)
      reads this`log, this`ipcUp
    {
      Books() == Some(Ledger(live, ipcUp)) && forall r :: r in live ==> r < |log|
    }

    ghost function Owned(): map<nat, Kind>
      reads this`iedModel, this`reportClient, this`gooseSubscriber
    {
      (if iedModel.Some? then map[iedModel.value := Model] else map[])
      + (if reportClient.Some? && iedModel.Some?
         then map[reportClient.value := ReportClient(iedModel.value)] else map[])
      + (if gooseSubscriber.Some? && iedModel.Some?
         then map[gooseSubscriber.value := GooseSubscriber(iedModel.value)] else map[])
    }

    /** Either running, with a model and at least one producer, or stopped, with nothing at all. */
    ghost predicate Valid()
      reads this`log, this`ipcUp, this`iedModel, this`reportClient, this`gooseSubscriber, this`running, this`destroyed
    {
      && Holds(Owned())
      && running == ipcUp == iedModel.Some? == (reportClient.Some? || gooseSubscriber.Some?)
      && (running ==> reportClient != iedModel && gooseSubscriber != iedModel)
      && (reportClient.Some? ==> reportClient != gooseSubscriber)
      && !destroyed
    }

    ghost predicate Stopped()
      reads this`log, this`ipcUp, this`iedModel, this`reportClient, this`gooseSubscriber, this`running, this`destroyed
    {
      Valid() && !running
    }

    constructor (port: uint16, password: Option<string>)
      ensures Stopped() && this.port == port && this.password == password && log == [] && runs == 0
    {
      this.port, this.password := port, password;
      ipcUp, running, destroyed := false, false, false;
      iedModel, reportClient, gooseSubscriber := None, None, None;
      log, runs := [], 0;
    }

    // ----- the sub-features, as far as the books are concerned

    method Acquire(kind: Kind, ghost live: map<nat, Kind>) returns (r: nat)
      requires Holds(live)
      requires IsProducer(kind) ==> ipcUp && kind.model in live && live[kind.model] == Model
      modifies this`log
      ensures log == old(log) + [Event.Acquire(kind)]
      ensures r !in live && Holds(live[r := kind])
    {
      r := |log|;
      log := log + [Event.Acquire(kind)];
      assert log[..r] == old(log);
    }

    method Use(r: nat, ghost live: map<nat, Kind>)
      requires Holds(live) && r in live
      modifies this`log
      ensures log == old(log) + [Event.Use(r)] && Holds(live)
    {
      log := log + [Event.Use(r)];
      assert log[..|log| - 1] == old(log);
    }

    /** `rest` is what stays. */
    method Release(r: nat, kind: Kind, ghost rest: map<nat, Kind>)
      requires Holds(rest[r := kind]) && r !in rest
      requires forall p :: p in rest && IsProducer(rest[p]) ==> rest[p].model != r
      requires IsProducer(kind) ==> kind.model != r
      modifies this`log
      ensures log == old(log) + [Event.Release(r)] && Holds(rest)
    {
      log := log + [Event.Release(r)];
      assert log[..|log| - 1] == old(log);
      assert rest[r := kind] - {r} == rest;
    }

    method StartIpc(answer: bool) returns (ok: bool)
      requires Stopped()
      modifies this`log, this`ipcUp
      ensures ok == answer == ipcUp && Holds(map[])
      ensures log == old(log) + if ok then [IpcStart] else []
    {
      assert Owned() == map[];
      if !answer { return false; }
      ipcUp := true;
      log := log + [IpcStart];
      assert log[..|log| - 1] == old(log);
      return true;
    }

    /** Safe whether or not the dispatcher was ever started. */
    method StopIpc(ghost live: map<nat, Kind>)
      requires Holds(live) && forall p :: p in live ==> !IsProducer(live[p])
      modifies this`log, this`ipcUp
      ensures !ipcUp && log == old(log) + [IpcStop] && Holds(live)
    {
      ipcUp := false;
      log := log + [IpcStop];
      assert log[..|log| - 1] == old(log);
    }

    /** The common end of every failure once there is a model. */
    method Abandon(model: nat, report: Option<nat>, ghost others: map<nat, Kind>)
      requires model !in others && forall p :: p in others ==> !IsProducer(others[p])
      requires report.Some? ==> report.value !in others && report.value != model
      requires Holds(WithReport(others, model, report))
      modifies this`log, this`ipcUp
      ensures !ipcUp && old(log) <= log && Holds(others)
    {
      hide Holds;
      if report.Some? { Release(report.value, ReportClient(model), others[model := Model]); }
      Release(model, Model, others);
      StopIpc(others);
    }

    // ----- the shared tails

    /**
     Takes ownership of the model. `hostOwner` is the resource the host string lives in, if it is
     not the caller's own; `others` is what else this handle holds meanwhile.
     */
    method RunFromIedModelHandle(model: nat, hostOwner: Option<nat>, t: TailAnswers, ghost others: map<nat, Kind>)
      returns (err: Error, stage: Stage, available: Option<Availability>)
      requires ipcUp && Blank() && model !in others && Holds(others[model := Model])
      requires forall r :: r in others ==> !IsProducer(others[r])
      requires hostOwner.Some? ==> hostOwner.value in others
      modifies this`log, this`ipcUp, this`iedModel, this`reportClient, this`gooseSubscriber, this`running
      ensures err == TailError(t) && stage == StageOf(err) && old(log) <= log
      ensures err == OK <==>
        && t.reportCreated && t.gooseCreated && t.reportStart != StartFails && t.gooseStart != StartFails
        && (t.reportStart == Started || t.gooseStart == Started)
      ensures err == ReportClientFailed <==> !t.reportCreated || t.reportStart == StartFails
      ensures err == NoCapabilities <==>
        t.reportCreated && t.gooseCreated && t.reportStart == NoTargets && t.gooseStart == NoTargets
      ensures available == if err == OK then Some(Availability(t.reportStart == Started, t.gooseStart == Started))
        else None
      ensures RunEnded(err, available, others)
    {
      hide Holds;
      TailExits(t);
      ghost var withModel := others[model := Model];
      if hostOwner.Some? { Use(hostOwner.value, withModel); }
      if !t.reportCreated {
        Abandon(model, None, others);
        return ReportClientFailed, ReportClientStart, None;
      }
      var report := Acquire(ReportClient(model), withModel);
      var kept: Option<nat> := Some(report);
      if t.reportStart != Started {
        Release(report, ReportClient(model), withModel);
        kept := None;
        if t.reportStart != NoTargets {
          Abandon(model, None, others);
          return ReportClientFailed, ReportClientStart, None;
        }
      }
      err, stage, available := StartGoose(model, kept, t, others);
    }

    /** The second half of RunFromIedModelHandle, once the report client has started or been skipped. */
    method StartGoose(model: nat, report: Option<nat>, t: TailAnswers, ghost others: map<nat, Kind>)
      returns (err: Error, stage: Stage, available: Option<Availability>)
      requires ipcUp && Blank() && model !in others
      requires forall r :: r in others ==> !IsProducer(others[r])
      requires report.Some? ==> report.value !in others && report.value != model
      requires Holds(WithReport(others, model, report))
      modifies this`log, this`ipcUp, this`iedModel, this`reportClient, this`gooseSubscriber, this`running
      ensures err == (if !t.gooseCreated || t.gooseStart == StartFails then GooseSubscriberFailed
                      else if report == None && t.gooseStart == NoTargets then NoCapabilities else OK)
      ensures stage == StageOf(err) && old(log) <= log
      ensures available == if err == OK then Some(Availability(report.Some?, t.gooseStart == Started)) else None
      ensures RunEnded(err, available, others)
    {
      hide Holds, RunEnded, Owned;
      ghost var before := WithReport(others, model, report);
      if !t.gooseCreated {
        Abandon(model, report, others);
        GaveUp(GooseSubscriberFailed, others);
        return GooseSubscriberFailed, GooseSubscriberStart, None;
      }
      var goose := Acquire(GooseSubscriber(model), before);
      var kept: Option<nat> := Some(goose);
      if t.gooseStart != Started {
        Release(goose, GooseSubscriber(model), before);
        kept := None;
        if t.gooseStart != NoTargets {
          Abandon(model, report, others);
          GaveUp(GooseSubscriberFailed, others);
          return GooseSubscriberFailed, GooseSubscriberStart, None;
        }
      }
      if report == None && kept == None {
        Abandon(model, report, others);
        GaveUp(NoCapabilities, others);
        return NoCapabilities, NoCapabilitiesStage, None;
      }
      Keep(model, report, kept, others);
      return OK, StageNone, Some(Availability(report.Some?, kept.Some?));
    }

    /**
     Lists the IED names when none was given; `count` is what the failure detail reports. A copy
     that fails for lack of memory is not noticed here: the model is loaded without a name.
     */
    method ResolveIedName(tempFile: Option<nat>, s: SclAnswers, ghost live: map<nat, Kind>)
      returns (resolved: bool, nameCopy: Option<nat>, count: nat)
      requires Holds(live) && (tempFile.Some? ==> tempFile.value in live)
      requires forall r :: r in live ==> !IsProducer(live[r])
      modifies this`log
      ensures old(log) <= log && ipcUp == old(ipcUp)
      ensures resolved <==> s.namesListed == Some(1)
      ensures nameCopy.Some? <==> resolved && s.nameCopied
      ensures (nameCopy.Some? ==> nameCopy.value !in live) && Holds(With(live, nameCopy, NameCopy))
      ensures !resolved ==> count == if s.namesListed.Some? then s.namesListed.value else 0
    {
      hide Holds;
      if tempFile.Some? { Use(tempFile.value, live); }
      if s.namesListed == None { return false, None, 0; }
      var names := Acquire(NameList, live);
      if s.namesListed.value != 1 {
        Release(names, NameList, live);
        return false, None, s.namesListed.value;
      }
      Use(names, live[names := NameList]);
      if !s.nameCopied {
        Release(names, NameList, live);
        return true, None, 1;
      }
      var copy := Acquire(NameCopy, live[names := NameList]);
      assert live[names := NameList][copy := NameCopy] == live[copy := NameCopy][names := NameList];
      Release(names, NameList, live[copy := NameCopy]);
      return true, Some(copy), 1;
    }

    /** Parses the file into a model; afterwards the temp file and the name have no purpose. */
    method LoadModel(tempFile: Option<nat>, nameCopy: Option<nat>, loads: bool, ghost others: map<nat, Kind>)
      returns (model: Option<nat>)
      requires tempFile.Some? ==> tempFile.value !in others
      requires nameCopy.Some? ==> nameCopy.value !in With(others, tempFile, TempFile)
      requires Holds(With(With(others, tempFile, TempFile), nameCopy, NameCopy))
      requires forall r :: r in others ==> !IsProducer(others[r])
      modifies this`log
      ensures old(log) <= log && ipcUp == old(ipcUp)
      ensures model.Some? <==> loads
      ensures (model.Some? ==> model.value !in others) && Holds(With(others, model, Model))
    {
      hide Holds;
      ghost var live := With(With(others, tempFile, TempFile), nameCopy, NameCopy);
      if tempFile.Some? { Use(tempFile.value, live); }
      if nameCopy.Some? { Use(nameCopy.value, live); }
      if loads {
        var m := Acquire(Model, live);
        model := Some(m);
      } else {
        model := None;
      }
      ghost var afterFile := With(With(others, nameCopy, NameCopy), model, Model);
      if tempFile.Some? {
        assert With(live, model, Model) == afterFile[tempFile.value := TempFile];
        Release(tempFile.value, TempFile, afterFile);
      }
      if nameCopy.Some? {
        assert afterFile == With(others, model, Model)[nameCopy.value := NameCopy];
        Release(nameCopy.value, NameCopy, With(others, model, Model));
      }
    }

    /** `tempFile` is the staged file, owned and deleted here, or None for the caller's own file. */
    method RunFromSclFile(tempFile: Option<nat>, hostOwner: Option<nat>, iedName: string, s: SclAnswers,
        ghost others: map<nat, Kind>)
      returns (err: Error, detail: Detail, available: Option<Availability>)
      requires ipcUp && Blank() && (tempFile.Some? ==> tempFile.value !in others)
      requires Holds(With(others, tempFile, TempFile))
      requires forall r :: r in others ==> !IsProducer(others[r])
      requires hostOwner.Some? ==> hostOwner.value in others
      modifies this`log, this`ipcUp, this`iedModel, this`reportClient, this`gooseSubscriber, this`running
      ensures err == SclError(s, iedName) && old(log) <= log
      ensures detail == Detail(StageOf(err), NoMmsServer,
        if err == IedNameResolutionFailed && s.namesListed.Some? then s.namesListed.value else 0)
      ensures available ==
        if err == OK then Some(Availability(s.tail.reportStart == Started, s.tail.gooseStart == Started)) else None
      ensures RunEnded(err, available, others)
    {
      hide Holds, RunEnded, Owned;
      var nameCopy: Option<nat> := None;
      if iedName == "" {
        var resolved, count;
        resolved, nameCopy, count := ResolveIedName(tempFile, s, With(others, tempFile, TempFile));
        if !resolved {
          if tempFile.Some? { Release(tempFile.value, TempFile, others); }
          StopIpc(others);
          GaveUp(IedNameResolutionFailed, others);
          return IedNameResolutionFailed, Detail(IedNameResolution, NoMmsServer, count), None;
        }
      }
      var model := LoadModel(tempFile, nameCopy, s.modelLoads, others);
      if model == None {
        StopIpc(others);
        GaveUp(ModelLoadFailed, others);
        return ModelLoadFailed, Detail(ModelLoad, NoMmsServer, 0), None;
      }
      var stage;
      err, stage, available := RunFromIedModelHandle(model.value, hostOwner, s.tail, others);
      detail := Detail(stage, NoMmsServer, 0);
    }

    // ----- bootstrap

    /** One result per candidate, each a resource of its own. */
    method ScanAndFetch(scan: seq<Option<CandidateStatus>>, ghost live: map<nat, Kind>) returns (results: ResultList)
      requires Holds(live)
      modifies this`log
      ensures fresh(results) && old(log) <= log && ipcUp == old(ipcUp)
      ensures Answers(results.items, scan) && Separate(results.items, live)
      ensures Holds(live + Candidates(results.items))
    {
      hide Holds, Candidates;
      var items: seq<Option<Result>> := [];
      NoCandidates(live);
      for i := 0 to |scan|
        invariant old(log) <= log && ipcUp == old(ipcUp)
        invariant Answers(items, scan[..i]) && Separate(items, live)
        invariant Holds(live + Candidates(items))
      {
        ghost var before := items;
        if scan[i].Some? {
          var r := Acquire(Candidate, live + Candidates(items));
          CandidatesAreLive(items, live);
          items := items + [Some(Result(r, scan[i].value))];
        } else {
          items := items + [None];
        }
        CandidatesAppend(before, items[|before|], live);
      }
      assert scan[..|scan|] == scan;
      results := new ResultList(items);
    }

    /** Releases every result still in the list. */
    method DestroyDeep(results: ResultList, ghost rest: map<nat, Kind>)
      requires Separate(results.items, rest) && Holds(rest + Candidates(results.items))
      requires forall r :: r in rest ==> !IsProducer(rest[r])
      modifies this`log
      ensures old(log) <= log && Holds(rest)
    {
      hide Holds, Candidates, Separate;
      var items := results.items;
      for i := 0 to |items|
        invariant old(log) <= log && Separate(items[i..], rest) && Holds(rest + Candidates(items[i..]))
      {
        CandidatesSplit(items[i..], rest);
        assert items[i..][1..] == items[i + 1..];
        if items[i].Some? {
          CandidatesAreNoProducers(items[i + 1..], rest);
          Release(items[i].value.resource, Candidate, rest + Candidates(items[i + 1..]));
        }
      }
      NoCandidates(rest);
    }

    /** Scans the candidates and keeps the first one whose file was retrieved. */
    method FetchScl(b: BootstrapAnswers) returns (winner: Option<nat>, lastStatus: CandidateStatus)
      requires ipcUp && Holds(map[])
      modifies this`log, this`ipcUp
      ensures old(log) <= log
      ensures winner.Some? <==> b.created && b.scan.Some? && SomeRetrieved(b.scan.value)
      ensures winner.Some? ==> ipcUp && Holds(map[winner.value := Candidate])
      ensures winner == None ==> !ipcUp && Holds(map[]) && lastStatus == FailureStatus(b)
      ensures winner == None && b.created && b.scan.Some? && b.scan.value != [] ==>
        b.scan.value[|b.scan.value| - 1] == Some(lastStatus) || b.scan.value[|b.scan.value| - 1] == None
    {
      hide Holds, Candidates, Separate, Answers, SomeRetrieved, FirstRetrieved, FailureStatus, StatusOfLast;
      FailureStatusIsTheLast(b);
      FailureStatusUnfolds(b);
      if !b.created {
        StopIpc(map[]);
        return None, NoMmsServer;
      }
      var scl := Acquire(Bootstrap, map[]);
      ghost var live := map[scl := Bootstrap];
      assert map[][scl := Bootstrap] == live;
      if b.scan == None {
        Release(scl, Bootstrap, map[]);
        StopIpc(map[]);
        return None, NoMmsServer;
      }
      var results := ScanAndFetch(b.scan.value, live);
      ghost var all := results.items;
      RetrievedIffAnswered(all, b.scan.value);
      var won := results.SelectAndDetachFirstRetrieved();
      if won == None {
        lastStatus := results.SummarizeBootstrapFailure();
        DestroyDeep(results, live);
        Release(scl, Bootstrap, map[]);
        StopIpc(map[]);
        return None, lastStatus;
      }
      var w := won.value.resource;
      CandidatesDetach(all, FirstRetrieved(all), live);
      DestroyDeep(results, live[w := Candidate]);
      assert live[w := Candidate] == map[w := Candidate][scl := Bootstrap];
      Release(scl, Bootstrap, map[w := Candidate]);
      return Some(w), NoMmsServer;
    }

    // ----- the three entry points

    method Run(hosts: seq<string>, mmsPort: int, iedName: string, interfaceId: string, ipcStarts: bool,
        b: BootstrapAnswers)
      returns (err: Error, detail: Detail, available: Option<Availability>)
      requires Valid()
      modifies this
      ensures Valid() && old(log) <= log
      ensures (err == InvalidArgument) == (old(running) || hosts == [] || mmsPort <= 0 || interfaceId == "")
      ensures err == InvalidArgument ==> unchanged(this)
      ensures err != InvalidArgument ==> runs == old(runs) + 1
      ensures err != InvalidArgument ==> err == if ipcStarts then BootstrapError(b, iedName) else IpcDispatcherFailed
      ensures err == OK <==>
        && !old(running) && hosts != [] && mmsPort > 0 && interfaceId != ""
        && ipcStarts && Retrieves(b) && b.staged
        && Named(b.scl, iedName) && b.scl.modelLoads && ProducersStart(b.scl.tail)
      ensures err != InvalidArgument ==> running == (err == OK)
      ensures err == OK ==> available == Some(Availability(reportClient.Some?, gooseSubscriber.Some?))
      ensures err == OK ==>
        available == Some(Availability(b.scl.tail.reportStart == Started, b.scl.tail.gooseStart == Started))
      ensures detail == Detail(StageOf(err), if err == BootstrapFailed then FailureStatus(b) else NoMmsServer,
        if err == IedNameResolutionFailed && b.scl.namesListed.Some? then b.scl.namesListed.value else 0)
    {
      hide Holds, Owned, RunEnded, SomeRetrieved, FailureStatus, SclError, Retrieves, Named, ProducersStart;
      BootstrapExits(b, iedName);
      if running || |hosts| == 0 || mmsPort <= 0 || |interfaceId| == 0 {
        return InvalidArgument, ClearDetail, None;
      }
      runs := runs + 1;
      var up := StartIpc(ipcStarts);
      if !up {
        StillStopped();
        return IpcDispatcherFailed, Detail(IpcDispatcherStart, NoMmsServer, 0), None;
      }
      var winner, lastStatus := FetchScl(b);
      if winner == None {
        StillStopped();
        return BootstrapFailed, Detail(BootstrapStage, lastStatus, 0), None;
      }
      err, detail, available := RunFromWinner(winner.value, iedName, b);
      SclExits(b.scl, iedName);
      EndedRunIsValid(err, available);
    }

    /** Stages the winner's bytes, runs from the staged file, and only then lets the winner go. */
    method RunFromWinner(w: nat, iedName: string, b: BootstrapAnswers)
      returns (err: Error, detail: Detail, available: Option<Availability>)
      requires ipcUp && Blank() && Holds(map[w := Candidate])
      modifies this`log, this`ipcUp, this`iedModel, this`reportClient, this`gooseSubscriber, this`running
      ensures err == (if b.staged then SclError(b.scl, iedName) else StagingFailed) && old(log) <= log
      ensures detail == Detail(StageOf(err), NoMmsServer,
        if err == IedNameResolutionFailed && b.scl.namesListed.Some? then b.scl.namesListed.value else 0)
      ensures err == OK ==>
        available == Some(Availability(b.scl.tail.reportStart == Started, b.scl.tail.gooseStart == Started))
      ensures RunEnded(err, available, map[])
    {
      hide Holds, Owned, RunEnded, SclError;
      ghost var others := map[w := Candidate];
      assert map[][w := Candidate] == others;
      Use(w, others);
      if !b.staged {
        Release(w, Candidate, map[]);
        StopIpc(map[]);
        GaveUp(StagingFailed, map[]);
        return StagingFailed, Detail(StagingStage, NoMmsServer, 0), None;
      }
      var tempFile := Acquire(TempFile, others);
      err, detail, available := RunFromSclFile(Some(tempFile), Some(w), iedName, b.scl, others);
      LetWinnerGo(w, err, available);
    }

    method LetWinnerGo(w: nat, err: Error, available: Option<Availability>)
      requires RunEnded(err, available, map[w := Candidate])
      modifies this`log
      ensures old(log) <= log && RunEnded(err, available, map[])
    {
      ghost var own := if err == OK then Owned() else map[];
      assert map[w := Candidate] + own == own[w := Candidate];
      assert map[] + own == own;
      assert map[w := Candidate] == map[][w := Candidate];
      Release(w, Candidate, own);
    }

    method RunFromLocalFile(sclFilePath: string, host: string, mmsPort: int, iedName: string, interfaceId: string,
        ipcStarts: bool, s: SclAnswers)
      returns (err: Error, detail: Detail, available: Option<Availability>)
      requires Valid()
      modifies this
      ensures Valid() && old(log) <= log
      ensures (err == InvalidArgument)
        == (old(running) || sclFilePath == "" || host == "" || mmsPort <= 0 || interfaceId == "")
      ensures err == InvalidArgument ==> unchanged(this)
      ensures err != InvalidArgument ==> runs == old(runs) + 1
      ensures err != InvalidArgument ==> err == if ipcStarts then SclError(s, iedName) else IpcDispatcherFailed
      ensures err == OK <==>
        && !old(running) && sclFilePath != "" && host != "" && mmsPort > 0 && interfaceId != ""
        && ipcStarts && Named(s, iedName) && s.modelLoads && ProducersStart(s.tail)
      ensures err != InvalidArgument ==> running == (err == OK)
      ensures err == OK ==> available == Some(Availability(reportClient.Some?, gooseSubscriber.Some?))
      ensures err == OK ==> available == Some(Availability(s.tail.reportStart == Started, s.tail.gooseStart == Started))
      ensures detail == Detail(StageOf(err), NoMmsServer,
        if err == IedNameResolutionFailed && s.namesListed.Some? then s.namesListed.value else 0)
    {
      hide Holds, Owned, RunEnded, SclError, ProducersStart;
      SclExits(s, iedName);
      if running || |sclFilePath| == 0 || |host| == 0 || mmsPort <= 0 || |interfaceId| == 0 {
        return InvalidArgument, ClearDetail, None;
      }
      runs := runs + 1;
      var up := StartIpc(ipcStarts);
      if !up {
        StillStopped();
        return IpcDispatcherFailed, Detail(IpcDispatcherStart, NoMmsServer, 0), None;
      }
      err, detail, available := RunFromSclFile(None, None, iedName, s, map[]);
      EndedRunIsValid(err, available);
    }

    /** Here an empty name is no failure: there is no list of names to resolve it from. */
    method RunFromOnlineDiscovery(host: string, mmsPort: int, interfaceId: string, ipcStarts: bool,
        modelBuilt: bool, t: TailAnswers)
      returns (err: Error, detail: Detail, available: Option<Availability>)
      requires Valid()
      modifies this
      ensures Valid() && old(log) <= log
      ensures (err == InvalidArgument) == (old(running) || host == "" || mmsPort <= 0 || interfaceId == "")
      ensures err == InvalidArgument ==> unchanged(this)
      ensures err != InvalidArgument ==> runs == old(runs) + 1
      ensures err != InvalidArgument ==> err == OnlineError(ipcStarts, modelBuilt, t)
      ensures err == OK <==>
        && !old(running) && host != "" && mmsPort > 0 && interfaceId != ""
        && ipcStarts && modelBuilt && ProducersStart(t)
      ensures err != InvalidArgument ==> running == (err == OK)
      ensures err == OK ==> available == Some(Availability(reportClient.Some?, gooseSubscriber.Some?))
      ensures err == OK ==> available == Some(Availability(t.reportStart == Started, t.gooseStart == Started))
      ensures detail == Detail(StageOf(err), NoMmsServer, 0)
    {
      hide Holds, Owned, RunEnded, ProducersStart;
      OnlineExits(ipcStarts, modelBuilt, t);
      if running || |host| == 0 || mmsPort <= 0 || |interfaceId| == 0 {
        return InvalidArgument, ClearDetail, None;
      }
      runs := runs + 1;
      var up := StartIpc(ipcStarts);
      if !up {
        StillStopped();
        return IpcDispatcherFailed, Detail(IpcDispatcherStart, NoMmsServer, 0), None;
      }
      if !modelBuilt {
        StopIpc(map[]);
        StillStopped();
        return OnlineDiscoveryFailed, Detail(OnlineDiscovery, NoMmsServer, 0), None;
      }
      var model := Acquire(Model, map[]);
      var stage;
      err, stage, available := RunFromIedModelHandle(model, None, t, map[]);
      detail := Detail(stage, NoMmsServer, 0);
      EndedRunIsValid(err, available);
    }

    // ----- stop and destroy

    /** Goose subscriber, then report client, then dispatcher, then model; safe to repeat. */
    method Stop()
      requires Valid()
      modifies this
      ensures Stopped()
      ensures log == old(log) + StopEvents(old(gooseSubscriber), old(reportClient), old(iedModel))
    {
      hide Holds, Owned;
      ghost var rest := With(map[], iedModel, Model);
      DestroyProducers();
      StopIpc(rest);
      if iedModel.Some? {
        Release(iedModel.value, Model, map[]);
        iedModel := None;
      }
      running := false;
      StillStopped();
    }

    /** The first half of Stop: after it nothing can call into the dispatcher any more. */
    method DestroyProducers()
      requires Valid()
      modifies this`log, this`gooseSubscriber, this`reportClient
      ensures gooseSubscriber == reportClient == None && Holds(With(map[], iedModel, Model))
      ensures log == old(log) + (if old(gooseSubscriber).Some? then [Event.Release(old(gooseSubscriber).value)] else [])
        + (if old(reportClient).Some? then [Event.Release(old(reportClient).value)] else [])
    {
      hide Holds;
      ghost var rest := With(map[], iedModel, Model);
      ghost var afterGoose := if reportClient.Some? then rest[reportClient.value := ReportClient(iedModel.value)]
        else rest;
      if gooseSubscriber.Some? {
        assert Owned() == afterGoose[gooseSubscriber.value := GooseSubscriber(iedModel.value)];
        Release(gooseSubscriber.value, GooseSubscriber(iedModel.value), afterGoose);
        gooseSubscriber := None;
      } else {
        assert Owned() == afterGoose;
      }
      if reportClient.Some? {
        Release(reportClient.value, ReportClient(iedModel.value), rest);
        reportClient := None;
      }
    }

    /** Implies Stop; afterwards the handle is gone and nothing it ever acquired is still held. */
    method Destroy()
      requires Valid()
      modifies this
      ensures destroyed && !running && !ipcUp && old(log) <= log
      ensures Replay(log) == Some(Ledger(map[], false))
      ensures forall r :: 0 <= r < |log| && log[r].Acquire? ==> Releases(log, r) == 1
    {
      Stop();
      EverythingAccountedFor();
      assert Owned() == map[];
      destroyed := true;
    }

    /**
     Whatever calls led here, between any two of their steps every producer had its dispatcher and
     its model, and what was ever acquired is either held in the fields or was released once.
     */
    lemma EverythingAccountedFor()
      requires Valid()
      ensures forall k :: 0 <= k <= |log| ==> Replay(log[..k]).Some? && ProducersBacked(Replay(log[..k]).value)
      ensures forall r :: 0 <= r < |log| && log[r].Acquire? ==> Releases(log, r) == if r in Owned() then 0 else 1
      ensures !running ==> Owned() == map[]
    {
      hide ProducersBacked, Releases;
      forall k | 0 <= k <= |log| ensures Replay(log[..k]).Some? && ProducersBacked(Replay(log[..k]).value) {
        ProducersAlwaysBacked(log, k);
      }
      forall r | 0 <= r < |log| && log[r].Acquire? ensures Releases(log, r) == if r in Owned() then 0 else 1 {
        ReleasedExactlyOnce(log, r);
      }
    }

    /** What was started becomes the handle's own. */
    method Keep(model: nat, report: Option<nat>, goose: Option<nat>, ghost others: map<nat, Kind>)
      requires ipcUp && Blank() && model !in others && (report.Some? || goose.Some?)
      requires report.Some? ==> report.value !in others && report.value != model
      requires goose.Some? ==> goose.value !in WithReport(others, model, report)
      requires Holds(With(WithReport(others, model, report), goose, GooseSubscriber(model)))
      modifies this`iedModel, this`reportClient, this`gooseSubscriber, this`running
      ensures RunEnded(OK, Some(Availability(report.Some?, goose.Some?)), others)
      ensures iedModel == Some(model) && reportClient == report && gooseSubscriber == goose
    {
      hide Holds;
      iedModel, reportClient, gooseSubscriber, running := Some(model), report, goose, true;
      hide With, WithReport;
      OwnedIsWhatWasStarted(model, report, goose, others);
    }

    lemma OwnedIsWhatWasStarted(model: nat, report: Option<nat>, goose: Option<nat>, others: map<nat, Kind>)
      requires iedModel == Some(model) && reportClient == report && gooseSubscriber == goose
      ensures others + Owned() == With(WithReport(others, model, report), goose, GooseSubscriber(model))
    {
    }

    /** No resource fields set and not running: how a handle is before and after a run that fails. */
    ghost predicate Blank()
      reads this`log, this`ipcUp, this`iedModel, this`reportClient, this`gooseSubscriber, this`running, this`destroyed
    {
      !running && !destroyed && iedModel == reportClient == gooseSubscriber == None
    }

    lemma StillStopped()
      requires Blank() && !ipcUp && Holds(map[])
      ensures Stopped()
    {
      assert Owned() == map[];
    }

    lemma EndedRunIsValid(err: Error, available: Option<Availability>)
      requires RunEnded(err, available, map[])
      ensures Valid() && running == (err == OK)
      ensures err == OK ==> available == Some(Availability(reportClient.Some?, gooseSubscriber.Some?))
    {
      hide Holds;
      assert map[] + Owned() == Owned();
      if err != OK { StillStopped(); }
    }

    lemma GaveUp(err: Error, others: map<nat, Kind>)
      requires Blank() && !ipcUp && Holds(others) && err != OK
      ensures RunEnded(err, None, others)
    {
    }

    /** How a run leaves the handle: running with the producers reported, or stopped. */
    ghost predicate RunEnded(err: Error, available: Option<Availability>, others: map<nat, Kind>)
      reads this`log, this`ipcUp, this`iedModel, this`reportClient, this`gooseSubscriber, this`running, this`destroyed
    {
      if err == OK then
        && running && ipcUp && !destroyed && iedModel.Some?
        && available == Some(Availability(reportClient.Some?, gooseSubscriber.Some?))
        && (reportClient.Some? || gooseSubscriber.Some?)
        && Owned().Keys !! others.Keys && Holds(others + Owned())
        && reportClient != iedModel && gooseSubscriber != iedModel
        && (reportClient.Some? ==> reportClient != gooseSubscriber)
      else Blank() && !ipcUp && Holds(others)
    }
  }

  function StopEvents(goose: Option<nat>, report: Option<nat>, model: Option<nat>): seq<Event> {
    (if goose.Some? then [Release(goose.value)] else [])
    + (if report.Some? then [Release(report.value)] else [])
    + [IpcStop]
    + (if model.Some? then [Release(model.value)] else [])
  }

  function StatusOfLast(scan: seq<Option<CandidateStatus>>): CandidateStatus {
    if scan != [] && scan[|scan| - 1].Some? then scan[|scan| - 1].value else NoMmsServer
  }

  lemma FailureStatusUnfolds(b: BootstrapAnswers)
    ensures FailureStatus(b) == if b.created && b.scan.Some? then StatusOfLast(b.scan.value) else NoMmsServer
  {
  }

  /** The failure detail of a bootstrap: the last candidate's status, if the scan gave a list. */
  function FailureStatus(b: BootstrapAnswers): CandidateStatus {
    if b.created && b.scan.Some? then StatusOfLast(b.scan.value) else NoMmsServer
  }

  // ----- the results as resources

  /** The list carries, in order, the statuses of the scan. */
  ghost predicate Answers(items: seq<Option<Result>>, scan: seq<Option<CandidateStatus>>) {
    |items| == |scan| && forall i :: 0 <= i < |scan| ==>
      scan[i] == if items[i].Some? then Some(items[i].value.status) else None
  }

  ghost function Resources(items: seq<Option<Result>>): set<nat> {
    set item | item in items && item.Some? :: item.value.resource
  }

  ghost function Candidates(items: seq<Option<Result>>): map<nat, Kind> {
    map r | r in Resources(items) :: Candidate
  }

  /** The results are different resources from each other and from everything in `live`. */
  ghost predicate Separate(items: seq<Option<Result>>, live: map<nat, Kind>) {
    && (forall i, j :: 0 <= i < j < |items| && items[i].Some? && items[j].Some? ==>
          items[i].value.resource != items[j].value.resource)
    && (forall i :: 0 <= i < |items| && items[i].Some? ==> items[i].value.resource !in live)
  }

  lemma CandidatesAppend(items: seq<Option<Result>>, item: Option<Result>, live: map<nat, Kind>)
    ensures live + Candidates(items + [item]) == With(live + Candidates(items), ResourceOf(item), Candidate)
  {
    ResourcesSplit(items, item, []);
    assert items + [item] + [] == items + [item] && items + [] == items;
  }

  lemma CandidatesAreLive(items: seq<Option<Result>>, live: map<nat, Kind>)
    ensures forall i :: 0 <= i < |items| && items[i].Some? ==> items[i].value.resource in live + Candidates(items)
  {
    forall i | 0 <= i < |items| && items[i].Some? ensures items[i].value.resource in Resources(items) {
      assert items[i] in items;
    }
  }

  lemma CandidatesSplit(items: seq<Option<Result>>, rest: map<nat, Kind>)
    requires items != [] && Separate(items, rest)
    ensures Separate(items[1..], rest)
    ensures items[0].Some? ==> items[0].value.resource !in rest + Candidates(items[1..])
    ensures rest + Candidates(items) == With(rest + Candidates(items[1..]), ResourceOf(items[0]), Candidate)
  {
    var tail := items[1..];
    TailIsSeparate(items, rest);
    if items[0].Some? { HeadIsSeparate(items, rest); }
    hide Separate, Resources, Candidates;
    ResourcesSplit([], items[0], tail);
    assert [] + [items[0]] + tail == items && [] + tail == tail;
    CandidatesPlus(items, tail, items[0], rest);
  }

  lemma CandidatesPlus(all: seq<Option<Result>>, some: seq<Option<Result>>, item: Option<Result>, rest: map<nat, Kind>)
    requires Resources(all) == Resources(some) + if item.Some? then {item.value.resource} else {}
    ensures rest + Candidates(all) == With(rest + Candidates(some), ResourceOf(item), Candidate)
  {
    hide Resources;
  }

  lemma TailIsSeparate(items: seq<Option<Result>>, rest: map<nat, Kind>)
    requires items != [] && Separate(items, rest)
    ensures Separate(items[1..], rest)
  {
    var tail := items[1..];
    assert forall i :: 0 <= i < |tail| ==> tail[i] == items[i + 1];
  }

  lemma HeadIsSeparate(items: seq<Option<Result>>, rest: map<nat, Kind>)
    requires items != [] && Separate(items, rest) && items[0].Some?
    ensures items[0].value.resource !in Resources(items[1..]) && items[0].value.resource !in rest
  {
    forall x | x in items[1..] && x.Some? ensures x.value.resource != items[0].value.resource {
      var i :| 0 <= i < |items[1..]| && items[1..][i] == x;
      assert items[i + 1] == x;
    }
  }

  lemma CandidatesAreNoProducers(items: seq<Option<Result>>, rest: map<nat, Kind>)
    requires forall r :: r in rest ==> !IsProducer(rest[r])
    ensures var live := rest + Candidates(items); forall r :: r in live ==> !IsProducer(live[r])
  {
  }

  lemma NoCandidates(live: map<nat, Kind>)
    ensures live + Candidates([]) == live && Separate([], live)
  {
  }

  lemma CandidatesDetach(items: seq<Option<Result>>, k: nat, live: map<nat, Kind>)
    requires k < |items| && items[k].Some? && Separate(items, live)
    ensures var left, w := items[..k] + items[k + 1..], items[k].value.resource;
      && w !in live && Separate(left, live[w := Candidate])
      && live[w := Candidate] + Candidates(left) == live + Candidates(items)
  {
    DetachedIsSeparate(items, k, live);
    hide Separate, Resources;
    assert items[..k] + [items[k]] + items[k + 1..] == items;
    ResourcesSplit(items[..k], items[k], items[k + 1..]);
  }

  lemma DetachedIsSeparate(items: seq<Option<Result>>, k: nat, live: map<nat, Kind>)
    requires k < |items| && items[k].Some? && Separate(items, live)
    ensures items[k].value.resource !in live
    ensures Separate(items[..k] + items[k + 1..], live[items[k].value.resource := Candidate])
  {
    var left, w := items[..k] + items[k + 1..], items[k].value.resource;
    forall i | 0 <= i < |left| && left[i].Some? ensures left[i].value.resource !in live[w := Candidate] {
      assert left[i] == items[if i < k then i else i + 1];
    }
  }

  lemma ResourcesSplit(before: seq<Option<Result>>, item: Option<Result>, after: seq<Option<Result>>)
    ensures Resources(before + [item] + after) ==
      Resources(before + after) + if item.Some? then {item.value.resource} else {}
  {
    var all := before + [item] + after;
    assert forall x :: x in all <==> x in before + after || x == item;
  }

  lemma RetrievedIffAnswered(items: seq<Option<Result>>, scan: seq<Option<CandidateStatus>>)
    requires Answers(items, scan)
    ensures FirstRetrieved(items) < |items| <==> SomeRetrieved(scan)
    ensures LastStatus(items) == StatusOfLast(scan)
  {
    var k := FirstRetrieved(items);
    if k < |items| { assert scan[k] == Some(FileRetrieved); }
  }

  function ResourceOf(item: Option<Result>): Option<nat> {
    if item.Some? then Some(item.value.resource) else None
  }

  ghost function With(live: map<nat, Kind>, r: Option<nat>, kind: Kind): map<nat, Kind> {
    if r.Some? then live[r.value := kind] else live
  }

  ghost function WithReport(others: map<nat, Kind>, model: nat, report: Option<nat>): map<nat, Kind> {
    With(others[model := Model], report, ReportClient(model))
  }
}
