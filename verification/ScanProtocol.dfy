/**
 Starting and stopping scans, and reading their hosts, from any number of threads. A critical
 section of the registry is one step; creating, launching, ending and destroying a worker and the
 two halves of stopping the dispatcher happen between them, without the lock. A worker goes by the
 id of its scan, as each has one.
 */
module ScanProtocol {
  import opened Common
  import opened ScanTable

  type Tid = nat

  /** Why a thread is to destroy a worker; a robbed start is one whose entry a stop took away. */
  datatype Role = OfStart | OfRobbedStart | OfStop(last: bool)

  datatype Pc =
    | Idle
    | Numbered(id: nat)
    | Created(id: nat)
    | Registered(id: nat)
    | LaunchFailed(id: nat)
    | Withdrawn(id: nat)                 // taken back, and it was the last one
    | Dropping(id: nat, role: Role)      // about to tell the worker to stop
    | Ending(id: nat, role: Role)        // waiting for its loop, and then to destroy it
    | Emptied
    | Stopping(worker: Option<nat>)      // the server is gone, the flag is still set
    | Snapshotting(id: nat)              // has found the worker and is about to read it

  datatype Place = AtEntry | AtThread(t: Tid)

  datatype State = State(
    scans: Scans<nat>,
    dispatcher: Dispatcher,
    pc: map<Tid, Pc>,
    looping: set<nat>,          // workers whose sweep loop runs
    stopping: set<nat>,         // workers told to stop
    owner: map<nat, Place>,     // who is to destroy each live worker
    made: set<nat>,             // workers ever created
    dead: set<nat>,             // destroyed workers
    owing: Option<Tid>,         // the thread that is to stop the dispatcher
    early: set<nat>,            // scans stopped while their start was still under way
    strays: set<nat>)           // workers destroyed by the start that a stop had robbed of them

  datatype Action =
    | TakeId
    | Create(ok: bool)
    | Add(binds: bool, stored: bool)
    | Launch(ok: bool)
    | Withdraw
    | Remove(id: nat)
    | RequestStop
    | LoopEnds(id: nat)         // a step of the worker's own thread, whichever t it is taken with
    | DestroyWorker
    | StopServer
    | ClearRunning
    | FindForSnapshot(id: nat)
    | ReadSnapshot

  datatype Step = Step(t: Tid, action: Action)

  function Initial(threads: set<Tid>): State {
    State(Scans(map[], 1), Down, map t | t in threads :: Idle, {}, {}, map[], {}, {}, None, {}, {})
  }

  predicate Enabled(s: State, step: Step) {
    step.t in s.pc &&
    var pc := s.pc[step.t];
    match step.action
    case TakeId => pc.Idle?
    case Create(_) => pc.Numbered?
    case Add(_, _) => pc.Created?
    case Launch(_) => pc.Registered?
    case Withdraw => pc.LaunchFailed?
    case Remove(_) => pc.Idle?
    case RequestStop => pc.Dropping?
    case LoopEnds(id) => id in s.looping && id in s.stopping
    case DestroyWorker => pc.Ending? && pc.id !in s.looping
    case StopServer => pc.Withdrawn? || pc.Emptied?
    case ClearRunning => pc.Stopping?
    case FindForSnapshot(_) => pc.Idle?
    case ReadSnapshot => pc.Snapshotting?
  }

  /** The scan whose start a thread has registered and not yet brought to its end. */
  function LaunchOf(pc: Pc): Option<nat> {
    if pc.Registered? || pc.LaunchFailed? then Some(pc.id) else None
  }

  /** The scan whose start a thread is at. */
  function StartOf(pc: Pc): Option<nat> {
    match pc
    case Numbered(id) => Some(id)
    case Created(id) => Some(id)
    case Registered(id) => Some(id)
    case LaunchFailed(id) => Some(id)
    case Withdrawn(id) => Some(id)
    case Dropping(id, role) => if role.OfStop? then None else Some(id)
    case Ending(id, role) => if role.OfStop? then None else Some(id)
    case Stopping(worker) => worker
    case _ => None
  }

  /** The worker a thread rightly has in its hands. */
  function WorkerOf(pc: Pc): Option<nat> {
    match pc
    case Created(id) => Some(id)
    case Withdrawn(id) => Some(id)
    case Dropping(id, role) => if role.OfRobbedStart? then None else Some(id)
    case Ending(id, role) => if role.OfRobbedStart? then None else Some(id)
    case Stopping(worker) => worker
    case _ => None
  }

  predicate OwesStop(pc: Pc) {
    pc.Withdrawn? || ((pc.Dropping? || pc.Ending?) && pc.role == OfStop(true)) || pc.Emptied? || pc.Stopping?
  }

  predicate Launching(s: State, id: nat) {
    exists t :: t in s.pc && LaunchOf(s.pc[t]) == Some(id)
  }

  ghost function Next(s: State, step: Step): State
    requires Enabled(s, step)
  {
    var t, pc := step.t, s.pc[step.t];
    match step.action
    case TakeId => s.(scans := s.scans.(nextId := s.scans.nextId + 1), pc := s.pc[t := Numbered(s.scans.nextId)])
    case Create(ok) =>
      if ok then s.(pc := s.pc[t := Created(pc.id)], owner := s.owner[pc.id := AtThread(t)], made := s.made + {pc.id})
      else s.(pc := s.pc[t := Idle])
    case Add(binds, stored) =>
      var (scans, dispatcher, result) := ScanTable.Add(s.scans, s.dispatcher, pc.id, pc.id, binds, stored);
      var now := s.(scans := scans, dispatcher := dispatcher);
      if result == Added then now.(pc := s.pc[t := Registered(pc.id)], owner := s.owner[pc.id := AtEntry])
      else now.(pc := s.pc[t := Dropping(pc.id, OfStart)])
    case Launch(ok) =>
      s.(pc := s.pc[t := if ok then Idle else LaunchFailed(pc.id)], stopping := s.stopping - {pc.id},
         looping := if ok then s.looping + {pc.id} else s.looping)
    case Withdraw =>
      var (scans, worker, nowEmpty) := ScanTable.Remove(s.scans, pc.id);
      if worker == None then s.(pc := s.pc[t := Dropping(pc.id, OfRobbedStart)])
      else s.(scans := scans, pc := s.pc[t := if nowEmpty then Withdrawn(pc.id) else Dropping(pc.id, OfStart)],
              owing := if nowEmpty then Some(t) else s.owing,
              owner := s.owner[pc.id := AtThread(t)])
    case Remove(id) =>
      var (scans, worker, nowEmpty) := ScanTable.Remove(s.scans, id);
      if worker == None then s
      else s.(scans := scans, pc := s.pc[t := Dropping(id, OfStop(nowEmpty))],
              owing := if nowEmpty then Some(t) else s.owing,
              owner := s.owner[id := AtThread(t)],
              early := if Launching(s, id) then s.early + {id} else s.early)
    case RequestStop => s.(pc := s.pc[t := Ending(pc.id, pc.role)], stopping := s.stopping + {pc.id})
    case LoopEnds(id) => s.(looping := s.looping - {id})
    case DestroyWorker =>
      s.(pc := s.pc[t := if pc.role == OfStop(true) then Emptied else Idle],
         owner := s.owner - {pc.id}, dead := s.dead + {pc.id},
         strays := if pc.role.OfRobbedStart? then s.strays + {pc.id} else s.strays)
    case StopServer =>
      s.(dispatcher := s.dispatcher.(server := false),
         pc := s.pc[t := Stopping(if pc.Withdrawn? then Some(pc.id) else None)])
    case ClearRunning =>
      s.(dispatcher := Down,
         pc := s.pc[t := if pc.worker.Some? then Dropping(pc.worker.value, OfStart) else Idle],
         owing := None)
    case FindForSnapshot(id) => if id in s.scans.active then s.(pc := s.pc[t := Snapshotting(id)]) else s
    case ReadSnapshot => s.(pc := s.pc[t := Idle])
  }

  // ----- the dispatcher

  /** A thread owes the stop exactly while the last scan is gone and the dispatcher not yet stopped. */
  ghost predicate DispatcherInv(s: State) {
    && (forall t {:trigger OwesStop(s.pc[t])} :: t in s.pc ==> (OwesStop(s.pc[t]) <==> s.owing == Some(t)))
    && (s.owing.Some? <==> s.scans.active == map[] && s.dispatcher.running)
    && (s.owing.Some? ==> s.owing.value in s.pc)
    && (s.dispatcher.server <==> s.dispatcher.running && !(s.owing.Some? && s.pc[s.owing.value].Stopping?))
    && (s.scans.active != map[] ==> s.dispatcher == Up)
  }

  /** The steps that are one critical section of the registry. */
  predicate OnRegistry(a: Action) {
    a.Add? || a.Withdraw? || a.Remove?
  }

  /** The steps that make or destroy a worker. */
  predicate OnWorkers(a: Action) {
    a.Create? || a.DestroyWorker?
  }

  /** Kept by every step of every thread, also when starts and stops overlap. */
  lemma StepKeepsDispatcherInv(s: State, step: Step)
    requires DispatcherInv(s) && Enabled(s, step)
    ensures DispatcherInv(Next(s, step))
  {
    hide Launching;
    var n, t := Next(s, step), step.t;
    assert OwesStop(s.pc[t]) <==> s.owing == Some(t);
    match step.action
    case Add(_, _) => assert s.pc[t].id in n.scans.active || n.scans == s.scans;
    case Remove(id) => assert id in s.scans.active ==> s.scans.active != map[];
    case Withdraw => assert s.pc[t].id in s.scans.active ==> s.scans.active != map[];
    case _ =>
  }

  // ----- ids

  /** The id counter is above every id in use. */
  ghost predicate IdsBounded(s: State) {
    && IdsBelow(s.scans)
    && (forall id :: id in s.made ==> 0 < id < s.scans.nextId)
    && (forall t {:trigger StartOf(s.pc[t])} :: t in s.pc && StartOf(s.pc[t]).Some? ==>
          0 < StartOf(s.pc[t]).value < s.scans.nextId)
  }

  /** No two starts share an id. */
  ghost predicate StartsDistinct(s: State) {
    forall t, u {:trigger StartOf(s.pc[t]), StartOf(s.pc[u])} ::
      t in s.pc && u in s.pc && t != u && StartOf(s.pc[t]).Some? ==>
      StartOf(s.pc[t]) != StartOf(s.pc[u])
  }

  /** A start begins with an id no worker has, and owns its worker until it registers it. */
  ghost predicate StartsNew(s: State) {
    forall t {:trigger s.pc[t].Numbered?} :: t in s.pc && s.pc[t].Numbered? ==> s.pc[t].id !in s.made
  }

  // ----- the workers

  /** Every worker ever made is either destroyed or somebody's to destroy: the registry's if its scan is active. */
  ghost predicate WorkersAccounted(s: State) {
    && s.made == s.owner.Keys + s.dead
    && s.owner.Keys !! s.dead
    && (forall id :: id in s.scans.active <==> id in s.owner && s.owner[id] == AtEntry)
    && s.strays <= s.dead && s.looping <= s.made
  }

  /** A thread has a worker in its hands exactly if it is the one to destroy it, unless a robbed start already has. */
  ghost predicate WorkersInHand(s: State) {
    forall t, id {:trigger t in s.pc, id in s.owner} ::
      t in s.pc && WorkerOf(s.pc[t]) == Some(id) && id !in s.strays <==> id in s.owner && s.owner[id] == AtThread(t)
  }

  predicate Robbed(pc: Pc) {
    (pc.Dropping? || pc.Ending?) && pc.role.OfRobbedStart?
  }

  /**
   What a thread's position says about its scan: a worker at hand was made; a start not yet
   registered is undisturbed; a registered one is active exactly unless a stop came early; a robbed
   one was stopped early; and no start under way has its worker astray, or sweeping already.
   */
  ghost predicate PositionSound(s: State, pc: Pc) {
    && (WorkerOf(pc).Some? ==> WorkerOf(pc).value in s.made)
    && (pc.Snapshotting? ==> pc.id in s.made)
    && (pc.Created? ==> pc.id !in s.early && pc.id !in s.scans.active)
    && (LaunchOf(pc).Some? ==>
         LaunchOf(pc).value in s.made && (LaunchOf(pc).value in s.scans.active <==> LaunchOf(pc).value !in s.early))
    && (Robbed(pc) ==> pc.id in s.early)
    && (StartOf(pc).Some? ==> StartOf(pc).value !in s.strays && StartOf(pc).value !in s.looping)
  }

  ghost predicate PositionsSound(s: State) {
    forall t :: t in s.pc ==> PositionSound(s, s.pc[t])
  }

  ghost predicate EarlyKnown(s: State) {
    && s.strays <= s.early
    && (forall id :: id in s.early ==> id in s.made && id !in s.scans.active)
  }

  /**
   A scan that is active and no longer being launched sweeps, and no loop outlives its worker but by an
   early stop.
   */
  ghost predicate LoopsKnown(s: State) {
    && (forall id :: id in s.scans.active && !Launching(s, id) ==> id in s.looping && id !in s.stopping)
    && (forall id :: id in s.looping && id in s.dead ==> id in s.early)
    && s.strays !! s.looping
  }

  /** A thread that waits for a loop nobody has told to stop: a launch has reset the flag. */
  predicate Hangs(s: State, pc: Pc) {
    pc.Ending? && pc.id in s.looping && pc.id !in s.stopping
  }

  ghost predicate HangsKnown(s: State) {
    forall u :: u in s.pc && Hangs(s, s.pc[u]) ==> s.pc[u].id in s.early
  }

  ghost predicate Inv(s: State) {
    && DispatcherInv(s) && IdsBounded(s) && StartsDistinct(s) && StartsNew(s)
    && WorkersAccounted(s) && WorkersInHand(s) && PositionsSound(s) && EarlyKnown(s) && LoopsKnown(s)
    && HangsKnown(s)
  }

  lemma StepKeepsIdsBoundedRegistry(s: State, step: Step)
    requires WorkersAccounted(s) && IdsBounded(s) && Enabled(s, step) && OnRegistry(step.action)
    ensures IdsBounded(Next(s, step))
  {
    hide Launching;
    var n, pc := Next(s, step), s.pc[step.t];
    assert StartOf(pc).Some? ==> 0 < StartOf(pc).value < s.scans.nextId;
  }

  lemma StepKeepsIdsBoundedWorkers(s: State, step: Step)
    requires WorkersAccounted(s) && IdsBounded(s) && Enabled(s, step) && OnWorkers(step.action)
    ensures IdsBounded(Next(s, step))
  {
    hide Launching;
    var n, pc := Next(s, step), s.pc[step.t];
    assert StartOf(pc).Some? ==> 0 < StartOf(pc).value < s.scans.nextId;
  }

  lemma StepKeepsIdsBoundedOthers(s: State, step: Step)
    requires WorkersAccounted(s) && IdsBounded(s) && Enabled(s, step) && !OnRegistry(step.action)
    requires !OnWorkers(step.action)
    ensures IdsBounded(Next(s, step))
  {
    hide Launching;
    var n, pc := Next(s, step), s.pc[step.t];
    assert StartOf(pc).Some? ==> 0 < StartOf(pc).value < s.scans.nextId;
  }

  lemma StepKeepsIdsBounded(s: State, step: Step)
    requires WorkersAccounted(s) && IdsBounded(s) && Enabled(s, step)
    ensures IdsBounded(Next(s, step))
  {
    hide WorkersAccounted, IdsBounded, Next;
    if OnRegistry(step.action) { StepKeepsIdsBoundedRegistry(s, step); }
    else if OnWorkers(step.action) { StepKeepsIdsBoundedWorkers(s, step); }
    else { StepKeepsIdsBoundedOthers(s, step); }
  }

  lemma StepKeepsStartsDistinct(s: State, step: Step)
    requires IdsBounded(s) && StartsDistinct(s) && Enabled(s, step)
    ensures StartsDistinct(Next(s, step))
  {
    hide Launching;
    var n, pc := Next(s, step), s.pc[step.t];
    assert StartOf(n.pc[step.t]) in {None, StartOf(pc), Some(s.scans.nextId)};
  }

  lemma StepKeepsStartsNew(s: State, step: Step)
    requires IdsBounded(s) && StartsDistinct(s) && StartsNew(s) && Enabled(s, step)
    ensures StartsNew(Next(s, step))
  {
    hide Launching;
    var n, pc := Next(s, step), s.pc[step.t];
    assert StartOf(pc) == StartOf(pc);
    forall u | u in n.pc && n.pc[u].Numbered? ensures n.pc[u].id !in n.made {
      if u != step.t { assert StartOf(s.pc[u]) == Some(s.pc[u].id); }
    }
  }

  lemma NumberIsNew(s: State, t: Tid)
    requires StartsNew(s) && t in s.pc && s.pc[t].Numbered?
    ensures s.pc[t].id !in s.made
  {
  }

  lemma LaunchesOfOthersRemain(s: State, n: State, t: Tid)
    requires t in s.pc && t in n.pc && n.pc == s.pc[t := n.pc[t]]
    ensures LaunchOf(n.pc[t]).Some? ==> Launching(n, LaunchOf(n.pc[t]).value)
    ensures forall id: nat :: Launching(s, id) && LaunchOf(s.pc[t]) != Some(id) ==> Launching(n, id)
  {
    forall id: nat | Launching(s, id) && LaunchOf(s.pc[t]) != Some(id) ensures Launching(n, id) {
      var u :| u in s.pc && LaunchOf(s.pc[u]) == Some(id);
      assert u in n.pc && LaunchOf(n.pc[u]) == Some(id);
    }
  }

  /** Whoever is to destroy a worker, it is not one of the registry's. */
  lemma WorkerAtHandIsNotActive(s: State, t: Tid)
    requires WorkersAccounted(s) && WorkersInHand(s) && PositionsSound(s) && EarlyKnown(s) && t in s.pc
    ensures (WorkerOf(s.pc[t]).Some? ==> WorkerOf(s.pc[t]).value !in s.scans.active)
    ensures Robbed(s.pc[t]) ==> s.pc[t].id !in s.scans.active
    ensures s.pc[t].Created? ==> s.pc[t].id in s.owner && s.owner[s.pc[t].id] == AtThread(t)
  {
    assert PositionSound(s, s.pc[t]);
    if WorkerOf(s.pc[t]).Some? {
      var id := WorkerOf(s.pc[t]).value;
      assert t in s.pc && id !in s.strays ==> id in s.owner;
    }
  }

  lemma StepKeepsWorkersAccountedRegistry(s: State, step: Step)
    requires WorkersAccounted(s) && WorkersInHand(s) && StartsNew(s) && PositionsSound(s) && EarlyKnown(s)
    requires Enabled(s, step) && OnRegistry(step.action)
    ensures WorkersAccounted(Next(s, step))
  {
    WorkerAtHandIsNotActive(s, step.t);
    hide Launching, WorkersInHand, PositionsSound;
  }

  lemma StepKeepsWorkersAccountedWorkers(s: State, step: Step)
    requires WorkersAccounted(s) && WorkersInHand(s) && StartsNew(s) && PositionsSound(s) && EarlyKnown(s)
    requires Enabled(s, step) && OnWorkers(step.action)
    ensures WorkersAccounted(Next(s, step))
  {
    WorkerAtHandIsNotActive(s, step.t);
    hide Launching, WorkersInHand, PositionsSound;
    if s.pc[step.t].Numbered? { NumberIsNew(s, step.t); }
  }

  lemma StepKeepsWorkersAccountedOthers(s: State, step: Step)
    requires WorkersAccounted(s) && WorkersInHand(s) && StartsNew(s) && PositionsSound(s) && EarlyKnown(s)
    requires Enabled(s, step) && !OnRegistry(step.action) && !OnWorkers(step.action)
    ensures WorkersAccounted(Next(s, step))
  {
    assert PositionSound(s, s.pc[step.t]);
    hide Launching, WorkersInHand, PositionsSound;
  }

  lemma StepKeepsWorkersAccounted(s: State, step: Step)
    requires WorkersAccounted(s) && WorkersInHand(s) && StartsNew(s) && PositionsSound(s) && EarlyKnown(s)
    requires Enabled(s, step)
    ensures WorkersAccounted(Next(s, step))
  {
    hide WorkersAccounted, WorkersInHand, StartsNew, PositionsSound, EarlyKnown, Next;
    if OnRegistry(step.action) { StepKeepsWorkersAccountedRegistry(s, step); }
    else if OnWorkers(step.action) { StepKeepsWorkersAccountedWorkers(s, step); }
    else { StepKeepsWorkersAccountedOthers(s, step); }
  }

  lemma StepKeepsWorkersInHandRegistry(s: State, step: Step)
    requires WorkersAccounted(s) && WorkersInHand(s) && StartsNew(s) && PositionsSound(s) && EarlyKnown(s)
    requires Enabled(s, step) && OnRegistry(step.action)
    ensures WorkersInHand(Next(s, step))
  {
    WorkerAtHandIsNotActive(s, step.t);
    hide Launching, PositionsSound;
    var n := Next(s, step);
    forall u, id
      ensures u in n.pc && WorkerOf(n.pc[u]) == Some(id) && id !in n.strays
        <==> id in n.owner && n.owner[id] == AtThread(u)
    {
      assert u in s.pc && WorkerOf(s.pc[u]) == Some(id) && id !in s.strays
        <==> id in s.owner && s.owner[id] == AtThread(u);
    }
  }

  lemma StepKeepsWorkersInHandWorkers(s: State, step: Step)
    requires WorkersAccounted(s) && WorkersInHand(s) && StartsNew(s) && PositionsSound(s) && EarlyKnown(s)
    requires Enabled(s, step) && OnWorkers(step.action)
    ensures WorkersInHand(Next(s, step))
  {
    WorkerAtHandIsNotActive(s, step.t);
    hide Launching, PositionsSound;
    var n := Next(s, step);
    if s.pc[step.t].Numbered? { NumberIsNew(s, step.t); }
    forall u, id
      ensures u in n.pc && WorkerOf(n.pc[u]) == Some(id) && id !in n.strays
        <==> id in n.owner && n.owner[id] == AtThread(u)
    {
      assert u in s.pc && WorkerOf(s.pc[u]) == Some(id) && id !in s.strays
        <==> id in s.owner && s.owner[id] == AtThread(u);
    }
  }

  lemma HandsUntouched(s: State, n: State, t: Tid)
    requires WorkersInHand(s) && n.owner == s.owner && n.strays == s.strays
    requires t in s.pc && t in n.pc && n.pc == s.pc[t := n.pc[t]] && WorkerOf(n.pc[t]) == WorkerOf(s.pc[t])
    ensures WorkersInHand(n)
  {
    forall u, id
      ensures u in n.pc && WorkerOf(n.pc[u]) == Some(id) && id !in n.strays
        <==> id in n.owner && n.owner[id] == AtThread(u)
    {
      assert u in s.pc && WorkerOf(s.pc[u]) == Some(id) && id !in s.strays
        <==> id in s.owner && s.owner[id] == AtThread(u);
    }
  }

  lemma StepKeepsWorkersInHandOthers(s: State, step: Step)
    requires WorkersInHand(s) && Enabled(s, step) && !OnRegistry(step.action) && !OnWorkers(step.action)
    ensures WorkersInHand(Next(s, step))
  {
    hide WorkersInHand;
    HandsUntouched(s, Next(s, step), step.t);
  }

  lemma StepKeepsWorkersInHand(s: State, step: Step)
    requires WorkersAccounted(s) && WorkersInHand(s) && StartsNew(s) && PositionsSound(s) && EarlyKnown(s)
    requires Enabled(s, step)
    ensures WorkersInHand(Next(s, step))
  {
    hide WorkersAccounted, WorkersInHand, StartsNew, PositionsSound, EarlyKnown, Next;
    if OnRegistry(step.action) { StepKeepsWorkersInHandRegistry(s, step); }
    else if OnWorkers(step.action) { StepKeepsWorkersInHandWorkers(s, step); }
    else { StepKeepsWorkersInHandOthers(s, step); }
  }

  lemma OtherPositionStaysSound(s: State, step: Step, u: Tid)
    requires WorkersAccounted(s) && StartsDistinct(s) && PositionsSound(s) && Enabled(s, step) && u in s.pc
    requires u != step.t
    ensures PositionSound(Next(s, step), s.pc[u])
  {
    assert PositionSound(s, s.pc[u]);
    assert StartOf(s.pc[u]) != StartOf(s.pc[step.t]) || StartOf(s.pc[u]) == None;
    if step.action.Remove? && LaunchOf(s.pc[u]).Some? { assert Launching(s, LaunchOf(s.pc[u]).value); }
  }

  lemma OwnPositionStaysSoundRegistry(s: State, step: Step)
    requires WorkersAccounted(s) && IdsBounded(s) && StartsNew(s) && PositionsSound(s) && EarlyKnown(s)
    requires Enabled(s, step) && OnRegistry(step.action)
    ensures PositionSound(Next(s, step), Next(s, step).pc[step.t])
  {
    hide Launching;
    assert PositionSound(s, s.pc[step.t]);
    hide PositionsSound, StartsNew;
  }

  lemma OwnPositionStaysSoundWorkers(s: State, step: Step)
    requires WorkersAccounted(s) && IdsBounded(s) && StartsNew(s) && PositionsSound(s) && EarlyKnown(s)
    requires Enabled(s, step) && OnWorkers(step.action)
    ensures PositionSound(Next(s, step), Next(s, step).pc[step.t])
  {
    hide Launching;
    assert PositionSound(s, s.pc[step.t]);
    if s.pc[step.t].Numbered? { NumberIsNew(s, step.t); }
    hide PositionsSound, StartsNew;
  }

  lemma OwnPositionStaysSoundOthers(s: State, step: Step)
    requires WorkersAccounted(s) && IdsBounded(s) && StartsNew(s) && PositionsSound(s) && EarlyKnown(s)
    requires Enabled(s, step) && !OnRegistry(step.action) && !OnWorkers(step.action)
    ensures PositionSound(Next(s, step), Next(s, step).pc[step.t])
  {
    hide Launching;
    assert PositionSound(s, s.pc[step.t]);
    hide PositionsSound, StartsNew;
  }

  lemma OwnPositionStaysSound(s: State, step: Step)
    requires WorkersAccounted(s) && IdsBounded(s) && StartsNew(s) && PositionsSound(s) && EarlyKnown(s)
    requires Enabled(s, step)
    ensures PositionSound(Next(s, step), Next(s, step).pc[step.t])
  {
    hide WorkersAccounted, IdsBounded, StartsNew, PositionsSound, EarlyKnown, PositionSound, Next;
    if OnRegistry(step.action) { OwnPositionStaysSoundRegistry(s, step); }
    else if OnWorkers(step.action) { OwnPositionStaysSoundWorkers(s, step); }
    else { OwnPositionStaysSoundOthers(s, step); }
  }

  lemma StepKeepsPositionsSound(s: State, step: Step)
    requires WorkersAccounted(s) && IdsBounded(s) && StartsDistinct(s) && StartsNew(s) && PositionsSound(s)
    requires EarlyKnown(s)
    requires Enabled(s, step)
    ensures PositionsSound(Next(s, step))
  {
    hide WorkersAccounted, IdsBounded, StartsDistinct, StartsNew, EarlyKnown, PositionSound, Launching;
    var n := Next(s, step);
    forall u | u in n.pc ensures PositionSound(n, n.pc[u]) {
      if u == step.t { OwnPositionStaysSound(s, step); } else { OtherPositionStaysSound(s, step, u); }
    }
  }

  lemma StepKeepsEarlyKnown(s: State, step: Step)
    requires WorkersAccounted(s) && PositionsSound(s) && EarlyKnown(s) && Enabled(s, step)
    ensures EarlyKnown(Next(s, step))
  {
    assert PositionSound(s, s.pc[step.t]);
    hide PositionsSound, Launching;
  }

  lemma StepKeepsLoopsKnownRegistry(s: State, step: Step)
    requires WorkersAccounted(s) && WorkersInHand(s) && PositionsSound(s) && EarlyKnown(s) && LoopsKnown(s)
    requires Enabled(s, step) && OnRegistry(step.action)
    ensures LoopsKnown(Next(s, step))
  {
    WorkerAtHandIsNotActive(s, step.t);
    assert PositionSound(s, s.pc[step.t]);
    LaunchesOfOthersRemain(s, Next(s, step), step.t);
    hide WorkersInHand, PositionsSound, Launching;
  }

  lemma StepKeepsLoopsKnownWorkers(s: State, step: Step)
    requires WorkersAccounted(s) && WorkersInHand(s) && PositionsSound(s) && EarlyKnown(s) && LoopsKnown(s)
    requires Enabled(s, step) && OnWorkers(step.action)
    ensures LoopsKnown(Next(s, step))
  {
    WorkerAtHandIsNotActive(s, step.t);
    assert PositionSound(s, s.pc[step.t]);
    LaunchesOfOthersRemain(s, Next(s, step), step.t);
    hide WorkersInHand, PositionsSound, Launching;
  }

  lemma LoopsUntouched(s: State, n: State, t: Tid)
    requires LoopsKnown(s) && t in s.pc && t in n.pc && n.pc == s.pc[t := n.pc[t]]
    requires LaunchOf(n.pc[t]) == LaunchOf(s.pc[t]) && n.scans.active == s.scans.active
    requires n.looping == s.looping && n.stopping == s.stopping
    requires n.dead == s.dead && n.early == s.early && n.strays == s.strays
    ensures LoopsKnown(n)
  {
    LaunchesOfOthersRemain(s, n, t);
    hide Launching;
  }

  lemma LoopsAfterLaunch(s: State, t: Tid, ok: bool)
    requires WorkersAccounted(s) && PositionsSound(s) && LoopsKnown(s) && Enabled(s, Step(t, Launch(ok)))
    ensures LoopsKnown(Next(s, Step(t, Launch(ok))))
  {
    assert PositionSound(s, s.pc[t]);
    LaunchesOfOthersRemain(s, Next(s, Step(t, Launch(ok))), t);
    hide PositionsSound, Launching;
  }

  lemma LoopsAfterRequest(s: State, t: Tid)
    requires WorkersAccounted(s) && WorkersInHand(s) && PositionsSound(s) && EarlyKnown(s) && LoopsKnown(s)
    requires Enabled(s, Step(t, RequestStop))
    ensures LoopsKnown(Next(s, Step(t, RequestStop)))
  {
    WorkerAtHandIsNotActive(s, t);
    LaunchesOfOthersRemain(s, Next(s, Step(t, RequestStop)), t);
    hide WorkersAccounted, WorkersInHand, PositionsSound, EarlyKnown, Launching;
  }

  lemma LoopsAfterEnd(s: State, t: Tid, id: nat)
    requires LoopsKnown(s) && Enabled(s, Step(t, LoopEnds(id)))
    ensures LoopsKnown(Next(s, Step(t, LoopEnds(id))))
  {
    LaunchesOfOthersRemain(s, Next(s, Step(t, LoopEnds(id))), t);
    hide Launching;
  }

  lemma StepKeepsLoopsKnownOthers(s: State, step: Step)
    requires WorkersAccounted(s) && WorkersInHand(s) && PositionsSound(s) && EarlyKnown(s) && LoopsKnown(s)
    requires Enabled(s, step) && !OnRegistry(step.action) && !OnWorkers(step.action)
    ensures LoopsKnown(Next(s, step))
  {
    hide WorkersAccounted, WorkersInHand, PositionsSound, EarlyKnown, LoopsKnown, Launching;
    var n := Next(s, step);
    match step.action
    case Launch(ok) => LoopsAfterLaunch(s, step.t, ok);
    case RequestStop => LoopsAfterRequest(s, step.t);
    case LoopEnds(id) => LoopsAfterEnd(s, step.t, id);
    case _ => LoopsUntouched(s, n, step.t);
  }

  lemma StepKeepsLoopsKnown(s: State, step: Step)
    requires WorkersAccounted(s) && WorkersInHand(s) && PositionsSound(s) && EarlyKnown(s) && LoopsKnown(s)
    requires Enabled(s, step)
    ensures LoopsKnown(Next(s, step))
  {
    hide WorkersAccounted, WorkersInHand, PositionsSound, EarlyKnown, LoopsKnown, Next;
    if OnRegistry(step.action) { StepKeepsLoopsKnownRegistry(s, step); }
    else if OnWorkers(step.action) { StepKeepsLoopsKnownWorkers(s, step); }
    else { StepKeepsLoopsKnownOthers(s, step); }
  }

  /** Only a launch can make another thread hang, and only one whose scan is already being stopped. */
  lemma StepKeepsHangsKnown(s: State, step: Step)
    requires WorkersAccounted(s) && WorkersInHand(s) && PositionsSound(s) && EarlyKnown(s) && HangsKnown(s)
    requires Enabled(s, step)
    ensures HangsKnown(Next(s, step))
  {
    var n := Next(s, step);
    assert PositionSound(s, s.pc[step.t]);
    forall u | u in n.pc && Hangs(n, n.pc[u]) ensures n.pc[u].id in n.early {
      if u != step.t { EndingIsNotActive(s, u); }
    }
  }

  lemma EndingIsNotActive(s: State, u: Tid)
    requires WorkersAccounted(s) && WorkersInHand(s) && PositionsSound(s) && EarlyKnown(s) && u in s.pc
    ensures s.pc[u].Ending? ==> s.pc[u].id !in s.scans.active
  {
    WorkerAtHandIsNotActive(s, u);
  }

  lemma StepKeepsInv(s: State, step: Step)
    requires Inv(s) && Enabled(s, step)
    ensures Inv(Next(s, step))
  {
    hide DispatcherInv, IdsBounded, StartsDistinct, StartsNew, WorkersAccounted, WorkersInHand;
    hide PositionsSound, EarlyKnown;
    hide LoopsKnown, HangsKnown, Next;
    StepKeepsDispatcherInv(s, step);
    StepKeepsIdsBounded(s, step);
    StepKeepsStartsDistinct(s, step);
    StepKeepsStartsNew(s, step);
    StepKeepsWorkersAccounted(s, step);
    StepKeepsWorkersInHand(s, step);
    StepKeepsPositionsSound(s, step);
    StepKeepsEarlyKnown(s, step);
    StepKeepsLoopsKnown(s, step);
    StepKeepsHangsKnown(s, step);
  }
}
