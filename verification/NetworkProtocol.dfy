/**
 Apply, confirm, revert and reconcile from any number of requests at once, with the expiry timers
 and the operating system's own revert. A critical section is one step, and so is each call of the
 helper, which takes effect as it returns.
 */
module NetworkProtocol {
  import opened Common
  import opened NetworkServices

  type Tid = nat

  /** A change and the number under which it was made. */
  datatype Change = Change(number: nat, change: PendingChange)

  datatype Pc =
    | Idle
    | Reserved(config: Config)
    | HelperApplying(config: Config)
    | HelperApplied(config: Config)
    | Stored(change: Change)
    | Releasing
    | Confirming
    | Reverting(inMemory: bool)
    | Clearing

  datatype State = State(
    pending: Option<Change>,
    applying: bool,
    marker: bool,
    pc: map<Tid, Pc>,
    timers: set<Change>,
    made: seq<PendingChange>,     // every change ever stored, by number
    applier: Option<Tid>)         // the request that holds the reservation

  datatype Step =
    | Reserve(t: Tid, config: Config)
    | SessionsActive(t: Tid)
    | CallHelper(t: Tid)
    | HelperSucceeds(t: Tid)
    | HelperFails(t: Tid, clears: bool)
    | Store(t: Tid, expiresAt: Instant)
    | Schedule(t: Tid)
    | Release(t: Tid)
    | CheckConfirm(t: Tid)
    | HelperConfirm(t: Tid, ok: bool)
    | ReadPending(t: Tid)
    | NothingToRevert(t: Tid)
    | HelperRevert(t: Tid, started: bool)
    | HelperReconcile(t: Tid, ok: bool, clears: bool)
    | ClearPending(t: Tid)
    | Expire(change: Change)
    | SystemReverts

  function Initial(threads: set<Tid>, marker: bool): State {
    State(None, false, marker, map t | t in threads :: Idle, {}, [], None)
  }

  predicate Enabled(s: State, step: Step) {
    match step
    case Reserve(t, _) => t in s.pc && s.pc[t].Idle?
    case SessionsActive(t) => t in s.pc && s.pc[t].Reserved?
    case CallHelper(t) => t in s.pc && s.pc[t].Reserved?
    case HelperSucceeds(t) => t in s.pc && s.pc[t].HelperApplying?
    case HelperFails(t, _) => t in s.pc && s.pc[t].HelperApplying?
    case Store(t, _) => t in s.pc && s.pc[t].HelperApplied?
    case Schedule(t) => t in s.pc && s.pc[t].Stored?
    case Release(t) => t in s.pc && s.pc[t].Releasing?
    case CheckConfirm(t) => t in s.pc && s.pc[t].Idle?
    case HelperConfirm(t, ok) => t in s.pc && s.pc[t].Confirming? && (ok ==> s.marker)
    case ReadPending(t) => t in s.pc && s.pc[t].Idle?
    case NothingToRevert(t) => t in s.pc && s.pc[t].Reverting? && !s.pc[t].inMemory && !s.marker
    case HelperRevert(t, _) => t in s.pc && s.pc[t].Reverting?
    case HelperReconcile(t, _, _) => t in s.pc && s.pc[t].Idle?
    case ClearPending(t) => t in s.pc && s.pc[t].Clearing?
    case Expire(c) => c in s.timers
    case SystemReverts => true
  }

  function Next(s: State, step: Step): State
    requires Enabled(s, step)
  {
    match step
    case Reserve(t, config) =>
      if !MayReserve(s.pending, s.applying) then s
      else s.(applying := true, applier := Some(t), pc := s.pc[t := Reserved(config)])
    case SessionsActive(t) => s.(pc := s.pc[t := Releasing])
    case CallHelper(t) => s.(pc := s.pc[t := HelperApplying(s.pc[t].config)])
    case HelperSucceeds(t) => s.(marker := true, pc := s.pc[t := HelperApplied(s.pc[t].config)])
    case HelperFails(t, clears) => s.(marker := s.marker && !clears, pc := s.pc[t := Releasing])
    case Store(t, expiresAt) =>
      var change := Change(|s.made|, PendingChange(s.pc[t].config, expiresAt));
      s.(pending := Some(change), made := s.made + [change.change], pc := s.pc[t := Stored(change)])
    case Schedule(t) => s.(timers := s.timers + {s.pc[t].change}, pc := s.pc[t := Releasing])
    case Release(t) => s.(applying := false, applier := None, pc := s.pc[t := Idle])
    case CheckConfirm(t) => if s.pending == None then s else s.(pc := s.pc[t := Confirming])
    case HelperConfirm(t, ok) =>
      if ok then s.(marker := false, pc := s.pc[t := Clearing]) else s.(pc := s.pc[t := Idle])
    case ReadPending(t) => s.(pc := s.pc[t := Reverting(s.pending.Some?)])
    case NothingToRevert(t) => s.(pc := s.pc[t := Idle])
    case HelperRevert(t, started) => s.(marker := s.marker && !started, pc := s.pc[t := Clearing])
    case HelperReconcile(t, ok, clears) =>
      s.(marker := s.marker && !clears, pc := s.pc[t := if ok then Clearing else Idle])
    case ClearPending(t) => s.(pending := None, pc := s.pc[t := Idle])
    case Expire(c) =>
      s.(timers := s.timers - {c},
         pending := if s.pending.Some? && MadeFor(c.change.expiresAt, s.pending.value.change) then None else s.pending)
    case SystemReverts => s.(marker := false)
  }

  /** Between a reservation and its release. */
  predicate Holds(pc: Pc) {
    pc.Reserved? || pc.HelperApplying? || pc.HelperApplied? || pc.Stored? || pc.Releasing?
  }

  /** The reservation is one request's, and while that request has not stored its change nothing is pending. */
  ghost predicate ReservationSound(s: State) {
    && (forall t {:trigger Holds(s.pc[t])} :: t in s.pc ==> (Holds(s.pc[t]) <==> s.applier == Some(t)))
    && (s.applying <==> s.applier.Some?)
    && (s.applier.Some? ==> s.applier.value in s.pc)
    && (s.applier.Some? && MayStillStore(s.pc[s.applier.value]) ==>
          s.pending == None)
  }

  /** What is pending has its timer, or is about to get it. */
  ghost predicate TimersSound(s: State) {
    && (s.pending.Some? ==>
          || s.pending.value in s.timers
          || (s.applier.Some? && s.applier.value in s.pc && s.pc[s.applier.value] == Stored(s.pending.value)))
    && (forall c :: c in s.timers || s.pending == Some(c) ==> Genuine(s, c))
    && (forall t {:trigger s.pc[t].Stored?} :: t in s.pc && s.pc[t].Stored? ==> Genuine(s, s.pc[t].change))
  }

  ghost predicate Genuine(s: State, c: Change) {
    c.number < |s.made| && s.made[c.number] == c.change
  }

  ghost predicate Inv(s: State) {
    ReservationSound(s) && TimersSound(s)
  }

  lemma InitialInv(threads: set<Tid>, marker: bool)
    ensures Inv(Initial(threads, marker))
  {
  }

  lemma StepKeepsReservation(s: State, step: Step)
    requires ReservationSound(s) && Enabled(s, step)
    ensures ReservationSound(Next(s, step))
  {
    var n := Next(s, step);
    if step.Release? || step.Store? || step.HelperSucceeds? || step.HelperFails? || step.Schedule?
      || step.SessionsActive? || step.CallHelper? {
      assert Holds(s.pc[step.t]) <==> s.applier == Some(step.t);
    }
    forall t | t in n.pc ensures Holds(n.pc[t]) <==> n.applier == Some(t) {
      assert Holds(s.pc[t]) <==> s.applier == Some(t);
    }
  }

  /** Nothing is stored or scheduled, and whoever has stored a change still has it. */
  lemma TimersFrame(s: State, n: State)
    requires TimersSound(s) && n.timers == s.timers && n.made == s.made && (n.pending == s.pending || n.pending == None)
    requires forall t :: t in n.pc && n.pc[t].Stored? ==> t in s.pc && s.pc[t] == n.pc[t]
    requires s.applier.Some? && s.applier.value in s.pc && s.pc[s.applier.value].Stored? ==>
      n.applier == s.applier && s.applier.value in n.pc && n.pc[s.applier.value] == s.pc[s.applier.value]
    ensures TimersSound(n)
  {
  }

  lemma StepKeepsTimers(s: State, step: Step)
    requires ReservationSound(s) && TimersSound(s) && Enabled(s, step)
    ensures TimersSound(Next(s, step))
  {
    hide TimersSound, ReservationSound;
    match step
    case Reserve(t, config) => TimersOfReserved(s, t, config);
    case Store(t, at) => TimersOfStored(s, t, at);
    case Schedule(t) => TimersOfScheduled(s, t);
    case Release(t) => TimersOfReleased(s, t);
    case Expire(c) => TimersOfExpired(s, c);
    case _ => TimersFrame(s, Next(s, step));
  }

  lemma TimersOfReserved(s: State, t: Tid, config: Config)
    requires ReservationSound(s) && TimersSound(s) && Enabled(s, Reserve(t, config))
    ensures TimersSound(Next(s, Reserve(t, config)))
  {
    hide TimersSound;
    TimersFrame(s, Next(s, Reserve(t, config)));
  }

  lemma TimersOfStored(s: State, t: Tid, at: Instant)
    requires ReservationSound(s) && TimersSound(s) && Enabled(s, Store(t, at))
    ensures TimersSound(Next(s, Store(t, at)))
  {
    assert Holds(s.pc[t]) <==> s.applier == Some(t);
  }

  lemma TimersOfScheduled(s: State, t: Tid)
    requires ReservationSound(s) && TimersSound(s) && Enabled(s, Schedule(t))
    ensures TimersSound(Next(s, Schedule(t)))
  {
    assert Holds(s.pc[t]) <==> s.applier == Some(t);
  }

  lemma TimersOfReleased(s: State, t: Tid)
    requires ReservationSound(s) && TimersSound(s) && Enabled(s, Release(t))
    ensures TimersSound(Next(s, Release(t)))
  {
    assert Holds(s.pc[t]) <==> s.applier == Some(t);
    hide TimersSound;
    TimersFrame(s, Next(s, Release(t)));
  }

  lemma TimersOfExpired(s: State, c: Change)
    requires TimersSound(s) && Enabled(s, Expire(c))
    ensures TimersSound(Next(s, Expire(c)))
  {
  }

  // ----- runs

  ghost predicate Legal(s: State, steps: seq<Step>)
    decreases steps, 0
  {
    steps != [] ==>
      Legal(s, steps[..|steps| - 1]) && Enabled(After(s, steps[..|steps| - 1]), steps[|steps| - 1])
  }

  ghost function After(s: State, steps: seq<Step>): State
    requires Legal(s, steps)
    decreases steps, 1
  {
    if steps == [] then s else Next(After(s, steps[..|steps| - 1]), steps[|steps| - 1])
  }

  ghost predicate Reachable(s: State) {
    exists threads: set<Tid>, marker: bool, steps: seq<Step> ::
      Legal(Initial(threads, marker), steps) && s == After(Initial(threads, marker), steps)
  }

  lemma {:induction false} RunKeepsInv(s: State, steps: seq<Step>)
    requires Inv(s) && Legal(s, steps)
    ensures Inv(After(s, steps))
  {
    if steps != [] {
      var before := After(s, steps[..|steps| - 1]);
      RunKeepsInv(s, steps[..|steps| - 1]);
      hide ReservationSound, TimersSound, Next;
      StepKeepsReservation(before, steps[|steps| - 1]);
      StepKeepsTimers(before, steps[|steps| - 1]);
    }
  }

  lemma ReachableIsInv(s: State)
    requires Reachable(s)
    ensures Inv(s)
  {
    hide Inv;
    var threads: set<Tid>, marker: bool, steps: seq<Step> :|
      Legal(Initial(threads, marker), steps) && s == After(Initial(threads, marker), steps);
    InitialInv(threads, marker);
    RunKeepsInv(Initial(threads, marker), steps);
  }

  // ----- what holds however the requests overlap

  lemma OneHelperApplyAtATime(s: State, t: Tid, u: Tid)
    requires Reachable(s) && t in s.pc && u in s.pc && s.pc[t].HelperApplying? && s.pc[u].HelperApplying?
    ensures t == u
  {
    hide Reachable;
    ReachableIsInv(s);
    assert Holds(s.pc[t]) && Holds(s.pc[u]);
  }

  /** So the snapshot that the helper takes of the previous address is never another change's address. */
  lemma NoHelperApplyWhilePending(s: State, t: Tid)
    requires Reachable(s) && t in s.pc && s.pc[t].HelperApplying?
    ensures s.pending == None && s.applying
  {
    hide Reachable;
    ReachableIsInv(s);
    assert Holds(s.pc[t]);
  }

  /** What is pending here is on the way to being cleared, whoever else gives up. */
  lemma PendingWillExpire(s: State)
    requires Reachable(s) && s.pending.Some? && forall t :: t in s.pc ==> !s.pc[t].Stored?
    ensures s.pending.value in s.timers && Next(s, Expire(s.pending.value)).pending == None
  {
    hide Reachable;
    ReachableIsInv(s);
  }

  ghost predicate InstantsDistinct(s: State) {
    forall i, j :: 0 <= i < j < |s.made| ==> s.made[i].expiresAt != s.made[j].expiresAt
  }

  /** Does some expiry clear a change that it was not made for? */
  ghost predicate ClearsAnother(s: State, c: Change) {
    c in s.timers && s.pending.Some? && s.pending.value != c && Next(s, Expire(c)).pending == None
  }

  /** A timer clears another change exactly when the two changes were made to expire at the same instant. */
  lemma ClearsAnotherIffInstantsCollide(s: State, c: Change)
    requires Reachable(s) && c in s.timers && s.pending.Some?
    ensures c.number < |s.made| && s.pending.value.number < |s.made|
    ensures ClearsAnother(s, c) <==>
      c.number != s.pending.value.number && s.made[c.number].expiresAt == s.made[s.pending.value.number].expiresAt
  {
    hide Reachable;
    ReachableIsInv(s);
    assert Genuine(s, c) && Genuine(s, s.pending.value);
  }

  lemma DistinctExpiriesClearOnlyTheirOwn(s: State, c: Change)
    requires Reachable(s) && InstantsDistinct(s)
    ensures !ClearsAnother(s, c)
  {
    hide Reachable;
    if c in s.timers && s.pending.Some? { ClearsAnotherIffInstantsCollide(s, c); }
  }

  // ----- what a revert leaves behind when an apply is under way

  /** An apply that has its reservation and has not stored its change. */
  predicate MayStillStore(pc: Pc) {
    pc.Reserved? || pc.HelperApplying? || pc.HelperApplied?
  }

  ghost predicate SomeoneMayStillStore(s: State) {
    exists u :: u in s.pc && MayStillStore(s.pc[u])
  }

  predicate NoNewApply(steps: seq<Step>) {
    forall i :: 0 <= i < |steps| ==> !steps[i].Reserve?
  }

  lemma {:induction false} NothingIsStored(s: State, steps: seq<Step>)
    requires Legal(s, steps) && NoNewApply(steps) && s.pending == None && !SomeoneMayStillStore(s)
    ensures After(s, steps).pending == None && !SomeoneMayStillStore(After(s, steps))
  {
    if steps != [] {
      var before, step := After(s, steps[..|steps| - 1]), steps[|steps| - 1];
      NothingIsStored(s, steps[..|steps| - 1]);
      hide Legal, After;
      forall u | u in Next(before, step).pc ensures !MayStillStore(Next(before, step).pc[u]) {
        assert u in before.pc && !MayStillStore(before.pc[u]);
      }
    }
  }

  /** An apply goes on from where `u` is, if nothing goes wrong, and stores its change. */
  lemma RestOfApplyStores(s: State, u: Tid, at: Instant) returns (steps: seq<Step>)
    requires u in s.pc && MayStillStore(s.pc[u])
    ensures Legal(s, steps) && NoNewApply(steps) && After(s, steps).pending.Some?
  {
    assert Legal(s, []) && After(s, []) == s;
    var r := (s, []);
    hide Legal, After;
    if s.pc[u].Reserved? { r := OneStepOn(s, r.0, r.1, u, CallHelper(u)); }
    if !s.pc[u].HelperApplied? { r := OneStepOn(s, r.0, r.1, u, HelperSucceeds(u)); }
    r := Then(s, r.0, r.1, Store(u, at));
    steps := r.1;
  }

  lemma OneStepOn(a: State, s: State, steps: seq<Step>, u: Tid, step: Step) returns (r: (State, seq<Step>))
    requires Legal(a, steps) && s == After(a, steps) && NoNewApply(steps) && Enabled(s, step)
    requires step == CallHelper(u) || step == HelperSucceeds(u)
    ensures Legal(a, r.1) && r.0 == After(a, r.1) && NoNewApply(r.1) && u in r.0.pc
    ensures if step.CallHelper? then r.0.pc[u].HelperApplying? else r.0.pc[u].HelperApplied?
  {
    hide Legal, After;
    r := Then(a, s, steps, step);
  }

  /**
   The last step of a revert leaves nothing pending here; without another apply that stays so,
   whatever else runs, unless some apply had its reservation and had not stored its change.
   */
  lemma ClearedForGoodIffNoApplyUnderWay(s: State, t: Tid)
    requires Enabled(s, ClearPending(t))
    ensures Next(s, ClearPending(t)).pending == None
    ensures (exists steps :: Legal(Next(s, ClearPending(t)), steps) && NoNewApply(steps)
                             && After(Next(s, ClearPending(t)), steps).pending.Some?)
      <==> SomeoneMayStillStore(s)
  {
    var n := Next(s, ClearPending(t));
    if SomeoneMayStillStore(s) {
      var u :| u in s.pc && MayStillStore(s.pc[u]);
      var steps := RestOfApplyStores(n, u, 0);
    } else {
      assert !SomeoneMayStillStore(n);
      forall steps | Legal(n, steps) && NoNewApply(steps) ensures After(n, steps).pending == None {
        NothingIsStored(n, steps);
      }
    }
  }

  /** Does this step take a marker away? */
  predicate ClearsMarker(step: Step) {
    match step
    case HelperFails(_, clears) => clears
    case HelperConfirm(_, ok) => ok
    case HelperRevert(_, started) => started
    case HelperReconcile(_, _, clears) => clears
    case SystemReverts => true
    case _ => false
  }

  predicate NoMarkerCleared(steps: seq<Step>) {
    forall i :: 0 <= i < |steps| ==> !ClearsMarker(steps[i])
  }

  ghost predicate SomeoneMayStillMark(s: State) {
    exists u :: u in s.pc && (s.pc[u].Reserved? || s.pc[u].HelperApplying?)
  }

  lemma {:induction false} NothingIsMarked(s: State, steps: seq<Step>)
    requires Legal(s, steps) && NoNewApply(steps) && !s.marker && !SomeoneMayStillMark(s)
    ensures !After(s, steps).marker && !SomeoneMayStillMark(After(s, steps))
  {
    if steps != [] {
      var before, step := After(s, steps[..|steps| - 1]), steps[|steps| - 1];
      NothingIsMarked(s, steps[..|steps| - 1]);
      hide Legal, After;
      forall u | u in Next(before, step).pc
        ensures !Next(before, step).pc[u].Reserved? && !Next(before, step).pc[u].HelperApplying?
      {
        assert u in before.pc && !before.pc[u].Reserved? && !before.pc[u].HelperApplying?;
      }
    }
  }

  ghost predicate HelperIsDone(s: State) {
    exists u :: u in s.pc && s.pc[u].HelperApplied?
  }

  /** Whoever stores a change after this has had the helper succeed after this. */
  lemma {:induction false} StoredMeansMarked(s: State, steps: seq<Step>)
    requires Legal(s, steps) && NoMarkerCleared(steps) && !HelperIsDone(s)
    ensures After(s, steps).marker || (|After(s, steps).made| == |s.made| && !HelperIsDone(After(s, steps)))
  {
    if steps != [] {
      var before, step := After(s, steps[..|steps| - 1]), steps[|steps| - 1];
      StoredMeansMarked(s, steps[..|steps| - 1]);
      hide Legal, After, HelperIsDone, Next;
      MarkStays(before, step);
    }
  }

  lemma MarkStays(s: State, step: Step)
    requires Enabled(s, step) && !ClearsMarker(step)
    ensures s.marker ==> Next(s, step).marker
    ensures !s.marker && !HelperIsDone(s) ==>
      Next(s, step).marker || (|Next(s, step).made| == |s.made| && !HelperIsDone(Next(s, step)))
  {
    var n := Next(s, step);
    if !n.marker && HelperIsDone(n) {
      var u :| u in n.pc && n.pc[u].HelperApplied?;
      assert u in s.pc && s.pc[u].HelperApplied?;
    }
  }

  /**
   A change stored after the helper has reverted, by an apply already under way then, is pending in
   memory only, with nothing on disk, exactly if that apply's helper call had already succeeded.
   */
  lemma PendingInMemoryOnlyIffHelperWasDone(s: State, t: Tid, later: seq<Step>)
    requires Reachable(s) && Enabled(s, HelperRevert(t, true))
    requires Legal(Next(s, HelperRevert(t, true)), later) && NoNewApply(later) && NoMarkerCleared(later)
    requires |After(Next(s, HelperRevert(t, true)), later).made| > |s.made|
    ensures !After(Next(s, HelperRevert(t, true)), later).marker <==> HelperIsDone(s)
  {
    var n := Next(s, HelperRevert(t, true));
    assert HelperIsDone(n) <==> HelperIsDone(s) by { HelperStaysDone(s, t); }
    hide Reachable, Legal, After;
    if HelperIsDone(s) {
      ReachableIsInv(s);
      OnlyOneIsAtIt(s, t);
      NothingIsMarked(n, later);
    } else {
      StoredMeansMarked(n, later);
    }
  }

  lemma HelperStaysDone(s: State, t: Tid)
    requires Enabled(s, HelperRevert(t, true))
    ensures HelperIsDone(Next(s, HelperRevert(t, true))) <==> HelperIsDone(s)
  {
    var n := Next(s, HelperRevert(t, true));
    if u :| u in s.pc && s.pc[u].HelperApplied? { assert u in n.pc && n.pc[u].HelperApplied?; }
    if u :| u in n.pc && n.pc[u].HelperApplied? { assert u in s.pc && s.pc[u].HelperApplied?; }
  }

  lemma OnlyOneIsAtIt(s: State, t: Tid)
    requires ReservationSound(s) && Enabled(s, HelperRevert(t, true)) && HelperIsDone(s)
    ensures !SomeoneMayStillMark(Next(s, HelperRevert(t, true)))
  {
    var u :| u in s.pc && s.pc[u].HelperApplied?;
    forall v | v in s.pc && v != u ensures !Holds(s.pc[v]) {
      assert Holds(s.pc[u]) && (Holds(s.pc[v]) <==> s.applier == Some(v));
    }
  }

  // ----- two runs that show where the limits are

  lemma Then(a: State, s: State, steps: seq<Step>, step: Step) returns (r: (State, seq<Step>))
    requires Legal(a, steps) && s == After(a, steps) && Enabled(s, step)
    ensures r == (Next(s, step), steps + [step]) && Legal(a, r.1) && r.0 == After(a, r.1)
  {
    assert (steps + [step])[..|steps|] == steps;
    r := (Next(s, step), steps + [step]);
  }

  /** One request applies a change up to its end; the helper has the marker and the timer runs. */
  lemma ApplyOnce(a: State, s: State, steps: seq<Step>, config: Config, at: Instant) returns (r: (State, seq<Step>))
    requires Legal(a, steps) && s == After(a, steps)
    requires 0 in s.pc && s.pc[0] == Idle && s.pending == None && !s.applying
    ensures var c := Change(|s.made|, PendingChange(config, at));
      && Legal(a, r.1) && r.0 == After(a, r.1)
      && r.0 == s.(pending := Some(c), marker := true, timers := s.timers + {c},
                   made := s.made + [c.change], applier := None)
  {
    hide Legal, After;
    r := Then(a, s, steps, Reserve(0, config));
    r := Then(a, r.0, r.1, CallHelper(0));
    r := Then(a, r.0, r.1, HelperSucceeds(0));
    r := Then(a, r.0, r.1, Store(0, at));
    r := Then(a, r.0, r.1, Schedule(0));
    r := Then(a, r.0, r.1, Release(0));
    assert r.0.pc == s.pc;
  }

  lemma ReachableBy(threads: set<Tid>, marker: bool, s: State, steps: seq<Step>)
    requires Legal(Initial(threads, marker), steps) && s == After(Initial(threads, marker), steps)
    ensures Reachable(s)
  {
  }

  lemma ApplyAndConfirm(config: Config, at: Instant) returns (r: (State, seq<Step>))
    ensures Legal(Initial({0}, false), r.1) && r.0 == After(Initial({0}, false), r.1)
    ensures var c := PendingChange(config, at);
      r.0 == State(None, false, false, map[0 := Idle], {Change(0, c)}, [c], None)
  {
    var a := Initial({0}, false);
    assert Legal(a, []) && After(a, []) == a;
    r := ApplyOnce(a, a, [], config, at);
    hide Legal, After;
    r := Then(a, r.0, r.1, CheckConfirm(0));
    r := Then(a, r.0, r.1, HelperConfirm(0, true));
    r := Then(a, r.0, r.1, ClearPending(0));
  }

  /** Two changes made with the same expiry instant: the first one's timer clears the second. */
  lemma EqualExpiriesClearAnother(config: Config, at: Instant) returns (s: State, c: Change)
    ensures Reachable(s) && ClearsAnother(s, c)
  {
    var a := Initial({0}, false);
    var r := ApplyAndConfirm(config, at);
    hide Legal, After, Reachable;
    r := ApplyOnce(a, r.0, r.1, config, at);
    ReachableBy({0}, false, r.0, r.1);
    s, c := r.0, Change(0, PendingChange(config, at));
  }

  /** Request 0's helper call has just succeeded. */
  lemma ApplyAsFarAsTheHelper(config: Config) returns (r: (State, seq<Step>))
    ensures Legal(Initial({0, 1}, false), r.1) && r.0 == After(Initial({0, 1}, false), r.1)
    ensures r.0 == State(None, true, true, map[0 := HelperApplied(config), 1 := Idle], {}, [], Some(0))
  {
    var a := Initial({0, 1}, false);
    assert Legal(a, []) && After(a, []) == a;
    hide Legal, After;
    r := Then(a, a, [], Reserve(0, config));
    r := Then(a, r.0, r.1, CallHelper(0));
    r := Then(a, r.0, r.1, HelperSucceeds(0));
  }

  /** Then request 1 reverts from beginning to end. */
  lemma RevertUnderApply(config: Config) returns (r: (State, seq<Step>))
    ensures Legal(Initial({0, 1}, false), r.1) && r.0 == After(Initial({0, 1}, false), r.1)
    ensures r.0 == State(None, true, false, map[0 := HelperApplied(config), 1 := Idle], {}, [], Some(0))
  {
    var a := Initial({0, 1}, false);
    r := ApplyAsFarAsTheHelper(config);
    hide Legal, After;
    r := Then(a, r.0, r.1, ReadPending(1));
    r := Then(a, r.0, r.1, HelperRevert(1, true));
    r := Then(a, r.0, r.1, ClearPending(1));
  }

  /** A revert that overlaps an apply: nothing is left on disk, but the apply then records its change as pending. */
  lemma OverlappedRevertLeavesPending(config: Config, at: Instant) returns (s: State)
    ensures Reachable(s) && s.pending.Some? && !s.marker && s.pc == map[0 := Stored(s.pending.value), 1 := Idle]
  {
    var r := RevertUnderApply(config);
    hide Legal, After, Reachable;
    r := Then(Initial({0, 1}, false), r.0, r.1, Store(0, at));
    ReachableBy({0, 1}, false, r.0, r.1);
    s := r.0;
  }
}
