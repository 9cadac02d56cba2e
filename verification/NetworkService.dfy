/**
 The provisional change of the box's address: apply, then confirm or revert, with a pending change
 remembered both in this process and by the privileged helper on disk. One call at a time here;
 the interleavings are in NetworkProtocol.
 */
module NetworkServices {
  import opened Common

  type Instant = int

  datatype Config = Config(cidr: string, gateway: Option<string>)

  datatype PendingChange = PendingChange(config: Config, expiresAt: Instant)

  /** The helper's own record of a change; `dated` says whether its expiry can be read. */
  datatype Marker = Marker(config: Config, expiresAt: Instant, dated: bool)

  const StaleGraceSeconds: int := 15

  /** A marker whose time is well over, or that cannot be dated, no longer refuses anything. */
  predicate InFlight(m: Option<Marker>, now: Instant) {
    m.Some? && m.value.dated && m.value.expiresAt > 0 && now <= m.value.expiresAt + StaleGraceSeconds
  }

  /** A change may be applied when none is pending and none is being applied. */
  predicate MayReserve<P>(pending: Option<P>, applying: bool) {
    pending.None? && !applying
  }

  /** All that an expiry timer knows of its change is the instant. */
  predicate MadeFor(at: Instant, change: PendingChange) {
    change.expiresAt == at
  }

  datatype HelperResult = Done | Refused | Failed

  datatype Error = NoError | InvalidConfig | ChangeAlreadyPending | SessionsActive | ApplyFailed | NoPendingChange

  /** The helper's promises about its marker, whatever else goes wrong. */
  class Helper {
    var marker: Option<Marker>

    constructor (marker: Option<Marker>)
      ensures this.marker == marker
    {
      this.marker := marker;
    }

    /**
     `accepted` says whether the helper runs and finds its arguments and its configuration in order;
     before that it touches nothing. Then it refuses exactly when a change is in flight; any other
     failure rolls back and leaves no marker.
     */
    method Apply(config: Config, timeout: nat, now: Instant, accepted: bool, works: bool) returns (r: HelperResult)
      modifies this
      ensures r == Refused <==> accepted && InFlight(old(marker), now)
      ensures r == Refused ==> old(marker).Some? && old(marker).value.dated && old(marker).value.expiresAt > 0
      ensures r == Refused ==> now <= old(marker).value.expiresAt + 15
      ensures accepted && old(marker).Some? && old(marker).value.dated && old(marker).value.expiresAt > 0 ==>
        (now <= old(marker).value.expiresAt + 15 ==> r == Refused)
      ensures r == Refused || !accepted ==> marker == old(marker)
      ensures r == Done <==> accepted && !InFlight(old(marker), now) && works
      ensures r == Done ==> marker == Some(Marker(config, now + timeout, true))
      ensures r == Failed && accepted ==> marker == None
    {
      if !accepted { return Failed; }
      if marker.Some? && marker.value.dated && marker.value.expiresAt > 0
        && now <= marker.value.expiresAt + StaleGraceSeconds {
        return Refused;
      }
      if !works {
        marker := None;
        return Failed;
      }
      marker := Some(Marker(config, now + timeout, true));
      return Done;
    }

    /**
     Two applies in a row: the second is refused throughout the time of the first, and never once that
     is over by more than the grace; a refusal leaves the first change's marker.
     */
    method ApplyTwice(first: Config, timeout: nat, now: Instant, second: Config, timeout2: nat, later: Instant,
        accepted: bool, works: bool)
      returns (r: HelperResult, r2: HelperResult)
      requires 0 < now + timeout
      modifies this
      ensures r == Done && accepted && later <= now + timeout ==> r2 == Refused
      ensures r == Done && later > now + timeout + 15 ==> r2 != Refused
      ensures r == Done && accepted ==> (r2 == Refused <==> later <= now + timeout + 15)
      ensures r == Done && r2 == Refused ==> marker == Some(Marker(first, now + timeout, true))
    {
      r := Apply(first, timeout, now, true, true);
      r2 := Apply(second, timeout2, later, accepted, works);
    }

    method Confirm(started: bool) returns (r: HelperResult)
      modifies this
      ensures r == Done <==> started && old(marker).Some?
      ensures marker == if r == Done then None else old(marker)
    {
      if !started || marker == None { return Failed; }
      marker := None;
      return Done;
    }

    /** Once it has started, the marker goes even if the old configuration cannot be restored. */
    method Revert(started: bool, restored: bool) returns (r: HelperResult)
      modifies this
      ensures r == if started && restored then Done else Failed
      ensures marker == if started then None else old(marker)
    {
      if !started { return Failed; }
      marker := None;
      return if restored then Done else Failed;
    }

    method Status(readable: bool) returns (st: Option<Option<Marker>>)
      ensures st == if readable then Some(marker) else None
    {
      return if readable then Some(marker) else None;
    }

    /** An orphaned marker goes; one whose revert timer is still armed stays. */
    method Reconcile(started: bool, armed: bool, restored: bool) returns (r: HelperResult)
      modifies this
      ensures r == if started && (old(marker) == None || armed || restored) then Done else Failed
      ensures marker == if started && !armed then None else old(marker)
    {
      if !started { return Failed; }
      if marker == None || armed { return Done; }
      marker := None;
      return if restored then Done else Failed;
    }
  }

  class Service {
    var pending: Option<PendingChange>
    var applying: bool
    var timers: multiset<Instant>     // the scheduled expiries, each by the instant it was made for
    const helper: Helper
    const revertTimeout: nat

    constructor (helper: Helper, revertTimeout: nat)
      ensures this.helper == helper && this.revertTimeout == revertTimeout
      ensures pending == None && !applying && timers == multiset{}
    {
      this.helper, this.revertTimeout := helper, revertTimeout;
      pending, applying, timers := None, false, multiset{};
    }

    /** Between calls nothing is being applied, and whatever is pending will be cleared by some timer. */
    ghost predicate Settled()
      reads this
    {
      !applying && (pending.Some? ==> pending.value.expiresAt in timers)
    }

    /** `valid` is the verdict of the configuration's own validation; `accepted` and `works` are the helper's. */
    method Apply(config: Config, valid: bool, reporting: int, scanning: int, now: Instant, helperNow: Instant,
        accepted: bool, works: bool)
      returns (err: Error, change: Option<PendingChange>)
      requires Settled()
      modifies this, helper
      ensures Settled()
      ensures err != NoPendingChange && (err == InvalidConfig <==> !valid)
      ensures err == SessionsActive <==> valid && old(pending) == None && (reporting > 0 || scanning > 0)
      ensures err == ChangeAlreadyPending <==>
        valid && (|| old(pending).Some?
                  || (reporting <= 0 && scanning <= 0 && accepted && InFlight(old(helper.marker), helperNow)))
      ensures valid && old(pending) == None && reporting <= 0 && scanning <= 0 && accepted ==>
        (err == ChangeAlreadyPending <==>
          && old(helper.marker).Some? && old(helper.marker).value.dated && 0 < old(helper.marker).value.expiresAt
          && helperNow - old(helper.marker).value.expiresAt <= 15)
      ensures err == NoError <==>
        && valid && old(pending) == None && reporting <= 0 && scanning <= 0
        && accepted && works && !InFlight(old(helper.marker), helperNow)
      ensures err == NoError ==>
        && change == Some(PendingChange(config, now + revertTimeout)) && pending == change
        && timers == old(timers) + multiset{now + revertTimeout}
        && helper.marker == Some(Marker(config, helperNow + revertTimeout, true))
      ensures err != NoError ==> change == None && pending == old(pending) && timers == old(timers)
      ensures err in {InvalidConfig, ChangeAlreadyPending, SessionsActive} ==> helper.marker == old(helper.marker)
      ensures err == ApplyFailed ==> helper.marker == if accepted then None else old(helper.marker)
    {
      if !valid { return InvalidConfig, None; }
      if !MayReserve(pending, applying) { return ChangeAlreadyPending, None; }
      applying := true;
      if reporting > 0 || scanning > 0 {
        applying := false;
        return SessionsActive, None;
      }
      var r := helper.Apply(config, revertTimeout, helperNow, accepted, works);
      if r != Done {
        applying := false;
        return if r == Refused then ChangeAlreadyPending else ApplyFailed, None;
      }
      change := Some(PendingChange(config, now + revertTimeout));
      pending := change;
      timers := timers + multiset{now + revertTimeout};
      applying := false;
      return NoError, change;
    }

    /**
     A change applied by one process and then an apply by the next one, which remembers nothing: the
     marker on disk refuses it throughout the first change's time, and no longer than the grace after.
     */
    static method ApplyAfterRestart(helper: Helper, timeout: nat, first: Config, now: Instant, firstNow: Instant,
        second: Config, later: Instant, laterNow: Instant, accepted: bool, works: bool)
      returns (err: Error, err2: Error)
      requires 0 < firstNow + timeout
      modifies helper
      ensures err == NoError && accepted && laterNow <= firstNow + timeout ==> err2 == ChangeAlreadyPending
      ensures err == NoError && laterNow > firstNow + timeout + 15 ==> err2 != ChangeAlreadyPending
      ensures err == NoError && err2 == ChangeAlreadyPending ==>
        helper.marker == Some(Marker(first, firstNow + timeout, true))
    {
      var before := new Service(helper, timeout);
      var change;
      err, change := before.Apply(first, true, 0, 0, now, firstNow, true, true);
      var after := new Service(helper, timeout);
      err2, change := after.Apply(second, true, 0, 0, later, laterNow, accepted, works);
    }

    /** An expiry: clears the change it was made for, if that is still the one pending. */
    method Expire(at: Instant)
      requires Settled() && at in timers
      modifies this
      ensures Settled() && timers == old(timers) - multiset{at}
      ensures pending == if old(pending).Some? && old(pending).value.expiresAt == at then None else old(pending)
    {
      timers := timers - multiset{at};
      if pending.Some? && MadeFor(at, pending.value) { pending := None; }
    }

    method Confirm(started: bool) returns (err: Error)
      requires Settled()
      modifies this, helper
      ensures Settled() && timers == old(timers)
      ensures err == if old(pending) == None then NoPendingChange
        else if started && old(helper.marker).Some? then NoError else ApplyFailed
      ensures err == NoError ==> pending == None && helper.marker == None
      ensures err != NoError ==> pending == old(pending) && helper.marker == old(helper.marker)
    {
      if pending == None { return NoPendingChange; }
      var r := helper.Confirm(started);
      if r != Done { return ApplyFailed; }
      pending := None;
      return NoError;
    }

    /** Whatever it returns, nothing is pending here afterwards, and nothing on disk once the helper has started. */
    method Revert(readable: bool, started: bool, restored: bool) returns (err: Error)
      requires Settled()
      modifies this, helper
      ensures Settled() && timers == old(timers)
      ensures pending == None && helper.marker == if started then None else old(helper.marker)
      ensures err == NoPendingChange <==> old(pending) == None && readable && old(helper.marker) == None
      ensures err != NoPendingChange ==> err == if started && restored then NoError else ApplyFailed
    {
      if pending == None {
        var st := helper.Status(readable);
        if st.Some? && st.value == None { return NoPendingChange; }
      }
      var r := helper.Revert(started, restored);
      pending := None;
      return if r == Done then NoError else ApplyFailed;
    }

    method Reconcile(started: bool, armed: bool, restored: bool)
      requires Settled()
      modifies this, helper
      ensures Settled()
      ensures pending == if started && (old(helper.marker) == None || armed || restored) then None else old(pending)
      ensures helper.marker == if started && !armed then None else old(helper.marker)
    {
      var r := helper.Reconcile(started, armed, restored);
      if r == Done { pending := None; }
    }

    /** Disk decides whether something is pending, memory fills in the details it knows. */
    method ReportPending(readable: bool) returns (change: Option<PendingChange>)
      ensures readable ==> (change.Some? <==> helper.marker.Some?)
      ensures change.Some? && pending.Some? ==> change == pending
      ensures readable && change.Some? && pending == None ==>
        change.value == PendingChange(helper.marker.value.config, helper.marker.value.expiresAt)
      ensures !readable ==> change == pending
    {
      var inMemory := pending;
      var st := helper.Status(readable);
      if st == None { return inMemory; }
      if st.value == None { return None; }
      if inMemory.Some? { return inMemory; }
      return Some(PendingChange(st.value.value.config, st.value.value.expiresAt));
    }

    /**
     The way out of a wedge: after a revert of any outcome a valid apply without sessions is refused
     as already pending if and only if the helper never started and its marker is still in flight.
     */
    method RevertUnblocksApply(readable: bool, started: bool, restored: bool, config: Config, now: Instant,
        helperNow: Instant,
        accepted: bool, works: bool)
      returns (reverted: Error, applied: Error)
      requires Settled()
      modifies this, helper
      ensures Settled()
      ensures applied == ChangeAlreadyPending <==> accepted && !started && InFlight(old(helper.marker), helperNow)
      ensures applied != ChangeAlreadyPending ==> applied == if accepted && works then NoError else ApplyFailed
    {
      reverted := Revert(readable, started, restored);
      var change;
      applied, change := Apply(config, true, 0, 0, now, helperNow, accepted, works);
    }
  }
}
