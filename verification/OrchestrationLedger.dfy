/**
 An independent judge of what one orchestration handle does with its resources. Everything the
 handle acquires, uses and releases is written to a log; a resource is named by the position of
 its acquisition in the log. Replaying the log keeps the books and stops at the first event that
 breaks a rule: a release or a use of something not held, a producer made without a running
 dispatcher or a loaded model, the dispatcher stopped or the model released under a producer.
 */
module OrchestrationLedger {
  import opened Common

  datatype Kind =
    | Bootstrap
    | Candidate
    | TempFile
    | NameList
    | NameCopy
    | Model
    | ReportClient(model: nat)
    | GooseSubscriber(model: nat)

  datatype Event = Acquire(kind: Kind) | Use(resource: nat) | Release(resource: nat) | IpcStart | IpcStop

  datatype Ledger = Ledger(live: map<nat, Kind>, ipcUp: bool)

  predicate IsProducer(kind: Kind) {
    kind.ReportClient? || kind.GooseSubscriber?
  }

  ghost predicate Allowed(l: Ledger, e: Event) {
    match e
    case Acquire(kind) => IsProducer(kind) ==> l.ipcUp && kind.model in l.live && l.live[kind.model] == Model
    case Use(r) => r in l.live
    case Release(r) =>
      && r in l.live
      && forall p :: p in l.live && IsProducer(l.live[p]) ==> l.live[p].model != r
    case IpcStart => !l.ipcUp
    case IpcStop => forall p :: p in l.live ==> !IsProducer(l.live[p])
  }

  function Record(l: Ledger, position: nat, e: Event): Ledger {
    match e
    case Acquire(kind) => l.(live := l.live[position := kind])
    case Use(_) => l
    case Release(r) => l.(live := l.live - {r})
    case IpcStart => l.(ipcUp := true)
    case IpcStop => l.(ipcUp := false)
  }

  /** The books after the whole log, or None if some event broke a rule. */
  ghost function Replay(log: seq<Event>): Option<Ledger> {
    if log == [] then Some(Ledger(map[], false))
    else
      var n := |log| - 1;
      match Replay(log[..n])
      case None => None
      case Some(l) => if Allowed(l, log[n]) then Some(Record(l, n, log[n])) else None
  }

  /** Any live report client or goose subscriber has its dispatcher running and its model loaded. */
  ghost predicate ProducersBacked(l: Ledger) {
    forall p :: p in l.live && IsProducer(l.live[p]) ==>
      l.ipcUp && l.live[p].model in l.live && l.live[p].model != p
  }

  function Releases(log: seq<Event>, r: nat): nat {
    if log == [] then 0
    else Releases(log[..|log| - 1], r) + if log[|log| - 1] == Release(r) then 1 else 0
  }

  lemma {:induction false} ReplayNamesAcquisitions(log: seq<Event>)
    requires Replay(log).Some?
    ensures forall r :: r in Replay(log).value.live ==> r < |log| && log[r] == Acquire(Replay(log).value.live[r])
  {
    if log != [] {
      ReplayNamesAcquisitions(log[..|log| - 1]);
    }
  }

  lemma RecordKeepsBacked(l: Ledger, position: nat, e: Event)
    requires ProducersBacked(l) && Allowed(l, e) && forall r :: r in l.live ==> r < position
    ensures ProducersBacked(Record(l, position, e))
  {
  }

  /** At every point of a log that replays, every producer is backed. */
  lemma {:induction false} ProducersAlwaysBacked(log: seq<Event>, k: nat)
    requires Replay(log).Some? && k <= |log|
    ensures Replay(log[..k]).Some? && ProducersBacked(Replay(log[..k]).value)
    decreases |log|, |log| - k
  {
    var n := |log| - 1;
    if k < |log| {
      assert log[..n][..k] == log[..k];
      ProducersAlwaysBacked(log[..n], k);
    } else {
      assert log[..k] == log;
      if log != [] {
        ProducersAlwaysBacked(log[..n], n);
        assert log[..n][..n] == log[..n];
        ReplayNamesAcquisitions(log[..n]);
        hide ProducersBacked, Allowed;
        RecordKeepsBacked(Replay(log[..n]).value, n, log[n]);
      }
    }
  }

  /** What was acquired is released exactly once, or is still held. */
  lemma {:induction false} ReleasedExactlyOnce(log: seq<Event>, r: nat)
    requires Replay(log).Some? && r < |log| && log[r].Acquire?
    ensures Releases(log, r) == if r in Replay(log).value.live then 0 else 1
  {
    var n := |log| - 1;
    if r < n {
      ReleasedExactlyOnce(log[..n], r);
    } else {
      NothingReleasedEarly(log[..n], r);
    }
  }

  /** What is used was acquired before and has not been released. */
  lemma {:induction false} UsedOnlyWhileHeld(log: seq<Event>, k: nat)
    requires Replay(log).Some? && k < |log| && log[k].Use?
    ensures log[k].resource < k && log[log[k].resource].Acquire? && Releases(log[..k], log[k].resource) == 0
    decreases |log|
  {
    var n := |log| - 1;
    if k < n {
      assert log[..n][..k] == log[..k];
      UsedOnlyWhileHeld(log[..n], k);
    } else {
      ReplayNamesAcquisitions(log[..n]);
      ReleasedExactlyOnce(log[..n], log[k].resource);
    }
  }

  /** The dispatcher stays up until it is stopped. */
  lemma {:induction false} UpUntilStopped(log: seq<Event>, i: nat)
    requires Replay(log).Some? && i < |log| && log[i] == IpcStart
    requires forall m :: i < m < |log| ==> log[m] != IpcStop
    ensures Replay(log).value.ipcUp
  {
    if i < |log| - 1 { UpUntilStopped(log[..|log| - 1], i); }
  }

  /** Between any two starts of the dispatcher it was stopped. */
  lemma {:induction false} StoppedBetweenStarts(log: seq<Event>, i: nat, j: nat)
    requires Replay(log).Some? && i < j < |log| && log[i] == IpcStart && log[j] == IpcStart
    ensures exists m :: i < m < j && log[m] == IpcStop
    decreases |log|
  {
    var n := |log| - 1;
    if j < n {
      StoppedBetweenStarts(log[..n], i, j);
      var m :| i < m < j && log[..n][m] == IpcStop;
      assert log[m] == IpcStop;
    } else if forall m :: i < m < n ==> log[m] != IpcStop {
      UpUntilStopped(log[..n], i);
      assert false;
    }
  }

  lemma {:induction false} NothingReleasedEarly(log: seq<Event>, r: nat)
    requires Replay(log).Some? && r >= |log|
    ensures Releases(log, r) == 0
  {
    if log != [] {
      NothingReleasedEarly(log[..|log| - 1], r);
      ReplayNamesAcquisitions(log[..|log| - 1]);
    }
  }
}
