/**
 The websocket-port pool as a value: an issue counter over the configured range plus a
 last-in-first-out free list. `held` and `lost` are the bookkeeping of the callers' side: the
 ports handed out and not given back, and the ports that a failed growth of the free list
 dropped for good.
 */
module PortPool {
  import opened Common

  type Port = uint16

  datatype Pool = Pool(first: Port, last: Port, next: nat, free: seq<Port>, held: set<Port>, lost: set<Port>)

  function Fresh(first: Port, last: Port): Pool {
    Pool(first, last, first as int, [], {}, {})
  }

  predicate Exhausted(p: Pool) {
    p.free == [] && p.next > p.last as int
  }

  /** Free list first, then the next port never issued. */
  function Take(p: Pool): (r: (Pool, Port))
    requires !Exhausted(p)
  {
    if p.free != [] then
      var port := p.free[|p.free| - 1];
      (p.(free := p.free[..|p.free| - 1], held := p.held + {port}), port)
    else
      var port := p.next as Port;
      (p.(next := p.next + 1, held := p.held + {port}), port)
  }

  /** `kept` is false when the free list had to grow and could not. */
  function Give(p: Pool, port: Port, kept: bool): Pool {
    if kept then p.(free := p.free + [port], held := p.held - {port})
    else p.(held := p.held - {port}, lost := p.lost + {port})
  }

  ghost predicate Issued(p: Pool, port: Port) {
    p.first as int <= port as int < p.next
  }

  /** The issued ports are split, without overlap, into free, held and lost. */
  ghost predicate WellFormed(p: Pool) {
    && p.first as int <= p.next <= p.last as int + 1
    && NoDuplicates(p.free)
    && (forall port: Port :: port in p.free || port in p.held || port in p.lost <==> Issued(p, port))
    && (forall port: Port :: port in p.free ==> port !in p.held && port !in p.lost)
    && p.held !! p.lost
    && |p.free| + |p.held| + |p.lost| == p.next - p.first as int
  }

  lemma TakeKeepsWellFormed(p: Pool)
    requires WellFormed(p) && !Exhausted(p)
    ensures WellFormed(Take(p).0)
    ensures Take(p).1 !in p.held && Take(p).1 !in p.lost && p.first <= Take(p).1 <= p.last
  {
    var (q, port) := Take(p);
    if p.free != [] {
      var k := |p.free| - 1;
      assert p.free == q.free + [port];
      assert port in p.free;
    } else {
      assert forall other: Port :: Issued(q, other) <==> Issued(p, other) || other == port;
    }
  }

  lemma GiveKeepsWellFormed(p: Pool, port: Port, kept: bool)
    requires WellFormed(p) && port in p.held
    ensures WellFormed(Give(p, port, kept))
  {
    var q := Give(p, port, kept);
    assert forall other: Port :: other in q.free <==> other in p.free || (kept && other == port);
  }

  /** The port given back last is the first to be handed out again, and then all is as before. */
  lemma GivenBackIsTakenNext(p: Pool, port: Port)
    requires port in p.held
    ensures !Exhausted(Give(p, port, true)) && Take(Give(p, port, true)) == (p, port)
  {
    assert (p.free + [port])[..|p.free|] == p.free;
    assert p.held - {port} + {port} == p.held;
  }

  /** PORT_EXHAUSTED is the answer exactly when every port of the range is held or was lost. */
  lemma ExhaustedIffWholeRangeTaken(p: Pool)
    requires WellFormed(p)
    ensures Exhausted(p) <==> |p.held| + |p.lost| == p.last as int - p.first as int + 1
    ensures Exhausted(p) <==> forall port: Port :: p.first <= port <= p.last ==> port in p.held || port in p.lost
  {
    if p.free != [] {
      assert p.free[0] in p.free;
    } else if p.next <= p.last as int {
      assert !Issued(p, p.next as Port);
    }
  }

  // ----- every history of the pool

  datatype Op = TakePort | GivePort(port: Port, kept: bool)

  function Apply(p: Pool, op: Op): Pool
    requires WellFormed(p)
  {
    match op
    case TakePort => if Exhausted(p) then p else Take(p).0
    case GivePort(port, kept) => Give(p, port, kept)
  }

  /** A history in which callers only give back ports they hold. */
  ghost predicate Legal(first: Port, last: Port, ops: seq<Op>) {
    ops != [] ==>
      && Legal(first, last, ops[..|ops| - 1])
      && (ops[|ops| - 1].GivePort? ==> ops[|ops| - 1].port in After(first, last, ops[..|ops| - 1]).held)
  }

  ghost function After(first: Port, last: Port, ops: seq<Op>): Pool {
    if ops == [] then Fresh(first, last)
    else
      var p := After(first, last, ops[..|ops| - 1]);
      if WellFormed(p) then Apply(p, ops[|ops| - 1]) else p
  }

  ghost function Usage(first: Port, last: Port, ops: seq<Op>): nat {
    |After(first, last, ops).held| + |After(first, last, ops).lost|
  }

  lemma ApplyKeepsWellFormed(p: Pool, op: Op)
    requires WellFormed(p) && (op.GivePort? ==> op.port in p.held)
    ensures var q := Apply(p, op);
      WellFormed(q) && q.first == p.first && q.last == p.last && p.next <= q.next
      && (p.next != q.next ==> |q.held| + |q.lost| == q.next - q.first as int)
  {
    match op {
      case TakePort => if !Exhausted(p) { TakeKeepsWellFormed(p); }
      case GivePort(port, kept) => GiveKeepsWellFormed(p, port, kept);
    }
  }

  lemma {:induction false} LegalHistoryIsWellFormed(first: Port, last: Port, ops: seq<Op>)
    requires first <= last && Legal(first, last, ops)
    ensures var p := After(first, last, ops); WellFormed(p) && p.first == first && p.last == last
  {
    if ops != [] {
      LegalHistoryIsWellFormed(first, last, ops[..|ops| - 1]);
      ApplyKeepsWellFormed(After(first, last, ops[..|ops| - 1]), ops[|ops| - 1]);
    }
  }

  /** The largest usage at any moment of the history. */
  ghost function PeakUsage(first: Port, last: Port, ops: seq<Op>): nat {
    if ops == [] then 0
    else
      var before, now := PeakUsage(first, last, ops[..|ops| - 1]), Usage(first, last, ops);
      if now > before then now else before
  }

  /**
   The issue counter never runs ahead of need: after any history it stands exactly at the
   largest number of ports that were ever in use at the same time.
   */
  lemma {:induction false} IssueCounterIsPeakUsage(first: Port, last: Port, ops: seq<Op>)
    requires first <= last && Legal(first, last, ops)
    ensures After(first, last, ops).next - first as int == PeakUsage(first, last, ops)
  {
    if ops != [] {
      var before := ops[..|ops| - 1];
      IssueCounterIsPeakUsage(first, last, before);
      LegalHistoryIsWellFormed(first, last, before);
      ApplyKeepsWellFormed(After(first, last, before), ops[|ops| - 1]);
    }
  }
}
