/**
 The stream hub: one upstream, any number of subscriber channels, and the one retained frame. One
 call at a time here; the interleavings, with the sends as steps of their own, are in HubProtocol.
 */
module Hubs {
  import opened Common

  /** `status` is the verdict of looking at the frame's own type field. */
  datatype Frame = Frame(data: string, status: bool)

  /** A send that does not wait: into a buffer with room, or not at all. */
  function Offered(buffer: seq<Frame>, capacity: nat, f: Frame): seq<Frame> {
    if |buffer| < capacity then buffer + [f] else buffer
  }

  /** The frame a newcomer is shown: the last status frame relayed. */
  function LastStatus(log: seq<Frame>): Option<Frame> {
    if log == [] then None
    else if log[|log| - 1].status then Some(log[|log| - 1])
    else LastStatus(log[..|log| - 1])
  }

  class Channel {
    const capacity: nat
    var buffer: seq<Frame>
    var closed: bool

    constructor (capacity: nat)
      ensures this.capacity == capacity && buffer == [] && !closed
    {
      this.capacity, buffer, closed := capacity, [], false;
    }

    /** Sending on a closed channel would be a panic. */
    method TrySend(f: Frame) returns (sent: bool)
      requires !closed
      modifies this`buffer
      ensures buffer == Offered(old(buffer), capacity, f) && (sent <==> |old(buffer)| < capacity)
    {
      sent := |buffer| < capacity;
      if sent { buffer := buffer + [f]; }
    }

    /** And so would closing it again. */
    method Close()
      requires !closed
      modifies this`closed
      ensures closed
    {
      closed := true;
    }
  }

  class Hub {
    const bufferSize: nat
    var subs: set<Channel>
    var retained: Option<Frame>
    ghost var log: seq<Frame>     // every frame relayed

    ghost predicate Valid()
      reads this, subs
    {
      && (forall ch :: ch in subs ==> !ch.closed && ch.capacity == bufferSize)
      && retained == LastStatus(log)
    }

    constructor (bufferSize: nat)
      ensures Valid() && this.bufferSize == bufferSize && subs == {} && log == []
    {
      this.bufferSize, subs, retained, log := bufferSize, {}, None, [];
    }

    /** A newcomer starts with the last status frame, if there is one and its buffer takes any. */
    method Subscribe() returns (ch: Channel)
      requires Valid()
      modifies this
      ensures Valid() && fresh(ch) && subs == old(subs) + {ch} && log == old(log)
      ensures LastStatus(log) == None ==> ch.buffer == []
      ensures LastStatus(log).Some? ==> ch.buffer == Offered([], bufferSize, LastStatus(log).value)
    {
      ch := new Channel(bufferSize);
      subs := subs + {ch};
      if retained.Some? { var sent := ch.TrySend(retained.value); }
    }

    /** Closes the channel unless the hub has already done so. */
    method Cancel(ch: Channel)
      requires Valid() && (ch !in subs ==> ch.closed)
      modifies this`subs, ch`closed
      ensures Valid() && ch.closed && subs == old(subs) - {ch}
    {
      if ch in subs {
        subs := subs - {ch};
        ch.Close();
      }
    }

    method Close()
      requires Valid()
      modifies this`subs, subs
      ensures Valid() && subs == {}
      ensures forall ch :: ch in old(subs) ==> ch.closed && ch.buffer == old(ch.buffer)
    {
      var todo := subs;
      while todo != {}
        invariant todo <= old(subs) && subs == old(subs) && retained == LastStatus(log)
        invariant forall ch :: ch in old(subs) ==> ch.closed == (ch !in todo) && ch.buffer == old(ch.buffer)
        decreases todo
      {
        var ch :| ch in todo;
        ch.Close();
        todo := todo - {ch};
      }
      subs := {};
    }

    /** Every subscriber with room gets the frame, in whatever order they come up; the others miss it. */
    method Broadcast(f: Frame)
      requires Valid()
      modifies this`retained, this`log, subs
      ensures Valid() && log == old(log) + [f]
      ensures forall ch :: ch in subs ==> ch.buffer == Offered(old(ch.buffer), bufferSize, f)
    {
      log := log + [f];
      assert log[..|log| - 1] == old(log);
      if f.status { retained := Some(f); }
      var todo := subs;
      while todo != {}
        invariant todo <= subs && Valid() && log == old(log) + [f]
        invariant forall ch :: ch in subs ==>
          ch.buffer == if ch in todo then old(ch.buffer) else Offered(old(ch.buffer), bufferSize, f)
        decreases todo
      {
        var ch :| ch in todo;
        var sent := ch.TrySend(f);
        todo := todo - {ch};
      }
    }
  }
}
