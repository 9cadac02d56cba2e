/**
 The control-channel client as it is: a few fields under a mutex, the reply channels, and the
 sections that the callers, the read loops and the run loop enter. The ghost field `at` is the state
 of the whole program; every method is proved to be one step of ControlProtocol, taken from a
 reachable state, and so inherits everything that ControlSafety says.
 */
module ControlClients {
  import opened Common
  import opened ControlLinks
  import opened ControlProtocol
  import opened ControlSafety

  lemma ReachableNext(s: State, step: Step)
    requires Reachable(s) && Enabled(s, step)
    ensures Reachable(Next(s, step))
  {
    var threads: set<Tid>, steps: seq<Step> :| Legal(Initial(threads), steps) && s == After(Initial(threads), steps);
    hide Enabled, Next;
    assert (steps + [step])[..|steps|] == steps;
    assert Legal(Initial(threads), steps + [step]);
  }

  lemma InitialIsReachable(threads: set<Tid>)
    ensures Reachable(Initial(threads))
  {
    assert Legal(Initial(threads), []) && After(Initial(threads), []) == Initial(threads);
  }

  /** The steps that no field of the client sees: writes, timeouts, dials, and loops starting and ending. */
  predicate OutsideTheClient(s: State, step: Step) {
    match step
    case MarshalFails(_) => true
    case WriteFails(_) => true
    case Write(_) => true
    case TimeOut(_) => true
    case ReadFails(_) => true
    case Signal(_) => true
    case Restart => true
    case DialFails => true
    case DialSucceeds(_) => true
    case Spawn => true
    case Notice => true
    case Cancel => s.run.AwaitRestart?
    case _ => false
  }

  class Client {
    var conn: Option<Conn>
    var connected: bool
    var pending: map<Id, Chan>
    var boxes: map<Chan, seq<Response>>
    ghost var at: State

    ghost function Memory(): Link
      reads this
    {
      Link(conn, connected, pending)
    }

    /** The fields are those of a program state that can be reached. */
    ghost predicate Valid()
      reads this
    {
      Reachable(at) && at.link == Memory() && at.boxes == boxes
    }

    constructor (ghost threads: set<Tid>)
      ensures Valid() && at == Initial(threads)
    {
      InitialIsReachable(threads);
      conn, connected, pending, boxes := None, false, map[], map[];
      at := Initial(threads);
    }

    /** With the other methods this gives every step, so their sequences are the runs of the protocol. */
    ghost method Proceed(step: Step)
      requires Valid() && Enabled(at, step) && OutsideTheClient(at, step)
      modifies this`at
      ensures Valid() && at == Next(old(at), step)
    {
      hide Reachable;
      ReachableNext(at, step);
      at := Next(at, step);
    }

    // ----- what a caller does

    /** Refused exactly when not connected; else the call is registered and waits on an open connection. */
    method BeginCall(ghost t: Tid, id: Id, ch: Chan) returns (on: Option<Conn>)
      requires Valid() && Enabled(at, Begin(t, id, ch))
      modifies this
      ensures Valid() && at == Next(old(at), Begin(t, id, ch))
      ensures on == None <==> !old(connected)
      ensures on == None ==> at == old(at)
      ensures on.Some? ==> at.calls[t] == Registered(ch) && on == Some(at.info[ch].conn)
      ensures on.Some? ==> Awaited(at, ch) && boxes[ch] == []
    {
      hide Reachable, Open;
      ConnectedIsOpen(at);
      ReachableNext(at, Begin(t, id, ch));
      at := Next(at, Begin(t, id, ch));
      if !connected { return None; }
      on := conn;
      boxes := boxes[ch := []];
      pending := pending[id := ch];
      ConnectedIsOpen(at);
    }

    /** What the message says: the call's own answer, or that the connection is lost. */
    method Receive(ghost t: Tid, ch: Chan) returns (outcome: Outcome)
      requires Valid() && Enabled(at, ControlProtocol.Receive(t)) && at.calls[t].ch == ch
      modifies this
      ensures Valid() && at == Next(old(at), ControlProtocol.Receive(t))
      ensures at.calls[t].Leaving? && at.calls[t].outcome == outcome
      ensures old(boxes)[ch][0].success ==> outcome == Value(old(boxes)[ch][0].result)
      ensures !old(boxes)[ch][0].success && old(boxes)[ch][0].error.Some? ==>
        outcome == Failed(old(boxes)[ch][0].error.value)
      ensures !old(boxes)[ch][0].success && old(boxes)[ch][0].error == None ==> outcome == Failed(Unreachable)
      ensures outcome == Failed(Unreachable) || exists r :: OwnAnswer(at, ch, r) && outcome == OutcomeOf(r)
      ensures boxes[ch] == []
    {
      hide Reachable, OwnAnswer;
      BoxHoldsOne(at, ch);
      ReachableNext(at, ControlProtocol.Receive(t));
      at := Next(at, ControlProtocol.Receive(t));
      CallReturnsItsOwnAnswer(at, t);
      var r := boxes[ch][0];
      boxes := boxes[ch := boxes[ch][1..]];
      if !r.success {
        if r.error.Some? { return Failed(r.error.value); }
        return Failed(Unreachable);
      }
      return Value(r.result);
    }

    /** The call leaves the map, and takes nobody else's entry with it. */
    method EndCall(ghost t: Tid, id: Id)
      requires Valid() && Enabled(at, End(t)) && id == at.info[at.calls[t].ch].id
      modifies this
      ensures Valid() && at == Next(old(at), End(t))
      ensures forall u :: u in at.calls && u != t && (at.calls[u].Registered? || at.calls[u].Waiting?) ==>
        HasMessage(at, at.calls[u].ch) || InHand(at, at.calls[u].ch) || Awaited(at, at.calls[u].ch)
    {
      hide Reachable, HasMessage, InHand, Awaited;
      ReachableNext(at, End(t));
      at := Next(at, End(t));
      pending := pending - {id};
      NobodyIsStranded(at);
    }

    // ----- what the run loop does

    /** Nothing is dropped: the map was empty, and whoever still waits has its message. */
    method Connect(c: Conn)
      requires Valid() && at.run == Dialed(c)
      modifies this
      ensures Valid() && at == Next(old(at), InstallConn)
      ensures old(pending) == map[] && !old(connected) && connected && conn == Some(c) && boxes == old(boxes)
      ensures forall u :: u in at.calls && (at.calls[u].Registered? || at.calls[u].Waiting?) ==>
        HasMessage(at, at.calls[u].ch)
    {
      hide Reachable, HasMessage;
      ReconnectDropsNothing(at);
      ghost var before := at;
      ReachableNext(at, InstallConn);
      at := Next(at, InstallConn);
      conn, connected := Some(c), true;
      pending := map[];
      forall u | u in at.calls && (at.calls[u].Registered? || at.calls[u].Waiting?)
        ensures HasMessage(at, at.calls[u].ch)
      {
        assert HasMessage(before, before.calls[u].ch);
        SameBoxesTellTheSame(before, at, at.calls[u].ch);
      }
    }

    /** Nobody begins a call any more; those that wait are the read loop's to tell. */
    method CloseConn() returns (open: Option<Conn>)
      requires Valid() && at.run.Watching?
      modifies this
      ensures Valid() && at == Next(old(at), Cancel)
      ensures !connected && open == Some(old(at).run.conn) && pending == old(pending) && boxes == old(boxes)
      ensures forall u :: u in at.calls && (at.calls[u].Registered? || at.calls[u].Waiting?) ==>
        HasMessage(at, at.calls[u].ch) || InHand(at, at.calls[u].ch) || Awaited(at, at.calls[u].ch)
    {
      hide Reachable, HasMessage, InHand, Awaited;
      WatchedIsPresent(at);
      ReachableNext(at, Cancel);
      at := Next(at, Cancel);
      open := conn;
      connected := false;
      NobodyIsStranded(at);
    }

    // ----- what a read loop does

    /** The channel found is that of the call with this id, made on this connection, and it is empty. */
    method ClaimAnswer(ghost c: Conn, r: Response) returns (ch: Option<Chan>)
      requires Valid() && Enabled(at, Hear(c, r))
      modifies this
      ensures Valid() && at == Next(old(at), Hear(c, r))
      ensures ch == None <==> r.requestId !in old(pending)
      ensures ch.Some? ==> at.readers[c] == Holding(ch.value, r)
      ensures ch.Some? ==> OwnAnswer(at, ch.value, r) && at.info[ch.value].conn == c
      ensures ch.Some? ==> ch.value in boxes && boxes[ch.value] == []
    {
      hide Reachable;
      PendingEntriesAreCalls(at);
      ReachableNext(at, Hear(c, r));
      at := Next(at, Hear(c, r));
      HeldBoxIsEmpty(at, c);
      if r.requestId in pending {
        ch := Some(pending[r.requestId]);
        pending := pending - {r.requestId};
      } else {
        ch := None;
      }
    }

    /** The send never blocks: the channel has room, and this is its only message. */
    method Deliver(ghost c: Conn, ch: Chan, r: Response)
      requires Valid() && c in at.readers && at.readers[c] == Holding(ch, r)
      modifies this
      ensures Enabled(old(at), ControlProtocol.Deliver(c)) && Valid() && at == Next(old(at), ControlProtocol.Deliver(c))
      ensures ch in old(boxes) && old(boxes)[ch] == [] && boxes == old(boxes)[ch := [r]]
    {
      hide Reachable;
      HeldBoxIsEmpty(at, c);
      ReachableNext(at, ControlProtocol.Deliver(c));
      at := Next(at, ControlProtocol.Deliver(c));
      assert boxes[ch] + [r] == [r];
      boxes := boxes[ch := boxes[ch] + [r]];
    }

    /** The read loop's last section, entered when the connection is lost: every call on it has something to read. */
    method FailPending(ghost c: Conn)
      requires Valid() && Enabled(at, CleanUp(c))
      modifies this
      ensures Valid() && at == Next(old(at), CleanUp(c))
      ensures !connected && pending == map[]
      ensures forall u :: u in at.calls && (at.calls[u].Registered? || at.calls[u].Waiting?) ==>
        at.calls[u].ch in at.info && (at.info[at.calls[u].ch].conn == c ==> HasMessage(at, at.calls[u].ch))
    {
      hide Reachable, HasMessage;
      ReachableNext(at, CleanUp(c));
      PendingEntriesAreCalls(at);
      ghost var before := at;
      at := Next(at, CleanUp(c));
      TellPending();
      forall u | u in at.calls && (at.calls[u].Registered? || at.calls[u].Waiting?)
        ensures at.calls[u].ch in at.info && (at.info[at.calls[u].ch].conn == c ==> HasMessage(at, at.calls[u].ch))
      {
        WaitingIsKnown(at, u);
        if at.info[at.calls[u].ch].conn == c { LostConnectionFailsItsCalls(at, u); }
      }
    }

    /** The loop of that section. */
    method TellPending()
      requires forall id :: id in pending ==> pending[id] in boxes
      modifies this`connected, this`pending, this`boxes
      ensures (Memory(), boxes) == FailAll(old(Memory()), old(boxes))
    {
      hide TrySend, TellAll;
      connected := false;
      ghost var was, before := pending, boxes;
      ghost var told: set<Chan> := {};
      assert boxes == TellAll(before, {}) by { TellNobody(before); }
      while pending != map[]
        invariant was.Values == told + pending.Values && boxes == TellAll(before, told)
        invariant forall id :: id in pending ==> pending[id] in before
        invariant boxes.Keys == before.Keys
        invariant !connected && conn == old(conn)
        decreases pending
      {
        var id :| id in pending;
        var ch := pending[id];
        ValuesWithout(pending, id);
        TellOneMore(before, told, ch);
        pending := pending - {id};
        boxes := boxes[ch := TrySend(boxes[ch], Disconnected)];
        told := told + {ch};
      }
      assert told == was.Values;
    }
  }

  // ----- what these methods need to know of a reachable state

  lemma ConnectedIsOpen(s: State)
    requires Reachable(s)
    ensures s.link.connected ==> s.link.conn.Some? && Open(s)
    ensures s.boxes.Keys == s.info.Keys
  {
    hide Reachable;
    ReachableIsInv(s);
  }

  lemma WatchedIsPresent(s: State)
    requires Reachable(s) && s.run.Watching?
    ensures s.link.conn == Some(s.run.conn)
  {
    hide Reachable;
    ReachableIsInv(s);
  }

  lemma BoxHoldsOne(s: State, ch: Chan)
    requires Reachable(s) && ch in s.boxes
    ensures |s.boxes[ch]| <= 1
  {
    hide Reachable;
    ReachableIsInv(s);
    assert BoxSound(s, ch);
  }

  lemma PendingEntriesAreCalls(s: State)
    requires Reachable(s)
    ensures forall id :: id in s.link.pending ==> s.link.pending[id] in s.info && s.link.pending[id] in s.boxes
  {
    hide Reachable;
    ReachableIsInv(s);
    BoxesCoverInfo(s);
  }

  lemma HeldBoxIsEmpty(s: State, c: Conn)
    requires Reachable(s)
    ensures c in s.readers && s.readers[c].Holding? ==>
      var ch := s.readers[c].ch;
      Enabled(s, Deliver(c)) && s.boxes[ch] == [] && OwnAnswer(s, ch, s.readers[c].r) && s.info[ch].conn == c
  {
    hide Reachable;
    NoSendBlocks(s);
    ReachableIsInv(s);
    hide PendingMatched, BoxesSound, CallsSound, ConnectionsSound;
  }

  lemma NobodyIsStranded(s: State)
    requires Reachable(s)
    ensures forall u :: u in s.calls && (s.calls[u].Registered? || s.calls[u].Waiting?) ==>
      HasMessage(s, s.calls[u].ch) || InHand(s, s.calls[u].ch) || Awaited(s, s.calls[u].ch)
  {
    hide Reachable, HasMessage, InHand, Awaited;
    forall u | u in s.calls && (s.calls[u].Registered? || s.calls[u].Waiting?)
      ensures HasMessage(s, s.calls[u].ch) || InHand(s, s.calls[u].ch) || Awaited(s, s.calls[u].ch)
    {
      NoCallIsStranded(s, u);
    }
  }

  lemma WaitingIsKnown(s: State, u: Tid)
    requires Reachable(s) && u in s.calls && (s.calls[u].Registered? || s.calls[u].Waiting?)
    ensures s.calls[u].ch in s.info
  {
    hide Reachable;
    ReachableIsInv(s);
    assert StillHopeful(s, s.calls[u].ch);
  }

  lemma SameBoxesTellTheSame(s: State, n: State, ch: Chan)
    requires n.boxes == s.boxes && HasMessage(s, ch)
    ensures HasMessage(n, ch)
  {
  }
}
