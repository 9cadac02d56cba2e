/** What holds of the control channel in every reachable state, whatever the interleaving. */
module ControlSafety {
  import opened Common
  import opened ControlLinks
  import opened ControlProtocol

  lemma StepKeepsInv(s: State, step: Step)
    requires Inv(s) && Enabled(s, step)
    ensures Inv(Next(s, step))
  {
    hide PendingMatched, BoxesSound, CallsSound, ClaimsSound, ConnectionsSound, Next;
    KeepsPendingMatched(s, step);
    KeepsBoxesSound(s, step);
    KeepsCallsSound(s, step);
    KeepsClaimsSound(s, step);
    KeepsConnectionsSound(s, step);
  }

  ghost predicate Legal(s: State, steps: seq<Step>)
    decreases steps, 0
  {
    steps != [] ==>
      Legal(s, steps[..|steps| - 1]) && Enabled(After(s, steps[..|steps| - 1]), steps[|steps| - 1])
  }

  ghost function After(s: State, steps: seq<Step>): State
    requires Legal(s, steps)
    decreases steps, 1
  {
    if steps == [] then s else Next(After(s, steps[..|steps| - 1]), steps[|steps| - 1])
  }

  ghost predicate Reachable(s: State) {
    exists threads: set<Tid>, steps: seq<Step> :: Legal(Initial(threads), steps) && s == After(Initial(threads), steps)
  }

  lemma {:induction false} RunKeepsInv(s: State, steps: seq<Step>)
    requires Inv(s) && Legal(s, steps)
    ensures Inv(After(s, steps))
  {
    hide Inv;
    if steps != [] {
      RunKeepsInv(s, steps[..|steps| - 1]);
      StepKeepsInv(After(s, steps[..|steps| - 1]), steps[|steps| - 1]);
    }
  }

  lemma ReachableIsInv(s: State)
    requires Reachable(s)
    ensures Inv(s)
  {
    hide Inv;
    var threads: set<Tid>, steps: seq<Step> :| Legal(Initial(threads), steps) && s == After(Initial(threads), steps);
    InitialInv(threads);
    RunKeepsInv(Initial(threads), steps);
  }

  // ----- answers

  /** `r` was read on the connection this channel's request went out on, and carries its id. */
  ghost predicate OwnAnswer(s: State, ch: Chan, r: Response) {
    ch in s.info && r.requestId == s.info[ch].id && (s.info[ch].conn, r) in s.heard
  }

  /**
   A call that returns a result, or an error the daemon reported, returns what its own answer
   says; anything else is the synthetic unreachable error, or its own failure to encode.
   */
  lemma CallReturnsItsOwnAnswer(s: State, t: Tid)
    requires Reachable(s) && t in s.calls && s.calls[t].Leaving?
    ensures s.calls[t].outcome == Failed(Unreachable) || s.calls[t].outcome == NotMarshalled
      || exists r :: OwnAnswer(s, s.calls[t].ch, r) && s.calls[t].outcome == OutcomeOf(r)
  {
    hide Reachable;
    ReachableIsInv(s);
    assert OutcomeSound(s, s.calls[t].ch, s.calls[t].outcome, s.calls[t].answer);
    match s.calls[t].answer
    case None =>
    case Some(r) => assert r == Disconnected || OwnAnswer(s, s.calls[t].ch, r);
  }

  /** What a call makes of the message it takes out of its channel. */
  lemma MessageDecidesOutcome(s: State, t: Tid)
    requires Enabled(s, Receive(t))
    ensures var r, pc := s.boxes[s.calls[t].ch][0], Next(s, Receive(t)).calls[t];
      && pc.Leaving? && pc.answer == Some(r)
      && (r.success ==> pc.outcome == Value(r.result))
      && (!r.success && r.error.Some? ==> pc.outcome == Failed(r.error.value))
      && (!r.success && r.error == None ==> pc.outcome == Failed(Unreachable))
  {
  }

  /**
   A call returns a value if and only if it took a successful answer of its own, and it is that
   answer's result; likewise for an error the daemon reported, and its code.
   */
  lemma ValueIffOwnSuccess(s: State, t: Tid)
    requires Reachable(s) && t in s.calls && s.calls[t].Leaving?
    ensures var ch, outcome, answer := s.calls[t].ch, s.calls[t].outcome, s.calls[t].answer;
      && (outcome.Value? <==> answer.Some? && OwnAnswer(s, ch, answer.value) && answer.value.success)
      && (outcome.Value? ==> outcome.result == answer.value.result)
      && (outcome.Failed? && outcome.error.Reported? <==>
            answer.Some? && OwnAnswer(s, ch, answer.value) && !answer.value.success
            && answer.value.error.Some? && answer.value.error.value.Reported?)
      && (outcome.Failed? && outcome.error.Reported? ==> outcome.error == answer.value.error.value)
      && (answer == Some(Disconnected) ==> outcome == Failed(Unreachable))
      && (outcome == NotMarshalled ==> answer == None)
  {
    hide Reachable;
    ReachableIsInv(s);
    assert OutcomeSound(s, s.calls[t].ch, s.calls[t].outcome, s.calls[t].answer);
  }

  /** A reply channel gets at most one message in its whole life, so no send to one ever blocks or is dropped. */
  lemma NoSendBlocks(s: State)
    requires Reachable(s)
    ensures forall ch :: ch in s.info ==> s.info[ch].sends <= 1
    ensures forall c :: c in s.readers && s.readers[c].Holding? ==>
      Enabled(s, Deliver(c)) && s.boxes[s.readers[c].ch] == []
    ensures forall ch :: ch in s.link.pending.Values ==> ch in s.boxes && s.boxes[ch] == []
  {
    hide Reachable;
    ReachableIsInv(s);
    assert BoxesSound(s);
    hide CallsSound, ConnectionsSound;
    forall ch | ch in s.info ensures BoxSound(s, ch) && s.info[ch].sends <= 1 {
    }
    forall c | c in s.readers && s.readers[c].Holding?
      ensures Enabled(s, Deliver(c)) && s.boxes[s.readers[c].ch] == []
    {
      HeldChannel(s, c);
      assert BoxSound(s, s.readers[c].ch);
    }
    ToldKeepsClaims(s);
  }

  // ----- reconnects

  /** Dialling is given up after the fifth failure, and not before; then the next restart is awaited. */
  lemma FiveFailuresEndDialing(s: State)
    requires Reachable(s) && s.run.Dialing?
    ensures s.run.tries < 5
    ensures Next(s, DialFails).run == if s.run.tries == 4 then AwaitRestart else Dialing(s.run.tries + 1)
  {
    hide Reachable;
    ReachableIsInv(s);
    assert ConnectionsSound(s);
  }

  lemma OneReadLoopAtATime(s: State, c: Conn, d: Conn)
    requires Reachable(s) && c in s.readers && d in s.readers && !s.readers[c].Gone? && !s.readers[d].Gone?
    ensures c == d
  {
    hide Reachable;
    ReachableIsInv(s);
    assert ConnectionsSound(s);
  }

  ghost predicate HasMessage(s: State, ch: Chan) {
    ch in s.boxes && s.boxes[ch] != []
  }

  /** A read loop has this channel's answer and is about to send it. */
  ghost predicate InHand(s: State, ch: Chan) {
    exists c :: c in s.readers && s.readers[c].Holding? && s.readers[c].ch == ch
  }

  /** In the map, and the connection it was made on is still being read. */
  ghost predicate Awaited(s: State, ch: Chan) {
    && ch in s.info && s.info[ch].id in s.link.pending && s.link.pending[s.info[ch].id] == ch
    && s.link.conn == Some(s.info[ch].conn) && Open(s)
  }

  /** No waiting call is forgotten. */
  lemma NoCallIsStranded(s: State, t: Tid)
    requires Reachable(s) && t in s.calls && (s.calls[t].Registered? || s.calls[t].Waiting?)
    ensures HasMessage(s, s.calls[t].ch) || InHand(s, s.calls[t].ch) || Awaited(s, s.calls[t].ch)
  {
    hide Reachable;
    ReachableIsInv(s);
    var ch := s.calls[t].ch;
    assert StillHopeful(s, ch);
    match s.info[ch].fate
    case InMap => InMapIsAwaited(s, ch);
    case Claimed(c) => assert s.readers[c].Holding? && s.readers[c].ch == ch;
    case Answered =>
  }

  lemma InMapIsAwaited(s: State, ch: Chan)
    requires PendingMatched(s) && ConnectionsSound(s) && ch in s.info && s.info[ch].fate == InMap
    ensures Awaited(s, ch)
  {
  }

  /** When the read loop of its connection is through its clean-up, every call on it has something to read. */
  lemma LostConnectionFailsItsCalls(s: State, t: Tid)
    requires Reachable(s) && t in s.calls && (s.calls[t].Registered? || s.calls[t].Waiting?)
    requires s.calls[t].ch in s.info && s.info[s.calls[t].ch].conn in s.readers
    requires !Alive(s.readers[s.info[s.calls[t].ch].conn])
    ensures HasMessage(s, s.calls[t].ch)
  {
    hide Reachable;
    NoCallIsStranded(s, t);
    ReachableIsInv(s);
    var ch := s.calls[t].ch;
    assert ConnectionsSound(s);
  }

  /** A reconnect replaces an empty map, after the last read loop is over; every call still waiting has been told. */
  lemma ReconnectDropsNothing(s: State)
    requires Reachable(s) && Enabled(s, InstallConn)
    ensures s.link.pending == map[] && !s.link.connected && forall c :: c in s.readers ==> s.readers[c].Gone?
    ensures forall t :: t in s.calls && (s.calls[t].Registered? || s.calls[t].Waiting?) ==> HasMessage(s, s.calls[t].ch)
  {
    hide Reachable;
    ReachableIsInv(s);
    hide PendingMatched, BoxesSound, CallsSound, ClaimsSound;
    NothingPendingWhenDialed(s);
    hide ConnectionsSound, Open;
    forall t | t in s.calls && (s.calls[t].Registered? || s.calls[t].Waiting?) ensures HasMessage(s, s.calls[t].ch) {
      NoCallIsStranded(s, t);
    }
  }
}
