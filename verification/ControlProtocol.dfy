/**
 The control channel as its threads run it: any number of callers, the read loop of each
 connection, and the run loop that dials again whenever the daemon restarts. Every critical
 section is one step, and so is every channel operation, dial, write and timeout between them.
 */
module ControlProtocol {
  import opened Common
  import opened ControlLinks

  type Tid = nat

  datatype Outcome = Value(result: string) | Failed(error: Error) | NotMarshalled

  /** Where a caller stands; `Leaving` has its outcome and is about to leave the pending map. */
  datatype CallPc =
    | Idle
    | Registered(ch: Chan)
    | Waiting(ch: Chan)
    | Leaving(ch: Chan, outcome: Outcome, answer: Option<Response>)

  datatype ReaderPc = Reading | Holding(ch: Chan, r: Response) | Failing | CleanedUp | Gone

  datatype RunPc =
    | AwaitRestart
    | Dialing(tries: nat)
    | Dialed(conn: Conn)
    | Installed(conn: Conn)
    | Watching(conn: Conn)
    | Stopped

  /** What has become of a call's place in the pending map. */
  datatype Fate = InMap | Claimed(reader: Conn) | Answered | Withdrawn

  /** The call a channel was made for, and how many messages were ever put into it. */
  datatype Info = Info(id: Id, conn: Conn, caller: Tid, fate: Fate, sends: nat)

  datatype State = State(
    link: Link,
    boxes: Boxes,
    calls: map<Tid, CallPc>,
    readers: map<Conn, ReaderPc>,
    run: RunPc,
    token: bool,                      // the one slot of the disconnected channel
    info: map<Chan, Info>,
    heard: set<(Conn, Response)>,     // what was read on each connection
    dialed: set<Conn>)

  datatype Step =
    | Begin(t: Tid, id: Id, ch: Chan)
    | MarshalFails(t: Tid)
    | WriteFails(t: Tid)
    | Write(t: Tid)
    | Receive(t: Tid)
    | TimeOut(t: Tid)
    | End(t: Tid)
    | Hear(c: Conn, r: Response)
    | Deliver(c: Conn)
    | ReadFails(c: Conn)
    | CleanUp(c: Conn)
    | Signal(c: Conn)
    | Restart
    | DialFails
    | DialSucceeds(c: Conn)
    | InstallConn
    | Spawn
    | Notice
    | Cancel

  const DialRetries := 5

  function Initial(threads: set<Tid>): State {
    State(Link(None, false, map[]), map[], map t | t in threads :: Idle, map[], AwaitRestart, false, map[], {}, {})
  }

  function OutcomeOf(r: Response): Outcome {
    if r.success then Value(r.result) else if r.error.Some? then Failed(r.error.value) else Failed(Unreachable)
  }

  function ChanOf(pc: CallPc): Option<Chan> {
    if pc.Idle? then None else Some(pc.ch)
  }

  /** Request ids, channels and connections are new whenever they are made. */
  predicate Enabled(s: State, step: Step) {
    match step
    case Begin(t, id, ch) =>
      t in s.calls && s.calls[t].Idle? && ch !in s.info && id != "" && forall c :: c in s.info ==> s.info[c].id != id
    case MarshalFails(t) => t in s.calls && s.calls[t].Registered?
    case WriteFails(t) => t in s.calls && s.calls[t].Registered?
    case Write(t) => t in s.calls && s.calls[t].Registered?
    case Receive(t) => t in s.calls && s.calls[t].Waiting? && s.calls[t].ch in s.boxes && s.boxes[s.calls[t].ch] != []
    case TimeOut(t) => t in s.calls && s.calls[t].Waiting?
    case End(t) => t in s.calls && s.calls[t].Leaving? && s.calls[t].ch in s.info
    case Hear(c, _) => c in s.readers && s.readers[c].Reading?
    case Deliver(c) =>
      c in s.readers && s.readers[c].Holding? && s.readers[c].ch in s.boxes && s.readers[c].ch in s.info
    case ReadFails(c) => c in s.readers && s.readers[c].Reading?
    case CleanUp(c) => c in s.readers && s.readers[c].Failing?
    case Signal(c) => c in s.readers && s.readers[c].CleanedUp?
    case Restart => s.run.AwaitRestart?
    case DialFails => s.run.Dialing?
    case DialSucceeds(c) => s.run.Dialing? && c !in s.dialed
    case InstallConn => s.run.Dialed?
    case Spawn => s.run.Installed?
    case Notice => s.run.Watching? && s.token
    case Cancel => s.run.AwaitRestart? || s.run.Watching?
  }

  /** A send to a full channel would block for ever; NoSendBlocks shows that it never comes to that. */
  function Next(s: State, step: Step): State
    requires Enabled(s, step)
  {
    match step
    case Begin(t, id, ch) =>
      if s.link.connected && s.link.conn.Some? then
        s.(link := Register(s.link, id, ch), boxes := s.boxes[ch := []], calls := s.calls[t := Registered(ch)],
           info := s.info[ch := Info(id, s.link.conn.value, t, InMap, 0)])
      else s
    case MarshalFails(t) => s.(calls := s.calls[t := Leaving(s.calls[t].ch, NotMarshalled, None)])
    case WriteFails(t) => s.(calls := s.calls[t := Leaving(s.calls[t].ch, Failed(Unreachable), None)])
    case Write(t) => s.(calls := s.calls[t := Waiting(s.calls[t].ch)])
    case Receive(t) =>
      var ch := s.calls[t].ch;
      var r := s.boxes[ch][0];
      s.(boxes := s.boxes[ch := s.boxes[ch][1..]], calls := s.calls[t := Leaving(ch, OutcomeOf(r), Some(r))])
    case TimeOut(t) => s.(calls := s.calls[t := Leaving(s.calls[t].ch, Failed(Unreachable), None)])
    case End(t) =>
      var ch := s.calls[t].ch;
      var i := s.info[ch];
      s.(link := Unregister(s.link, i.id), calls := s.calls[t := Idle],
         info := s.info[ch := i.(fate := if i.fate == InMap then Withdrawn else i.fate)])
    case Hear(c, r) =>
      var (link, ch) := Claim(s.link, r.requestId);
      var now := s.(link := link, heard := s.heard + {(c, r)});
      if ch.Some? && ch.value in s.info then
        now.(readers := s.readers[c := Holding(ch.value, r)],
             info := s.info[ch.value := s.info[ch.value].(fate := Claimed(c))])
      else now
    case Deliver(c) =>
      var (ch, r) := (s.readers[c].ch, s.readers[c].r);
      s.(boxes := s.boxes[ch := s.boxes[ch] + [r]], readers := s.readers[c := Reading],
         info := s.info[ch := s.info[ch].(fate := Answered, sends := s.info[ch].sends + 1)])
    case ReadFails(c) => s.(readers := s.readers[c := Failing])
    case CleanUp(c) =>
      var (link, boxes) := FailAll(s.link, s.boxes);
      s.(link := link, boxes := boxes, readers := s.readers[c := CleanedUp], info := Told(s))
    case Signal(c) => s.(readers := s.readers[c := Gone], token := true)
    case Restart => s.(run := Dialing(0))
    case DialFails => s.(run := if s.run.tries + 1 < DialRetries then Dialing(s.run.tries + 1) else AwaitRestart)
    case DialSucceeds(c) => s.(run := Dialed(c), dialed := s.dialed + {c})
    case InstallConn => s.(link := Install(s.link, s.run.conn), run := Installed(s.run.conn))
    case Spawn => s.(readers := s.readers[s.run.conn := Reading], run := Watching(s.run.conn))
    case Notice => s.(run := AwaitRestart, token := false)
    case Cancel => s.(link := s.link.(connected := s.link.connected && !s.run.Watching?), run := Stopped)
  }

  /** The books after everyone still waiting was told: only an empty channel takes the message. */
  function Told(s: State): map<Chan, Info> {
    map ch | ch in s.info ::
      if ch in s.link.pending.Values
      then s.info[ch].(fate := Answered,
                       sends := s.info[ch].sends + if ch in s.boxes && s.boxes[ch] == [] then 1 else 0)
      else s.info[ch]
  }

  // ----- the invariant

  /** Every pending entry is some call's own, made on the present connection. */
  ghost predicate PendingMatched(s: State) {
    && (forall ch :: ch in s.info ==> s.info[ch].id != "")
    && (forall ch, other :: ch in s.info && other in s.info && ch != other ==> s.info[ch].id != s.info[other].id)
    && (forall id :: id in s.link.pending ==>
          && s.link.pending[id] in s.info && s.info[s.link.pending[id]].id == id
          && s.info[s.link.pending[id]].fate == InMap)
    && (forall ch :: ch in s.info && s.info[ch].fate == InMap ==>
          && s.info[ch].id in s.link.pending && s.link.pending[s.info[ch].id] == ch
          && s.link.conn == Some(s.info[ch].conn))
  }

  /** Is `r` something the call of channel `ch` may be told? Its own answer, or that the connection is lost. */
  ghost predicate Proper(s: State, ch: Chan, r: Response)
    requires ch in s.info
  {
    r == Disconnected || (r.requestId == s.info[ch].id && (s.info[ch].conn, r) in s.heard)
  }

  ghost predicate BoxesSound(s: State) {
    && s.boxes.Keys == s.info.Keys
    && (forall ch :: ch in s.info ==> BoxSound(s, ch))
  }

  ghost predicate BoxSound(s: State, ch: Chan)
    requires ch in s.info && ch in s.boxes
  {
    && s.info[ch].sends == (if s.info[ch].fate == Answered then 1 else 0)
    && |s.boxes[ch]| <= s.info[ch].sends
    && (s.boxes[ch] != [] ==> Proper(s, ch, s.boxes[ch][0]))
  }

  /** Each call has its channel to itself, has not been forgotten, and leaves with a proper outcome. */
  ghost predicate CallsSound(s: State) {
    && s.boxes.Keys == s.info.Keys
    && (forall t {:trigger ChanOf(s.calls[t])} :: t in s.calls && ChanOf(s.calls[t]).Some? ==>
          ChanOf(s.calls[t]).value in s.info && s.info[ChanOf(s.calls[t]).value].caller == t)
    && (forall t {:trigger s.calls[t].Registered?} {:trigger s.calls[t].Waiting?} :: t in s.calls ==>
          (s.calls[t].Registered? || s.calls[t].Waiting? ==> StillHopeful(s, s.calls[t].ch)))
    && (forall t {:trigger s.calls[t].Leaving?} :: t in s.calls && s.calls[t].Leaving? ==>
          OutcomeSound(s, s.calls[t].ch, s.calls[t].outcome, s.calls[t].answer))
  }

  ghost predicate StillHopeful(s: State, ch: Chan) {
    && ch in s.info && ch in s.boxes
    && s.info[ch].fate != Withdrawn && (s.info[ch].fate == Answered ==> s.boxes[ch] != [])
  }

  ghost predicate OutcomeSound(s: State, ch: Chan, outcome: Outcome, answer: Option<Response>) {
    && ch in s.info
    && match answer
       case Some(r) => Proper(s, ch, r) && outcome == OutcomeOf(r)
       case None => outcome == Failed(Unreachable) || outcome == NotMarshalled
  }

  /** A claimed channel and its answer are in the hands of exactly one read loop, that of the call's connection. */
  ghost predicate ClaimsSound(s: State) {
    && (forall c :: c in s.readers && s.readers[c].Holding? ==>
          && s.readers[c].ch in s.info && s.info[s.readers[c].ch].fate == Claimed(c)
          && s.info[s.readers[c].ch].conn == c
          && s.readers[c].r.requestId == s.info[s.readers[c].ch].id && (c, s.readers[c].r) in s.heard)
    && (forall ch :: ch in s.info && s.info[ch].fate.Claimed? ==>
          && s.info[ch].fate.reader in s.readers && s.readers[s.info[ch].fate.reader].Holding?
          && s.readers[s.info[ch].fate.reader].ch == ch)
  }

  predicate Alive(pc: ReaderPc) {
    pc.Reading? || pc.Holding? || pc.Failing?
  }

  /** The present connection has been installed and its read loop has not cleaned up yet. */
  ghost predicate Open(s: State) {
    && s.link.conn.Some?
    && (|| s.run == Installed(s.link.conn.value)
        || (s.link.conn.value in s.readers && Alive(s.readers[s.link.conn.value])))
  }

  /** One connection at a time: only the one being watched, or the last one, has a read loop that is not over. */
  ghost predicate ConnectionsSound(s: State) {
    && (forall c :: c in s.readers && !s.readers[c].Gone? ==>
          s.link.conn == Some(c) && (s.run == Watching(c) || s.run.Stopped?))
    && (s.run.Installed? ==> s.link.conn == Some(s.run.conn) && s.run.conn !in s.readers)
    && (s.run.Dialed? ==> s.run.conn !in s.readers)
    && (s.run.Dialing? ==> s.run.tries < DialRetries)
    && (s.run.Watching? ==>
         s.run.conn in s.readers && s.link.conn == Some(s.run.conn) && (s.token <==> s.readers[s.run.conn].Gone?))
    && (s.token ==> s.run.Watching? || s.run.Stopped?)
    && (s.link.connected ==> !s.run.Stopped?)
    && (s.link.connected || s.link.pending != map[] ==> Open(s))
    && (forall c :: c in s.readers ==> c in s.dialed)
    && (s.run.Dialed? || s.run.Installed? || s.run.Watching? ==> s.run.conn in s.dialed)
  }

  ghost predicate Inv(s: State) {
    PendingMatched(s) && BoxesSound(s) && CallsSound(s) && ClaimsSound(s) && ConnectionsSound(s)
  }

  lemma InitialInv(threads: set<Tid>)
    ensures Inv(Initial(threads))
  {
  }

  // ----- the pending map

  lemma PendingOfNewCall(s: State, n: State, id: Id, ch: Chan, t: Tid)
    requires PendingMatched(s) && s.link.conn.Some? && ch !in s.info && id != ""
    requires forall c :: c in s.info ==> s.info[c].id != id
    requires n.link == Register(s.link, id, ch) && n.info == s.info[ch := Info(id, s.link.conn.value, t, InMap, 0)]
    ensures PendingMatched(n)
  {
  }

  /** A channel out of the map, or already out of it, changes its fate. */
  lemma PendingOfNewFate(s: State, n: State, ch: Chan, fate: Fate, sends: nat)
    requires PendingMatched(s) && ch in s.info && fate != InMap
    requires n.link.conn == s.link.conn && n.link.pending == s.link.pending - {s.info[ch].id}
    requires n.info == s.info[ch := s.info[ch].(fate := fate, sends := sends)]
    ensures PendingMatched(n)
  {
  }

  lemma PendingOfTold(s: State, n: State)
    requires PendingMatched(s)
    requires n.link.conn == s.link.conn && n.link.pending == map[] && n.info == Told(s)
    ensures PendingMatched(n)
  {
    forall ch | ch in s.info && s.info[ch].fate == InMap ensures ch in s.link.pending.Values {
      assert s.link.pending[s.info[ch].id] == ch;
    }
  }

  /** Whoever dials has nothing pending, and no read loop is left. */
  lemma NothingPendingWhenDialed(s: State)
    requires ConnectionsSound(s) && (s.run.AwaitRestart? || s.run.Dialing? || s.run.Dialed?)
    ensures s.link.pending == map[] && !s.link.connected && forall c :: c in s.readers ==> s.readers[c].Gone?
  {
  }

  lemma OutOfTheMap(s: State, ch: Chan)
    requires PendingMatched(s) && ch in s.info && s.info[ch].fate != InMap
    ensures s.info[ch].id !in s.link.pending
  {
  }

  /** The channel that an answer finds in the map is its call's, on the connection it came in on. */
  lemma HeardChannel(s: State, c: Conn, id: Id)
    requires PendingMatched(s) && id in s.link.pending
    ensures var ch := s.link.pending[id];
      ch in s.info && s.info[ch].fate == InMap && s.info[ch].id == id && s.link.conn == Some(s.info[ch].conn)
  {
  }

  lemma HeldChannel(s: State, c: Conn)
    requires ClaimsSound(s) && c in s.readers && s.readers[c].Holding?
    ensures var ch := s.readers[c].ch;
      ch in s.info && s.info[ch].fate == Claimed(c) && s.info[ch].conn == c && Proper(s, ch, s.readers[c].r)
  {
  }

  lemma KeepsPendingMatched(s: State, step: Step)
    requires PendingMatched(s) && ClaimsSound(s) && ConnectionsSound(s) && Enabled(s, step)
    ensures PendingMatched(Next(s, step))
  {
    hide PendingMatched, ClaimsSound, ConnectionsSound, Told, TellAll, Proper;
    var n := Next(s, step);
    match step
    case Begin(t, id, ch) =>
      if n != s { PendingOfNewCall(s, n, id, ch, t); }
    case End(t) =>
      var ch := s.calls[t].ch;
      if s.info[ch].fate != InMap { OutOfTheMap(s, ch); }
      PendingOfNewFate(s, n, ch, n.info[ch].fate, s.info[ch].sends);
    case Hear(c, r) =>
      if r.requestId in s.link.pending {
        HeardChannel(s, c, r.requestId);
        PendingOfNewFate(s, n, s.link.pending[r.requestId], Claimed(c), s.info[s.link.pending[r.requestId]].sends);
      } else {
        PendingFrame(s, n);
      }
    case Deliver(c) =>
      HeldChannel(s, c);
      OutOfTheMap(s, s.readers[c].ch);
      PendingOfNewFate(s, n, s.readers[c].ch, Answered, s.info[s.readers[c].ch].sends + 1);
    case CleanUp(_) => PendingOfTold(s, n);
    case InstallConn =>
      NothingPendingWhenDialed(s);
      PendingOfInstalled(s, n);
    case _ => PendingFrame(s, n);
  }

  lemma PendingFrame(s: State, n: State)
    requires PendingMatched(s) && n.link.conn == s.link.conn && n.link.pending == s.link.pending && n.info == s.info
    ensures PendingMatched(n)
  {
  }

  lemma PendingOfInstalled(s: State, n: State)
    requires PendingMatched(s) && s.link.pending == map[] && n.link.pending == map[] && n.info == s.info
    ensures PendingMatched(n)
  {
  }

  // ----- the reply channels

  lemma BoxesOfNewCall(s: State, n: State, ch: Chan, info: Info)
    requires BoxesSound(s) && ch !in s.info && info.fate == InMap && info.sends == 0
    requires n.boxes == s.boxes[ch := []] && n.info == s.info[ch := info] && n.heard == s.heard
    ensures BoxesSound(n)
  {
  }

  lemma BoxesOfNewFate(s: State, n: State, ch: Chan, fate: Fate)
    requires BoxesSound(s) && ch in s.info
    requires (fate == s.info[ch].fate || (s.info[ch].fate != Answered && fate != Answered))
    requires n.boxes == s.boxes && n.info == s.info[ch := s.info[ch].(fate := fate)] && s.heard <= n.heard
    ensures BoxesSound(n)
  {
  }

  lemma BoxesOfReceived(s: State, n: State, ch: Chan)
    requires BoxesSound(s) && ch in s.info && s.boxes[ch] != []
    requires n.boxes == s.boxes[ch := s.boxes[ch][1..]] && n.info == s.info && n.heard == s.heard
    ensures BoxesSound(n)
  {
  }

  lemma BoxesOfDelivered(s: State, n: State, ch: Chan, r: Response)
    requires BoxesSound(s) && ch in s.info && s.info[ch].fate.Claimed? && Proper(s, ch, r)
    requires n.boxes == s.boxes[ch := s.boxes[ch] + [r]] && n.heard == s.heard
    requires n.info == s.info[ch := s.info[ch].(fate := Answered, sends := s.info[ch].sends + 1)]
    ensures BoxesSound(n)
  {
    assert s.boxes[ch] == [];
  }

  lemma BoxesOfTold(s: State, n: State)
    requires BoxesSound(s) && PendingMatched(s)
    requires n.boxes == FailAll(s.link, s.boxes).1 && n.info == Told(s) && n.heard == s.heard
    ensures BoxesSound(n)
  {
    ToldKeepsClaims(s);
    hide PendingMatched;
    forall ch | ch in s.info ensures BoxSound(n, ch) {
      assert BoxSound(s, ch);
      assert n.boxes[ch] == if ch in s.link.pending.Values then TrySend(s.boxes[ch], Disconnected) else s.boxes[ch];
      assert n.info[ch].id == s.info[ch].id && n.info[ch].conn == s.info[ch].conn;
    }
  }

  lemma ToldKeepsClaims(s: State)
    requires PendingMatched(s)
    ensures forall ch :: ch in s.link.pending.Values ==> ch in s.info && s.info[ch].fate == InMap
  {
  }

  lemma BoxesFrame(s: State, n: State)
    requires BoxesSound(s) && n.boxes == s.boxes && n.info == s.info && s.heard <= n.heard
    ensures BoxesSound(n)
  {
  }

  lemma BoxesCoverInfo(s: State)
    requires BoxesSound(s)
    ensures s.boxes.Keys == s.info.Keys
  {
  }

  lemma KeepsBoxesSound(s: State, step: Step)
    requires PendingMatched(s) && BoxesSound(s) && ClaimsSound(s) && Enabled(s, step)
    ensures BoxesSound(Next(s, step))
  {
    hide PendingMatched, BoxesSound, ClaimsSound, Told, FailAll, Proper;
    BoxesCoverInfo(s);
    var n := Next(s, step);
    match step
    case Begin(_, _, ch) =>
      if n != s { BoxesOfNewCall(s, n, ch, n.info[ch]); }
    case Receive(t) => BoxesOfReceived(s, n, s.calls[t].ch);
    case End(t) => BoxesOfNewFate(s, n, s.calls[t].ch, n.info[s.calls[t].ch].fate);
    case Hear(c, r) =>
      if r.requestId in s.link.pending {
        HeardChannel(s, c, r.requestId);
        BoxesOfNewFate(s, n, s.link.pending[r.requestId], Claimed(c));
      } else {
        BoxesFrame(s, n);
      }
    case Deliver(c) =>
      HeldChannel(s, c);
      BoxesOfDelivered(s, n, s.readers[c].ch, s.readers[c].r);
    case CleanUp(_) => BoxesOfTold(s, n);
    case _ => BoxesFrame(s, n);
  }

  // ----- answers in the hands of a read loop

  /** No claim comes or goes. */
  ghost predicate SameClaims(s: State, n: State) {
    && s.heard <= n.heard
    && (forall c :: c in n.readers && n.readers[c].Holding? ==> c in s.readers && s.readers[c] == n.readers[c])
    && (forall c :: c in s.readers && s.readers[c].Holding? ==> c in n.readers && s.readers[c] == n.readers[c])
    && (forall ch :: ch in s.info ==>
          ch in n.info && n.info[ch].id == s.info[ch].id && n.info[ch].conn == s.info[ch].conn
          && (s.info[ch].fate.Claimed? ==> n.info[ch].fate == s.info[ch].fate))
    && (forall ch :: ch in n.info && n.info[ch].fate.Claimed? ==> ch in s.info && s.info[ch].fate == n.info[ch].fate)
  }

  lemma ClaimsFrame(s: State, n: State)
    requires ClaimsSound(s) && SameClaims(s, n)
    ensures ClaimsSound(n)
  {
  }

  lemma ClaimsOfHeard(s: State, n: State, c: Conn, ch: Chan, r: Response)
    requires ClaimsSound(s) && c in s.readers && s.readers[c].Reading? && ch in s.info && s.info[ch].fate == InMap
    requires s.info[ch].conn == c && r.requestId == s.info[ch].id
    requires n.readers == s.readers[c := Holding(ch, r)] && n.info == s.info[ch := s.info[ch].(fate := Claimed(c))]
    requires n.heard == s.heard + {(c, r)}
    ensures ClaimsSound(n)
  {
  }

  lemma ClaimsOfDelivered(s: State, n: State, c: Conn, ch: Chan, sends: nat)
    requires ClaimsSound(s) && c in s.readers && s.readers[c].Holding? && s.readers[c].ch == ch && ch in s.info
    requires n.readers == s.readers[c := Reading]
    requires n.info == s.info[ch := s.info[ch].(fate := Answered, sends := sends)]
    requires n.heard == s.heard
    ensures ClaimsSound(n)
  {
  }

  lemma KeepsClaimsSound(s: State, step: Step)
    requires PendingMatched(s) && ClaimsSound(s) && ConnectionsSound(s) && Enabled(s, step)
    ensures ClaimsSound(Next(s, step))
  {
    hide PendingMatched, ClaimsSound, ConnectionsSound, SameClaims, FailAll;
    var n := Next(s, step);
    match step
    case Hear(c, r) =>
      if r.requestId in s.link.pending {
        HeardChannel(s, c, r.requestId);
        AliveIsPresent(s, c);
        ClaimsOfHeard(s, n, c, s.link.pending[r.requestId], r);
      } else {
        ClaimsUntouched(s, n);
        ClaimsFrame(s, n);
      }
    case Deliver(c) =>
      HeldChannel(s, c);
      ClaimsOfDelivered(s, n, c, s.readers[c].ch, s.info[s.readers[c].ch].sends + 1);
    case _ =>
      SpawnedIsNew(s);
      ToldKeepsClaims(s);
      OtherStepsClaimNothing(s, step);
      ClaimsFrame(s, n);
  }

  lemma AliveIsPresent(s: State, c: Conn)
    requires ConnectionsSound(s) && c in s.readers && !s.readers[c].Gone?
    ensures s.link.conn == Some(c)
  {
  }

  lemma SpawnedIsNew(s: State)
    requires ConnectionsSound(s)
    ensures s.run.Installed? ==> s.run.conn !in s.readers
  {
  }

  lemma ClaimsUntouched(s: State, n: State)
    requires s.heard <= n.heard && n.readers == s.readers && n.info == s.info
    ensures SameClaims(s, n)
  {
  }

  lemma OtherStepsClaimNothing(s: State, step: Step)
    requires Enabled(s, step) && !step.Hear? && !step.Deliver?
    requires s.run.Installed? ==> s.run.conn !in s.readers
    requires forall ch :: ch in s.link.pending.Values ==> ch in s.info && s.info[ch].fate == InMap
    ensures SameClaims(s, Next(s, step))
  {
    hide SameClaims, FailAll;
    var n := Next(s, step);
    match step
    case Begin(_, _, ch) => if n != s { ClaimsOfInfo(s, n, ch); } else { ClaimsUntouched(s, n); }
    case End(t) => ClaimsOfInfo(s, n, s.calls[t].ch);
    case CleanUp(c) => ClaimsOfCleanUp(s, n, c);
    case ReadFails(c) => ClaimsOfQuietReader(s, n, c);
    case Signal(c) => ClaimsOfQuietReader(s, n, c);
    case Spawn => ClaimsOfQuietReader(s, n, s.run.conn);
    case _ => ClaimsUntouched(s, n);
  }

  lemma ClaimsOfInfo(s: State, n: State, ch: Chan)
    requires n.heard == s.heard && n.readers == s.readers && ch in n.info && n.info == s.info[ch := n.info[ch]]
    requires ch !in s.info ==> !n.info[ch].fate.Claimed?
    requires ch in s.info ==>
      && n.info[ch].id == s.info[ch].id && n.info[ch].conn == s.info[ch].conn
      && (n.info[ch].fate == s.info[ch].fate || (!n.info[ch].fate.Claimed? && !s.info[ch].fate.Claimed?))
    ensures SameClaims(s, n)
  {
  }

  lemma ClaimsOfQuietReader(s: State, n: State, c: Conn)
    requires n.heard == s.heard && n.info == s.info && c in n.readers && n.readers == s.readers[c := n.readers[c]]
    requires !n.readers[c].Holding? && (c in s.readers ==> !s.readers[c].Holding?)
    ensures SameClaims(s, n)
  {
  }

  lemma ClaimsOfCleanUp(s: State, n: State, c: Conn)
    requires n.heard == s.heard && n.info == Told(s) && c in s.readers && n.readers == s.readers[c := CleanedUp]
    requires !s.readers[c].Holding? && forall ch :: ch in s.link.pending.Values ==>
      ch in s.info && s.info[ch].fate == InMap
    ensures SameClaims(s, n)
  {
  }

  // ----- the callers

  /** A channel stays what it was made for, and what was heard stays heard. */
  ghost predicate InfoKept(s: State, n: State) {
    && s.heard <= n.heard && n.boxes.Keys == n.info.Keys
    && forall ch :: ch in s.info ==>
         && ch in n.info && n.info[ch].id == s.info[ch].id && n.info[ch].conn == s.info[ch].conn
         && n.info[ch].caller == s.info[ch].caller
  }

  lemma OutcomesKept(s: State, n: State, ch: Chan, outcome: Outcome, answer: Option<Response>)
    requires InfoKept(s, n) && OutcomeSound(s, ch, outcome, answer)
    ensures OutcomeSound(n, ch, outcome, answer)
  {
  }

  /** A step of some other thread. */
  lemma CallsFrame(s: State, n: State)
    requires CallsSound(s) && InfoKept(s, n) && n.calls == s.calls
    requires forall ch :: StillHopeful(s, ch) ==> StillHopeful(n, ch)
    ensures CallsSound(n)
  {
    hide StillHopeful, OutcomeSound;
    forall t | t in n.calls && n.calls[t].Leaving?
      ensures OutcomeSound(n, n.calls[t].ch, n.calls[t].outcome, n.calls[t].answer)
    {
      OutcomesKept(s, n, n.calls[t].ch, n.calls[t].outcome, n.calls[t].answer);
    }
  }

  ghost predicate CallSound(s: State, t: Tid, pc: CallPc) {
    && (ChanOf(pc).Some? ==> ChanOf(pc).value in s.info && s.info[ChanOf(pc).value].caller == t)
    && (pc.Registered? || pc.Waiting? ==> StillHopeful(s, pc.ch))
    && (pc.Leaving? ==> OutcomeSound(s, pc.ch, pc.outcome, pc.answer))
  }

  /** A step of caller `t` leaves every other call as it was. */
  lemma CallsStep(s: State, n: State, t: Tid, now: CallPc)
    requires CallsSound(s) && InfoKept(s, n) && t in s.calls && n.calls == s.calls[t := now]
    requires forall ch :: ch in s.info && s.info[ch].caller != t && StillHopeful(s, ch) ==> StillHopeful(n, ch)
    requires CallSound(n, t, now)
    ensures CallsSound(n)
  {
    hide StillHopeful, OutcomeSound;
    forall u | u in n.calls && n.calls[u].Leaving?
      ensures OutcomeSound(n, n.calls[u].ch, n.calls[u].outcome, n.calls[u].answer)
    {
      if u != t { OutcomesKept(s, n, n.calls[u].ch, n.calls[u].outcome, n.calls[u].answer); }
    }
    forall u | u in n.calls && (n.calls[u].Registered? || n.calls[u].Waiting?) ensures StillHopeful(n, n.calls[u].ch) {
      if u != t { assert ChanOf(s.calls[u]) == Some(n.calls[u].ch); }
    }
  }

  lemma CallerIsSound(s: State, t: Tid)
    requires CallsSound(s) && t in s.calls
    ensures CallSound(s, t, s.calls[t])
  {
    assert ChanOf(s.calls[t]) == ChanOf(s.calls[t]);
  }

  lemma ReceivedIsProper(s: State, n: State, ch: Chan)
    requires BoxesSound(s) && ch in s.info && s.boxes[ch] != [] && n.info == s.info && n.heard == s.heard
    ensures Proper(n, ch, s.boxes[ch][0])
  {
    assert BoxSound(s, ch);
  }

  lemma CallsOfWaiter(s: State, step: Step, t: Tid)
    requires CallsSound(s) && BoxesSound(s) && Enabled(s, step)
    requires step == MarshalFails(t) || step == WriteFails(t) || step == Write(t) || step == TimeOut(t)
    ensures CallsSound(Next(s, step))
  {
    hide CallsSound, BoxesSound, Proper;
    BoxesCoverInfo(s);
    CallerIsSound(s, t);
    CallsStep(s, Next(s, step), t, Next(s, step).calls[t]);
  }

  lemma CallsOfReceiver(s: State, t: Tid)
    requires CallsSound(s) && BoxesSound(s) && Enabled(s, Receive(t))
    ensures CallsSound(Next(s, Receive(t)))
  {
    hide CallsSound, BoxesSound, Proper;
    BoxesCoverInfo(s);
    CallerIsSound(s, t);
    var n := Next(s, Receive(t));
    ReceivedIsProper(s, n, s.calls[t].ch);
    CallsStep(s, n, t, n.calls[t]);
  }

  lemma CallsOfLeaver(s: State, t: Tid)
    requires CallsSound(s) && BoxesSound(s) && Enabled(s, End(t))
    ensures CallsSound(Next(s, End(t)))
  {
    hide CallsSound, BoxesSound, Proper;
    BoxesCoverInfo(s);
    CallerIsSound(s, t);
    CallsStep(s, Next(s, End(t)), t, Idle);
  }

  lemma CallsOfBegin(s: State, step: Step)
    requires CallsSound(s) && BoxesSound(s) && Enabled(s, step) && step.Begin?
    ensures CallsSound(Next(s, step))
  {
    hide CallsSound;
    var n := Next(s, step);
    if n != s {
      assert s.boxes.Keys == s.info.Keys;
      CallsStep(s, n, step.t, n.calls[step.t]);
    }
  }

  lemma HopeAfterCleanUp(s: State, ch: Chan)
    requires StillHopeful(s, ch)
    ensures var n := s.(boxes := FailAll(s.link, s.boxes).1, info := Told(s)); StillHopeful(n, ch)
  {
  }

  lemma CallsOfReader(s: State, step: Step)
    requires CallsSound(s) && BoxesSound(s) && PendingMatched(s) && ClaimsSound(s) && Enabled(s, step)
    requires step.Hear? || step.Deliver? || step.CleanUp?
    ensures CallsSound(Next(s, step))
  {
    hide CallsSound, PendingMatched, ClaimsSound, BoxesSound, FailAll, Told;
    BoxesCoverInfo(s);
    var n := Next(s, step);
    match step
    case Hear(c, r) =>
      if r.requestId in s.link.pending { HeardChannel(s, c, r.requestId); }
      CallsFrame(s, n);
    case Deliver(c) =>
      HeldChannel(s, c);
      CallsFrame(s, n);
    case CleanUp(_) =>
      forall ch | StillHopeful(s, ch) ensures StillHopeful(n, ch) { HopeAfterCleanUp(s, ch); }
      ToldKeepsInfo(s, n);
      CallsFrame(s, n);
  }

  lemma ToldKeepsInfo(s: State, n: State)
    requires s.boxes.Keys == s.info.Keys && n.boxes == FailAll(s.link, s.boxes).1 && n.info == Told(s)
    requires n.heard == s.heard
    ensures InfoKept(s, n)
  {
  }

  lemma KeepsCallsSound(s: State, step: Step)
    requires CallsSound(s) && BoxesSound(s) && PendingMatched(s) && ClaimsSound(s) && Enabled(s, step)
    ensures CallsSound(Next(s, step))
  {
    hide CallsSound, PendingMatched, ClaimsSound, BoxesSound, FailAll, Told;
    match step
    case Begin(_, _, _) => CallsOfBegin(s, step);
    case MarshalFails(t) => CallsOfWaiter(s, step, t);
    case WriteFails(t) => CallsOfWaiter(s, step, t);
    case Write(t) => CallsOfWaiter(s, step, t);
    case Receive(t) => CallsOfReceiver(s, t);
    case TimeOut(t) => CallsOfWaiter(s, step, t);
    case End(t) => CallsOfLeaver(s, t);
    case Hear(_, _) => CallsOfReader(s, step);
    case Deliver(_) => CallsOfReader(s, step);
    case CleanUp(_) => CallsOfReader(s, step);
    case _ =>
      BoxesCoverInfo(s);
      CallsFrame(s, Next(s, step));
  }

  // ----- the connections

  /** Everything but the pending map and who is connected is untouched, and these can only shrink. */
  lemma ConnectionsOfCaller(s: State, n: State)
    requires ConnectionsSound(s) && n.readers == s.readers && n.run == s.run && n.token == s.token
    requires n.dialed == s.dialed
    requires n.link.conn == s.link.conn && (n.link.connected ==> s.link.connected)
    requires n.link.pending != map[] ==> s.link.connected || s.link.pending != map[]
    ensures ConnectionsSound(n)
  {
  }

  lemma ConnectionsOfReader(s: State, step: Step)
    requires ConnectionsSound(s) && Enabled(s, step)
    requires step.Hear? || step.Deliver? || step.ReadFails? || step.CleanUp? || step.Signal?
    ensures ConnectionsSound(Next(s, step))
  {
  }

  lemma ConnectionsOfRun(s: State, step: Step)
    requires ConnectionsSound(s) && Enabled(s, step)
    requires
      || step.Restart? || step.DialFails? || step.DialSucceeds? || step.InstallConn?
      || step.Spawn? || step.Notice? || step.Cancel?
    ensures ConnectionsSound(Next(s, step))
  {
  }

  lemma KeepsConnectionsSound(s: State, step: Step)
    requires ConnectionsSound(s) && Enabled(s, step)
    ensures ConnectionsSound(Next(s, step))
  {
    hide ConnectionsSound;
    match step
    case Begin(_, _, _) => ConnectionsOfCaller(s, Next(s, step));
    case MarshalFails(_) => ConnectionsOfCaller(s, Next(s, step));
    case WriteFails(_) => ConnectionsOfCaller(s, Next(s, step));
    case Write(_) => ConnectionsOfCaller(s, Next(s, step));
    case Receive(_) => ConnectionsOfCaller(s, Next(s, step));
    case TimeOut(_) => ConnectionsOfCaller(s, Next(s, step));
    case End(_) => ConnectionsOfCaller(s, Next(s, step));
    case Hear(_, _) => ConnectionsOfReader(s, step);
    case Deliver(_) => ConnectionsOfReader(s, step);
    case ReadFails(_) => ConnectionsOfReader(s, step);
    case CleanUp(_) => ConnectionsOfReader(s, step);
    case Signal(_) => ConnectionsOfReader(s, step);
    case _ => ConnectionsOfRun(s, step);
  }
}
