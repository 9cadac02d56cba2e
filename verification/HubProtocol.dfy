/**
 The hub as its goroutines run it: the relay loop, subscribers that come and go and drain their
 channels, and closers. A broadcast holds the lock while it offers the frame to one channel after
 another; the replay to a newcomer happens after the lock is gone.
 */
module HubProtocol {
  import opened Common
  import opened Hubs

  type Tid = nat
  type Chan = nat

  /** A subscriber that is registered and still to be shown a frame, or that is up and reading. */
  datatype Pc = Idle | Registered(ch: Chan, replay: Frame) | Subscribed(ch: Chan) | Left(ch: Chan)

  /** The lock is free, or the relay loop holds it and has these channels still to serve. */
  datatype Lock = Free | Sending(todo: set<Chan>)

  /** How a frame came into a channel: as the newcomer's replay, or as the `index`-th broadcast. */
  datatype Put = Replayed(frame: Frame) | Sent(index: nat)

  /** A channel's history; `missed` are the broadcasts that found it full, `until` when it was taken out. */
  datatype Life = Life(
    since: nat, puts: seq<Put>, replays: nat, missed: set<nat>, received: seq<Frame>, closes: nat,
    until: Option<nat>)

  datatype State = State(
    bufferSize: nat,
    subs: set<Chan>,
    retained: Option<Frame>,
    lock: Lock,
    done: bool,                       // the relay loop is over
    buffers: map<Chan, seq<Frame>>,
    closed: set<Chan>,
    pc: map<Tid, Pc>,
    log: seq<Frame>,                  // every frame broadcast
    lives: map<Chan, Life>)

  datatype Step =
    | Broadcast(f: Frame)
    | Send(to: Chan)
    | EndBroadcast
    | UpstreamEnds
    | Subscribe(t: Tid, ch: Chan)
    | Replay(t: Tid)
    | Receive(t: Tid)
    | CancelSub(t: Tid)
    | CloseHub

  function Initial(bufferSize: nat, threads: set<Tid>): State {
    State(bufferSize, {}, None, Free, false, map[], {}, map t | t in threads :: Idle, [], map[])
  }

  predicate Enabled(s: State, step: Step) {
    match step
    case Broadcast(_) => s.lock.Free? && !s.done
    case Send(ch) => s.lock.Sending? && ch in s.lock.todo && ch in s.buffers && ch in s.lives && s.log != []
    case EndBroadcast => s.lock == Sending({})
    case UpstreamEnds => s.lock.Free?
    case Subscribe(t, ch) => s.lock.Free? && t in s.pc && s.pc[t].Idle? && ch !in s.lives
    case Replay(t) => t in s.pc && s.pc[t].Registered? && s.pc[t].ch in s.buffers && s.pc[t].ch in s.lives
    case Receive(t) =>
      && t in s.pc && s.pc[t].Subscribed? && s.pc[t].ch in s.lives
      && s.pc[t].ch in s.buffers && s.buffers[s.pc[t].ch] != []
    case CancelSub(t) => s.lock.Free? && t in s.pc && s.pc[t].Subscribed? && s.pc[t].ch in s.lives
    case CloseHub => s.lock.Free? && s.done
  }

  /** The life of a channel offered the latest broadcast. */
  function AfterSend(s: State, ch: Chan): Life
    requires ch in s.buffers && ch in s.lives && s.log != []
  {
    if |s.buffers[ch]| < s.bufferSize then s.lives[ch].(puts := s.lives[ch].puts + [Sent(|s.log| - 1)])
    else s.lives[ch].(missed := s.lives[ch].missed + {|s.log| - 1})
  }

  function TakenOut(s: State, l: Life): Life {
    l.(closes := l.closes + 1, until := Some(|s.log|))
  }

  /** A panicking send or close is still a step; HubSafety.OnlyReplayPanics says when one can occur. */
  function Next(s: State, step: Step): State
    requires Enabled(s, step)
  {
    match step
    case Broadcast(f) =>
      s.(log := s.log + [f], retained := if f.status then Some(f) else s.retained, lock := Sending(s.subs))
    case Send(ch) =>
      s.(buffers := s.buffers[ch := Offered(s.buffers[ch], s.bufferSize, s.log[|s.log| - 1])],
         lives := s.lives[ch := AfterSend(s, ch)], lock := Sending(s.lock.todo - {ch}))
    case EndBroadcast => s.(lock := Free)
    case UpstreamEnds => s.(done := true)
    case Subscribe(t, ch) =>
      s.(subs := s.subs + {ch}, buffers := s.buffers[ch := []],
         lives := s.lives[ch := Life(|s.log|, [], 0, {}, [], 0, None)],
         pc := s.pc[t := if s.retained.Some? then Registered(ch, s.retained.value) else Subscribed(ch)])
    case Replay(t) =>
      var (ch, f) := (s.pc[t].ch, s.pc[t].replay);
      var now := s.(pc := s.pc[t := Subscribed(ch)]);
      if |s.buffers[ch]| < s.bufferSize then
        now.(buffers := s.buffers[ch := s.buffers[ch] + [f]],
             lives := s.lives[ch := s.lives[ch].(puts := s.lives[ch].puts + [Replayed(f)],
                                                 replays := s.lives[ch].replays + 1)])
      else now
    case Receive(t) =>
      var ch := s.pc[t].ch;
      s.(buffers := s.buffers[ch := s.buffers[ch][1..]],
         lives := s.lives[ch := s.lives[ch].(received := s.lives[ch].received + [s.buffers[ch][0]])])
    case CancelSub(t) =>
      var ch := s.pc[t].ch;
      var now := s.(pc := s.pc[t := Left(ch)]);
      if ch in s.subs then
        now.(subs := s.subs - {ch}, closed := s.closed + {ch}, lives := s.lives[ch := TakenOut(s, s.lives[ch])])
      else now
    case CloseHub =>
      s.(subs := {}, closed := s.closed + s.subs,
         lives := map ch | ch in s.lives :: if ch in s.subs then TakenOut(s, s.lives[ch]) else s.lives[ch])
  }

  /** What would panic: a send on a closed channel, or a second close. */
  ghost predicate Panics(s: State, step: Step)
    requires Enabled(s, step)
  {
    match step
    case Send(ch) => ch in s.closed
    case Replay(t) => s.pc[t].ch in s.closed
    case CancelSub(t) => s.pc[t].ch in s.subs && s.pc[t].ch in s.closed
    case CloseHub => s.subs * s.closed != {}
    case _ => false
  }

  // ----- the invariant

  /** Registered channels are open and the others closed, each of these once. */
  ghost predicate ChannelsSound(s: State) {
    && s.buffers.Keys == s.lives.Keys
    && (forall ch :: ch in s.lives <==> ch in s.subs || ch in s.closed)
    && s.subs !! s.closed
    && (forall ch :: ch in s.lives ==>
          s.lives[ch].closes == (if ch in s.closed then 1 else 0) && (s.lives[ch].until == None <==> ch in s.subs))
    && (forall t :: t in s.pc && !s.pc[t].Idle? ==> s.pc[t].ch in s.lives)
    && (s.lock.Sending? ==> s.lock.todo <= s.subs && s.log != [])
    && s.retained == LastStatus(s.log)
  }

  /** The broadcasts a channel was offered: from its registration up to its end, or up to now. */
  ghost predicate Offers(s: State, ch: Chan, i: nat)
    requires ch in s.lives
  {
    && s.lives[ch].since <= i < (if s.lives[ch].until.Some? then s.lives[ch].until.value else |s.log|)
    && (s.lock.Sending? && ch in s.lock.todo ==> i != |s.log| - 1)
  }

  /** Every broadcast offered was put into the channel, or missed; never both, and in order. */
  ghost predicate LifeSound(s: State, ch: Chan)
    requires ch in s.lives
  {
    var l := s.lives[ch];
    && (forall i :: i in l.missed || Sent(i) in l.puts <==> Offers(s, ch, i))
    && (forall i :: i in l.missed ==> Sent(i) !in l.puts)
    && (forall a, b :: 0 <= a < b < |l.puts| && l.puts[a].Sent? && l.puts[b].Sent? ==>
          l.puts[a].index < l.puts[b].index)
    && l.since <= |s.log| && (s.lock.Sending? ==> l.since < |s.log|) && (l.until.Some? ==> l.until.value <= |s.log|)
  }

  /** The frames that `puts` stand for. */
  function Content(log: seq<Frame>, puts: seq<Put>): seq<Frame> {
    if puts == [] then []
    else
      var p := puts[|puts| - 1];
      Content(log, puts[..|puts| - 1])
      + [if p.Replayed? then p.frame else if p.index < |log| then log[p.index] else Frame("", false)]
  }

  /** What was read and what is still buffered is, in order, what was ever put in. */
  ghost predicate StreamSound(s: State, ch: Chan)
    requires ch in s.lives && ch in s.buffers
  {
    s.lives[ch].received + s.buffers[ch] == Content(s.log, s.lives[ch].puts) && |s.buffers[ch]| <= s.bufferSize
  }

  function OfferedSoFar(s: State, ch: Chan): int
    requires ch in s.lives
  {
    (if s.lives[ch].until.Some? then s.lives[ch].until.value else |s.log|) - s.lives[ch].since
    - if s.lock.Sending? && ch in s.lock.todo then 1 else 0
  }

  /** A channel can only have missed a broadcast after as many puts as its buffer takes. */
  ghost predicate CountSound(s: State, ch: Chan)
    requires ch in s.lives
  {
    var l := s.lives[ch];
    && |l.puts| + |l.missed| == OfferedSoFar(s, ch) + l.replays
    && (forall i :: i in l.missed ==> s.bufferSize <= i - l.since + l.replays)
    && (l.replays > 0 ==> LastStatus(s.log).Some?)
  }

  /** Only a hub that has relayed a status frame replays one. */
  ghost predicate ReplaysSound(s: State) {
    forall t :: t in s.pc && s.pc[t].Registered? ==> LastStatus(s.log).Some?
  }

  /** Every subscriber has a channel of its own. */
  ghost predicate ChannelsOwned(s: State) {
    forall t, u :: t in s.pc && u in s.pc && t != u && !s.pc[t].Idle? && !s.pc[u].Idle? ==> s.pc[t].ch != s.pc[u].ch
  }

  /**
   A newcomer has read nothing, has only broadcasts in its channel, and is to be shown the last status
   before it came.
   */
  ghost predicate NewcomerSound(s: State, ch: Chan, replay: Frame) {
    && ch in s.lives && s.lives[ch].since <= |s.log|
    && s.lives[ch].received == [] && s.lives[ch].replays == 0
    && (forall p :: p in s.lives[ch].puts ==> p.Sent?)
    && LastStatus(s.log[..s.lives[ch].since]) == Some(replay)
  }

  ghost predicate NewcomersSound(s: State) {
    forall t :: t in s.pc && s.pc[t].Registered? ==> NewcomerSound(s, s.pc[t].ch, s.pc[t].replay)
  }

  ghost predicate ChannelSound(s: State, ch: Chan)
    requires ch in s.lives && ch in s.buffers
  {
    LifeSound(s, ch) && StreamSound(s, ch) && CountSound(s, ch)
  }

  ghost predicate Inv(s: State) {
    && ChannelsSound(s) && ReplaysSound(s) && ChannelsOwned(s) && NewcomersSound(s)
    && forall ch :: ch in s.lives ==> ch in s.buffers && ChannelSound(s, ch)
  }

  lemma InitialInv(bufferSize: nat, threads: set<Tid>)
    ensures Inv(Initial(bufferSize, threads))
  {
  }

  // ----- the channels

  ghost predicate SameSubscribers(s: State, n: State) {
    && n.subs == s.subs && n.closed == s.closed && n.retained == s.retained && n.log == s.log
    && (n.lock.Sending? ==> s.lock.Sending? && n.lock.todo <= s.lock.todo)
    && forall t :: t in n.pc && !n.pc[t].Idle? ==> t in s.pc && !s.pc[t].Idle? && s.pc[t].ch == n.pc[t].ch
  }

  lemma ChannelsTouched(s: State, n: State, ch: Chan)
    requires ChannelsSound(s) && SameSubscribers(s, n) && ch in s.lives && ch in n.lives && ch in n.buffers
    requires n.lives == s.lives[ch := n.lives[ch]] && n.buffers == s.buffers[ch := n.buffers[ch]]
    requires n.lives[ch].closes == s.lives[ch].closes && n.lives[ch].until == s.lives[ch].until
    ensures ChannelsSound(n)
  {
  }

  lemma ChannelsFrame(s: State, n: State)
    requires ChannelsSound(s) && SameSubscribers(s, n) && n.lives == s.lives && n.buffers == s.buffers
    ensures ChannelsSound(n)
  {
  }

  lemma ChannelsOfSubscribe(s: State, step: Step)
    requires ChannelsSound(s) && Enabled(s, step) && step.Subscribe?
    ensures ChannelsSound(Next(s, step))
  {
  }

  lemma ChannelsOfCancel(s: State, step: Step)
    requires ChannelsSound(s) && Enabled(s, step) && step.CancelSub?
    ensures ChannelsSound(Next(s, step))
  {
  }

  lemma ChannelsOfClose(s: State)
    requires ChannelsSound(s) && Enabled(s, CloseHub)
    ensures ChannelsSound(Next(s, CloseHub))
  {
  }

  lemma ChannelsOfBroadcast(s: State, f: Frame)
    requires ChannelsSound(s) && Enabled(s, Broadcast(f))
    ensures ChannelsSound(Next(s, Broadcast(f)))
  {
    assert (s.log + [f])[..|s.log|] == s.log;
  }

  lemma StepKeepsChannels(s: State, step: Step)
    requires ChannelsSound(s) && Enabled(s, step)
    ensures ChannelsSound(Next(s, step))
  {
    hide ChannelsSound, Offered, LastStatus;
    var n := Next(s, step);
    match step
    case Broadcast(f) => ChannelsOfBroadcast(s, f);
    case Send(ch) => ChannelsTouched(s, n, ch);
    case Subscribe(_, _) => ChannelsOfSubscribe(s, step);
    case Replay(t) => 
      if |s.buffers[s.pc[t].ch]| < s.bufferSize { ChannelsTouched(s, n, s.pc[t].ch); } else { ChannelsFrame(s, n); }
    case Receive(t) => ChannelsTouched(s, n, s.pc[t].ch);
    case CancelSub(_) => ChannelsOfCancel(s, step);
    case CloseHub => ChannelsOfClose(s);
    case _ => ChannelsFrame(s, n);
  }

  /** The steps of the relay loop and of a closer, as against those of the subscribers. */
  predicate ByHub(step: Step) {
    step.Broadcast? || step.Send? || step.EndBroadcast? || step.UpstreamEnds? || step.CloseHub?
  }

  // ----- what a channel was offered

  lemma LifeAfterSend(s: State, ch: Chan)
    requires ChannelsSound(s) && Enabled(s, Send(ch)) && LifeSound(s, ch)
    ensures LifeSound(Next(s, Send(ch)), ch)
  {
    var n, l, last := Next(s, Send(ch)), s.lives[ch], |s.log| - 1;
    assert l.until == None;
    assert Sent(last) in n.lives[ch].puts || last in n.lives[ch].missed;
    assert forall i :: Offers(n, ch, i) <==> Offers(s, ch, i) || i == last;
    forall a | 0 <= a < |l.puts| && l.puts[a].Sent? ensures l.puts[a].index < last {
      assert Sent(l.puts[a].index) in l.puts;
    }
  }

  /** What happens to other channels, and reading, leave a life as it was. */
  lemma LifeFrame(s: State, n: State, ch: Chan)
    requires ch in s.lives && LifeSound(s, ch) && ch in n.lives && n.log == s.log
    requires n.lives[ch] == s.lives[ch].(received := n.lives[ch].received)
    requires n.lock.Sending? ==> s.lock.Sending?
    requires (n.lock.Sending? && ch in n.lock.todo) <==> (s.lock.Sending? && ch in s.lock.todo)
    ensures LifeSound(n, ch)
  {
    assert forall i :: Offers(n, ch, i) <==> Offers(s, ch, i);
  }

  lemma LifeAfterBroadcast(s: State, n: State, ch: Chan, f: Frame)
    requires ChannelsSound(s) && ch in s.lives && LifeSound(s, ch) && s.lock.Free?
    requires n.log == s.log + [f] && n.lives == s.lives && n.lock == Sending(s.subs)
    ensures LifeSound(n, ch)
  {
    assert forall i :: Offers(n, ch, i) <==> Offers(s, ch, i);
  }

  lemma LifeAfterReplay(s: State, n: State, ch: Chan, f: Frame)
    requires ch in s.lives && LifeSound(s, ch) && ch in n.lives && n.log == s.log && n.lock == s.lock
    requires n.lives[ch] == s.lives[ch].(puts := s.lives[ch].puts + [Replayed(f)], replays := s.lives[ch].replays + 1)
    ensures LifeSound(n, ch)
  {
    assert forall i :: Offers(n, ch, i) <==> Offers(s, ch, i);
    assert forall i :: Sent(i) in n.lives[ch].puts <==> Sent(i) in s.lives[ch].puts;
  }

  lemma LifeAfterEnd(s: State, n: State, ch: Chan)
    requires ch in s.lives && LifeSound(s, ch) && s.lives[ch].until == None && s.lock.Free?
    requires n.log == s.log && n.lock == s.lock && ch in n.lives && n.lives[ch] == TakenOut(s, s.lives[ch])
    ensures LifeSound(n, ch)
  {
    assert forall i :: Offers(n, ch, i) <==> Offers(s, ch, i);
  }

  lemma StepKeepsLifeByHub(s: State, step: Step, ch: Chan)
    requires ChannelsSound(s) && Enabled(s, step) && ch in Next(s, step).lives && (ch in s.lives ==> LifeSound(s, ch))
    requires ByHub(step)
    ensures LifeSound(Next(s, step), ch)
  {
    hide LifeSound, Offered, LastStatus;
    var n := Next(s, step);
    match step
    case Broadcast(f) => LifeAfterBroadcast(s, n, ch, f);
    case Send(to) => if to == ch { LifeAfterSend(s, ch); } else { LifeFrame(s, n, ch); }
    case CloseHub => if ch in s.subs { LifeAfterEnd(s, n, ch); } else { LifeFrame(s, n, ch); }
    case _ => LifeFrame(s, n, ch);
  }

  lemma StepKeepsLifeBySubscriber(s: State, step: Step, ch: Chan)
    requires ChannelsSound(s) && Enabled(s, step) && ch in Next(s, step).lives && (ch in s.lives ==> LifeSound(s, ch))
    requires !ByHub(step)
    ensures LifeSound(Next(s, step), ch)
  {
    hide LifeSound, Offered, LastStatus;
    var n := Next(s, step);
    match step
    case Subscribe(_, newcomer) => if newcomer == ch { LifeOfNewcomer(n, ch); } else { LifeFrame(s, n, ch); }
    case Replay(t) =>
      if s.pc[t].ch == ch && |s.buffers[ch]| < s.bufferSize {
        LifeAfterReplay(s, n, ch, s.pc[t].replay);
      } else {
        LifeFrame(s, n, ch);
      }
    case CancelSub(t) => if s.pc[t].ch == ch && ch in s.subs { LifeAfterEnd(s, n, ch); } else { LifeFrame(s, n, ch); }
    case _ => LifeFrame(s, n, ch);
  }

  lemma StepKeepsLife(s: State, step: Step, ch: Chan)
    requires ChannelsSound(s) && Enabled(s, step) && ch in Next(s, step).lives && (ch in s.lives ==> LifeSound(s, ch))
    ensures LifeSound(Next(s, step), ch)
  {
    hide ChannelsSound, LifeSound;
    if ByHub(step) { StepKeepsLifeByHub(s, step, ch); } else { StepKeepsLifeBySubscriber(s, step, ch); }
  }

  lemma LifeOfNewcomer(n: State, ch: Chan)
    requires ch in n.lives && n.lives[ch] == Life(|n.log|, [], 0, {}, [], 0, None) && n.lock.Free?
    ensures LifeSound(n, ch)
  {
  }

  // ----- what went through a channel

  lemma {:induction false} ContentKept(log: seq<Frame>, f: Frame, puts: seq<Put>)
    requires forall i: nat :: Sent(i) in puts ==> i < |log|
    ensures Content(log + [f], puts) == Content(log, puts)
  {
    if puts != [] {
      var p := puts[|puts| - 1];
      assert puts == puts[..|puts| - 1] + [p];
      ContentKept(log, f, puts[..|puts| - 1]);
    }
  }

  lemma ContentAppend(log: seq<Frame>, puts: seq<Put>, p: Put)
    requires p.Sent? ==> p.index < |log|
    ensures Content(log, puts + [p]) == Content(log, puts) + [if p.Replayed? then p.frame else log[p.index]]
  {
    assert (puts + [p])[..|puts|] == puts;
  }

  lemma {:induction false} ContentSize(log: seq<Frame>, puts: seq<Put>)
    ensures |Content(log, puts)| == |puts|
  {
    if puts != [] { ContentSize(log, puts[..|puts| - 1]); }
  }

  lemma SentWasRelayed(s: State, ch: Chan)
    requires ch in s.lives && LifeSound(s, ch)
    ensures forall i: nat :: Sent(i) in s.lives[ch].puts ==> i < |s.log|
  {
    forall i: nat | Sent(i) in s.lives[ch].puts ensures i < |s.log| {
      assert Offers(s, ch, i);
    }
  }

  lemma StreamGrows(s: State, n: State, ch: Chan, p: Put)
    requires ch in s.lives && ch in s.buffers && StreamSound(s, ch) && n.bufferSize == s.bufferSize
    requires |s.buffers[ch]| < s.bufferSize && n.log == s.log && (p.Sent? ==> p.index < |s.log|)
    requires ch in n.lives && ch in n.buffers
    requires n.lives[ch].received == s.lives[ch].received && n.lives[ch].puts == s.lives[ch].puts + [p]
    requires n.buffers[ch] == s.buffers[ch] + [if p.Replayed? then p.frame else s.log[p.index]]
    ensures StreamSound(n, ch)
  {
    ContentAppend(s.log, s.lives[ch].puts, p);
  }

  lemma StreamFrame(s: State, n: State, ch: Chan)
    requires ch in s.lives && ch in s.buffers && StreamSound(s, ch) && n.bufferSize == s.bufferSize && n.log == s.log
    requires ch in n.lives && ch in n.buffers && n.lives[ch].puts == s.lives[ch].puts
    requires n.lives[ch].received == s.lives[ch].received && n.buffers[ch] == s.buffers[ch]
    ensures StreamSound(n, ch)
  {
  }

  lemma StreamAfterBroadcast(s: State, n: State, ch: Chan, f: Frame)
    requires ch in s.lives && ch in s.buffers && StreamSound(s, ch) && LifeSound(s, ch)
    requires n.bufferSize == s.bufferSize && n.log == s.log + [f] && n.lives == s.lives && n.buffers == s.buffers
    ensures StreamSound(n, ch)
  {
    SentWasRelayed(s, ch);
    ContentKept(s.log, f, s.lives[ch].puts);
  }

  lemma StreamAfterReceive(s: State, n: State, ch: Chan)
    requires ch in s.lives && ch in s.buffers && StreamSound(s, ch) && n.bufferSize == s.bufferSize && n.log == s.log
    requires s.buffers[ch] != [] && ch in n.lives && ch in n.buffers && n.buffers[ch] == s.buffers[ch][1..]
    requires n.lives[ch] == s.lives[ch].(received := s.lives[ch].received + [s.buffers[ch][0]])
    ensures StreamSound(n, ch)
  {
  }

  lemma StepKeepsStreamByHub(s: State, step: Step, ch: Chan)
    requires ChannelsSound(s) && Enabled(s, step) && ch in Next(s, step).lives && ch in Next(s, step).buffers
    requires ch in s.lives ==> LifeSound(s, ch) && StreamSound(s, ch)
    requires ByHub(step)
    ensures StreamSound(Next(s, step), ch)
  {
    hide LifeSound, StreamSound, LastStatus;
    var n := Next(s, step);
    match step
    case Broadcast(f) => StreamAfterBroadcast(s, n, ch, f);
    case Send(to) =>
      if to == ch && |s.buffers[ch]| < s.bufferSize {
        StreamGrows(s, n, ch, Sent(|s.log| - 1));
      } else {
        StreamFrame(s, n, ch);
      }
    case _ => StreamFrame(s, n, ch);
  }

  lemma StepKeepsStreamBySubscriber(s: State, step: Step, ch: Chan)
    requires ChannelsSound(s) && Enabled(s, step) && ch in Next(s, step).lives && ch in Next(s, step).buffers
    requires ch in s.lives ==> LifeSound(s, ch) && StreamSound(s, ch)
    requires !ByHub(step)
    ensures StreamSound(Next(s, step), ch)
  {
    hide LifeSound, StreamSound, LastStatus;
    var n := Next(s, step);
    match step
    case Subscribe(_, newcomer) => if newcomer == ch { StreamOfNewcomer(n, ch); } else { StreamFrame(s, n, ch); }
    case Replay(t) =>
      if s.pc[t].ch == ch && |s.buffers[ch]| < s.bufferSize {
        StreamGrows(s, n, ch, Replayed(s.pc[t].replay));
      } else {
        StreamFrame(s, n, ch);
      }
    case Receive(t) => if s.pc[t].ch == ch { StreamAfterReceive(s, n, ch); } else { StreamFrame(s, n, ch); }
    case _ => StreamFrame(s, n, ch);
  }

  lemma StepKeepsStream(s: State, step: Step, ch: Chan)
    requires ChannelsSound(s) && Enabled(s, step) && ch in Next(s, step).lives && ch in Next(s, step).buffers
    requires ch in s.lives ==> LifeSound(s, ch) && StreamSound(s, ch)
    ensures StreamSound(Next(s, step), ch)
  {
    hide ChannelsSound, LifeSound, StreamSound;
    if ByHub(step) { StepKeepsStreamByHub(s, step, ch); } else { StepKeepsStreamBySubscriber(s, step, ch); }
  }

  lemma StreamOfNewcomer(n: State, ch: Chan)
    requires ch in n.lives && ch in n.buffers && n.lives[ch].puts == [] && n.lives[ch].received == []
    requires n.buffers[ch] == []
    ensures StreamSound(n, ch)
  {
  }

  // ----- how much a channel can have missed

  lemma StatusStays(log: seq<Frame>, f: Frame)
    ensures LastStatus(log).Some? || f.status ==> LastStatus(log + [f]).Some?
  {
    assert (log + [f])[..|log|] == log;
  }

  lemma CountAfterSend(s: State, ch: Chan)
    requires ChannelsSound(s) && Enabled(s, Send(ch)) && ChannelSound(s, ch)
    ensures CountSound(Next(s, Send(ch)), ch)
  {
    var l, last := s.lives[ch], |s.log| - 1;
    ContentSize(s.log, l.puts);
    assert l.until == None;
    assert last !in l.missed by { assert !Offers(s, ch, last); }
  }

  lemma CountFrame(s: State, n: State, ch: Chan)
    requires ch in s.lives && CountSound(s, ch) && ch in n.lives && n.bufferSize == s.bufferSize && n.log == s.log
    requires n.lives[ch] == s.lives[ch].(received := n.lives[ch].received)
    requires (n.lock.Sending? && ch in n.lock.todo) <==> (s.lock.Sending? && ch in s.lock.todo)
    ensures CountSound(n, ch)
  {
  }

  lemma CountAfterBroadcast(s: State, n: State, ch: Chan, f: Frame)
    requires ChannelsSound(s) && ch in s.lives && CountSound(s, ch) && s.lock.Free? && n.bufferSize == s.bufferSize
    requires n.log == s.log + [f] && n.lives == s.lives && n.lock == Sending(s.subs)
    ensures CountSound(n, ch)
  {
    StatusStays(s.log, f);
  }

  lemma CountAfterReplay(s: State, n: State, ch: Chan, f: Frame)
    requires ch in s.lives && CountSound(s, ch) && ch in n.lives && n.log == s.log && n.lock == s.lock
    requires n.bufferSize == s.bufferSize
    requires LastStatus(s.log).Some?
    requires n.lives[ch] == s.lives[ch].(puts := s.lives[ch].puts + [Replayed(f)], replays := s.lives[ch].replays + 1)
    ensures CountSound(n, ch)
  {
  }

  lemma CountAfterEnd(s: State, n: State, ch: Chan)
    requires ch in s.lives && CountSound(s, ch) && s.lives[ch].until == None && s.lock.Free?
    requires n.bufferSize == s.bufferSize
    requires n.log == s.log && n.lock == s.lock && ch in n.lives && n.lives[ch] == TakenOut(s, s.lives[ch])
    ensures CountSound(n, ch)
  {
  }

  lemma CountOfNewcomer(n: State, ch: Chan)
    requires ch in n.lives && n.lives[ch] == Life(|n.log|, [], 0, {}, [], 0, None) && n.lock.Free?
    ensures CountSound(n, ch)
  {
  }

  lemma StepKeepsCountByHub(s: State, step: Step, ch: Chan)
    requires ChannelsSound(s) && ReplaysSound(s) && Enabled(s, step) && ch in Next(s, step).lives
    requires ch in s.lives ==> ChannelSound(s, ch)
    requires ByHub(step)
    ensures CountSound(Next(s, step), ch)
  {
    hide LifeSound, StreamSound, CountSound, Offered, LastStatus;
    var n := Next(s, step);
    match step
    case Broadcast(f) => CountAfterBroadcast(s, n, ch, f);
    case Send(to) => if to == ch { CountAfterSend(s, ch); } else { CountFrame(s, n, ch); }
    case CloseHub => if ch in s.subs { CountAfterEnd(s, n, ch); } else { CountFrame(s, n, ch); }
    case _ => CountFrame(s, n, ch);
  }

  lemma StepKeepsCountBySubscriber(s: State, step: Step, ch: Chan)
    requires ChannelsSound(s) && ReplaysSound(s) && Enabled(s, step) && ch in Next(s, step).lives
    requires ch in s.lives ==> ChannelSound(s, ch)
    requires !ByHub(step)
    ensures CountSound(Next(s, step), ch)
  {
    hide LifeSound, StreamSound, CountSound, Offered, LastStatus;
    var n := Next(s, step);
    match step
    case Subscribe(_, newcomer) => if newcomer == ch { CountOfNewcomer(n, ch); } else { CountFrame(s, n, ch); }
    case Replay(t) =>
      if s.pc[t].ch == ch && |s.buffers[ch]| < s.bufferSize {
        CountAfterReplay(s, n, ch, s.pc[t].replay);
      } else {
        CountFrame(s, n, ch);
      }
    case CancelSub(t) => if s.pc[t].ch == ch && ch in s.subs { CountAfterEnd(s, n, ch); } else { CountFrame(s, n, ch); }
    case _ => CountFrame(s, n, ch);
  }

  lemma StepKeepsCount(s: State, step: Step, ch: Chan)
    requires ChannelsSound(s) && ReplaysSound(s) && Enabled(s, step) && ch in Next(s, step).lives
    requires ch in s.lives ==> ChannelSound(s, ch)
    ensures CountSound(Next(s, step), ch)
  {
    hide ChannelsSound, ReplaysSound, ChannelSound, CountSound;
    if ByHub(step) { StepKeepsCountByHub(s, step, ch); } else { StepKeepsCountBySubscriber(s, step, ch); }
  }

  lemma StepKeepsReplays(s: State, step: Step)
    requires ChannelsSound(s) && ReplaysSound(s) && Enabled(s, step)
    ensures ReplaysSound(Next(s, step))
  {
    hide LastStatus;
    if step.Broadcast? { StatusStays(s.log, step.f); }
  }

  lemma StepKeepsOwned(s: State, step: Step)
    requires ChannelsSound(s) && ChannelsOwned(s) && Enabled(s, step)
    ensures ChannelsOwned(Next(s, step))
  {
    hide LastStatus;
  }

  /** What others do to a newcomer's channel: they send to it, or take it out. */
  ghost predicate NewcomerUntouched(s: State, n: State, ch: Chan)
    requires ch in s.lives
  {
    && ch in n.lives && s.log <= n.log
    && n.lives[ch].since == s.lives[ch].since
    && n.lives[ch].received == s.lives[ch].received && n.lives[ch].replays == s.lives[ch].replays
    && (n.lives[ch].puts == s.lives[ch].puts || exists i: nat :: n.lives[ch].puts == s.lives[ch].puts + [Sent(i)])
  }

  lemma NewcomerStaysSound(s: State, n: State, ch: Chan, replay: Frame)
    requires NewcomerSound(s, ch, replay) && NewcomerUntouched(s, n, ch)
    ensures NewcomerSound(n, ch, replay)
  {
    assert n.log[..s.lives[ch].since] == s.log[..s.lives[ch].since];
  }

  lemma HubLeavesNewcomerAlone(s: State, step: Step, t: Tid)
    requires ChannelsSound(s) && Enabled(s, step) && ByHub(step) && t in s.pc && s.pc[t].Registered?
    ensures s.pc[t].ch in s.lives && NewcomerUntouched(s, Next(s, step), s.pc[t].ch)
    ensures t in Next(s, step).pc && Next(s, step).pc[t] == s.pc[t]
  {
    hide LastStatus;
  }

  lemma SubscribersLeaveNewcomerAlone(s: State, step: Step, t: Tid)
    requires ChannelsSound(s) && ChannelsOwned(s) && Enabled(s, step) && !ByHub(step)
    requires t in s.pc && s.pc[t].Registered? && step != Replay(t)
    ensures s.pc[t].ch in s.lives && NewcomerUntouched(s, Next(s, step), s.pc[t].ch)
    ensures t in Next(s, step).pc && Next(s, step).pc[t] == s.pc[t]
  {
    hide LastStatus;
  }

  lemma OthersLeaveNewcomerAlone(s: State, step: Step, t: Tid)
    requires ChannelsSound(s) && ChannelsOwned(s) && Enabled(s, step)
    requires t in s.pc && s.pc[t].Registered? && step != Replay(t)
    ensures s.pc[t].ch in s.lives && NewcomerUntouched(s, Next(s, step), s.pc[t].ch)
    ensures t in Next(s, step).pc && Next(s, step).pc[t] == s.pc[t]
  {
    hide ChannelsSound, ChannelsOwned, NewcomerUntouched, Next;
    if ByHub(step) { HubLeavesNewcomerAlone(s, step, t); } else { SubscribersLeaveNewcomerAlone(s, step, t); }
  }

  lemma NewcomerBegins(s: State, step: Step)
    requires ChannelsSound(s) && Enabled(s, step) && step.Subscribe? && s.retained.Some?
    ensures NewcomerSound(Next(s, step), step.ch, s.retained.value)
  {
    assert s.log[..|s.log|] == s.log;
  }

  lemma StepKeepsNewcomers(s: State, step: Step)
    requires ChannelsSound(s) && ChannelsOwned(s) && NewcomersSound(s) && Enabled(s, step)
    ensures NewcomersSound(Next(s, step))
  {
    hide ChannelsSound, ChannelsOwned, NewcomerSound, NewcomerUntouched;
    var n := Next(s, step);
    forall t | t in n.pc && n.pc[t].Registered? ensures NewcomerSound(n, n.pc[t].ch, n.pc[t].replay) {
      if t in s.pc && s.pc[t].Registered? && step != Replay(t) {
        OthersLeaveNewcomerAlone(s, step, t);
        NewcomerStaysSound(s, n, s.pc[t].ch, s.pc[t].replay);
      } else {
        NewcomerBegins(s, step);
      }
    }
  }

  lemma StepKeepsInv(s: State, step: Step)
    requires Inv(s) && Enabled(s, step)
    ensures Inv(Next(s, step))
  {
    hide ChannelsSound, ReplaysSound, ChannelsOwned, NewcomersSound, LifeSound, StreamSound, CountSound, Next;
    var n := Next(s, step);
    StepKeepsChannels(s, step);
    StepKeepsReplays(s, step);
    StepKeepsOwned(s, step);
    StepKeepsNewcomers(s, step);
    BuffersOfLives(n);
    BuffersOfLives(s);
    forall ch | ch in n.lives ensures ChannelSound(n, ch) {
      StepKeepsLife(s, step, ch);
      StepKeepsStream(s, step, ch);
      StepKeepsCount(s, step, ch);
    }
  }

  lemma BuffersOfLives(s: State)
    requires ChannelsSound(s)
    ensures s.buffers.Keys == s.lives.Keys
  {
  }
}
