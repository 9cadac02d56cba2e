/** What holds of the hub in every reachable state, and the two runs that show where replay falls short. */
module HubSafety {
  import opened Common
  import opened Hubs
  import opened HubProtocol

  ghost predicate Legal(s: State, steps: seq<Step>)
    decreases steps, 0
  {
    steps != [] ==>
      Legal(s, steps[..|steps| - 1]) && Enabled(After(s, steps[..|steps| - 1]), steps[|steps| - 1])
  }

  ghost function After(s: State, steps: seq<Step>): State
    requires Legal(s, steps)
    decreases steps, 1
  {
    if steps == [] then s else Next(After(s, steps[..|steps| - 1]), steps[|steps| - 1])
  }

  ghost predicate Reachable(s: State) {
    exists bufferSize: nat, threads: set<Tid>, steps: seq<Step> ::
      Legal(Initial(bufferSize, threads), steps) && s == After(Initial(bufferSize, threads), steps)
  }

  lemma {:induction false} RunKeepsInv(s: State, steps: seq<Step>)
    requires Inv(s) && Legal(s, steps)
    ensures Inv(After(s, steps))
  {
    hide Inv;
    if steps != [] {
      RunKeepsInv(s, steps[..|steps| - 1]);
      StepKeepsInv(After(s, steps[..|steps| - 1]), steps[|steps| - 1]);
    }
  }

  lemma ReachableIsInv(s: State)
    requires Reachable(s)
    ensures Inv(s)
  {
    hide Inv;
    var bufferSize: nat, threads: set<Tid>, steps: seq<Step> :|
      Legal(Initial(bufferSize, threads), steps) && s == After(Initial(bufferSize, threads), steps);
    InitialInv(bufferSize, threads);
    RunKeepsInv(Initial(bufferSize, threads), steps);
  }

  // ----- closing

  lemma EachChannelIsClosedAtMostOnce(s: State, ch: Chan)
    requires Reachable(s) && ch in s.lives
    ensures s.lives[ch].closes <= 1 && (s.lives[ch].closes == 1 <==> ch in s.closed)
    ensures (ch in s.closed <==> ch !in s.subs)
  {
    hide Reachable, LifeSound, StreamSound, CountSound;
    ReachableIsInv(s);
  }

  /** Nothing panics but the replay, and that exactly when the hub was closed under the newcomer's feet. */
  lemma OnlyReplayPanics(s: State, step: Step)
    requires Reachable(s) && Enabled(s, step)
    ensures Panics(s, step) <==> step.Replay? && s.pc[step.t].ch !in s.subs
  {
    hide Reachable, LifeSound, StreamSound, CountSound;
    ReachableIsInv(s);
  }

  predicate HubClosed(steps: seq<Step>) {
    exists i :: 0 <= i < |steps| && steps[i].CloseHub?
  }

  /** Between a subscriber's registration and its replay only the closing of the hub takes its channel out. */
  lemma {:induction false} NewcomerStaysUntilClosed(s: State, t: Tid, later: seq<Step>)
    requires Inv(s) && t in s.pc && s.pc[t].Registered? && s.pc[t].ch in s.subs
    requires Legal(s, later) && Replay(t) !in later
    ensures var e := After(s, later); t in e.pc && e.pc[t] == s.pc[t] && (e.pc[t].ch in e.subs <==> !HubClosed(later))
  {
    if later != [] {
      var k := |later| - 1;
      var before, step := After(s, later[..k]), later[k];
      NewcomerStaysUntilClosed(s, t, later[..k]);
      RunKeepsInv(s, later[..k]);
      ClosedSplit(later);
      hide Legal, After, HubClosed, LifeSound, StreamSound, CountSound;
      OneMoreStep(before, step, t);
    }
  }

  lemma ClosedSplit(steps: seq<Step>)
    requires steps != []
    ensures HubClosed(steps) <==> HubClosed(steps[..|steps| - 1]) || steps[|steps| - 1].CloseHub?
  {
    if HubClosed(steps[..|steps| - 1]) {
      var i :| 0 <= i < |steps| - 1 && steps[..|steps| - 1][i].CloseHub?;
      assert steps[i].CloseHub?;
    }
    if i :| 0 <= i < |steps| && steps[i].CloseHub? && i < |steps| - 1 {
      assert steps[..|steps| - 1][i].CloseHub?;
    }
  }

  lemma OneMoreStep(s: State, step: Step, t: Tid)
    requires ChannelsSound(s) && ChannelsOwned(s) && Enabled(s, step) && t in s.pc && s.pc[t].Registered?
    requires step != Replay(t)
    ensures t in Next(s, step).pc && Next(s, step).pc[t] == s.pc[t]
    ensures s.pc[t].ch in Next(s, step).subs <==> s.pc[t].ch in s.subs && !step.CloseHub?
  {
    hide LastStatus;
  }

  /** A newcomer's replay panics exactly if the hub was closed since it registered. */
  lemma ReplayPanicsIffClosedSince(s: State, t: Tid, later: seq<Step>)
    requires Reachable(s) && t in s.pc && s.pc[t].Registered? && s.pc[t].ch in s.subs
    requires Legal(s, later) && Replay(t) !in later
    ensures var e := After(s, later); Enabled(e, Replay(t)) && (Panics(e, Replay(t)) <==> HubClosed(later))
  {
    hide Reachable, HubClosed, LifeSound, StreamSound, CountSound;
    ReachableIsInv(s);
    NewcomerStaysUntilClosed(s, t, later);
    RunKeepsInv(s, later);
    hide Legal, After;
  }

  // ----- delivery

  /**
   Every broadcast a channel was offered was put in or missed, never both, and no other: those from
   its registration up to its end, or up to now, but for one the relay loop is just about to offer.
   */
  lemma EveryBroadcastIsPutOrMissed(s: State, ch: Chan, i: nat)
    requires Reachable(s) && ch in s.lives
    ensures Offers(s, ch, i) <==> i in s.lives[ch].missed || Sent(i) in s.lives[ch].puts
    ensures !(i in s.lives[ch].missed && Sent(i) in s.lives[ch].puts)
    ensures s.lives[ch].until == None <==> ch in s.subs
  {
    hide Reachable, StreamSound, CountSound;
    ReachableIsInv(s);
    assert LifeSound(s, ch);
  }

  lemma BroadcastsArriveInOrder(s: State, ch: Chan, a: nat, b: nat)
    requires Reachable(s) && ch in s.lives && a < b < |s.lives[ch].puts|
    requires s.lives[ch].puts[a].Sent? && s.lives[ch].puts[b].Sent?
    ensures s.lives[ch].puts[a].index < s.lives[ch].puts[b].index < |s.log|
  {
    hide Reachable, StreamSound, CountSound;
    ReachableIsInv(s);
    assert LifeSound(s, ch);
    SentWasRelayed(s, ch);
    assert Sent(s.lives[ch].puts[b].index) in s.lives[ch].puts;
  }

  /** A broadcast is missed only by a channel that is full at that very moment. */
  lemma MissedOnlyWhenFull(s: State, step: Step, ch: Chan, i: nat)
    requires Reachable(s) && Enabled(s, step) && ch in s.lives && ch in Next(s, step).lives
    requires i in Next(s, step).lives[ch].missed && i !in s.lives[ch].missed
    ensures step == Send(ch) && i == |s.log| - 1 && ch in s.buffers && |s.buffers[ch]| == s.bufferSize
  {
    hide Reachable, LifeSound, CountSound;
    ReachableIsInv(s);
    assert StreamSound(s, ch);
  }

  /** What a subscriber has read is the beginning of what was put into its channel. */
  lemma ReadsWhatWasPut(s: State, ch: Chan)
    requires Reachable(s) && ch in s.lives
    ensures ch in s.buffers && s.lives[ch].received + s.buffers[ch] == Content(s.log, s.lives[ch].puts)
  {
    hide Reachable, LifeSound, CountSound;
    ReachableIsInv(s);
    assert StreamSound(s, ch);
  }

  /** Of a stream without status frames nobody misses anything that fits into the buffer, however slowly it reads. */
  lemma NothingMissedWithinBuffer(s: State, ch: Chan)
    requires Reachable(s) && ch in s.lives && LastStatus(s.log) == None
    requires |s.log| <= s.lives[ch].since + s.bufferSize
    ensures s.lives[ch].missed == {}
  {
    hide Reachable, StreamSound;
    ReachableIsInv(s);
    assert CountSound(s, ch) && LifeSound(s, ch);
    MissedWasRelayed(s, ch);
  }

  lemma MissedWasRelayed(s: State, ch: Chan)
    requires ch in s.lives && LifeSound(s, ch)
    ensures forall i :: i in s.lives[ch].missed ==> i < |s.log|
  {
    forall i | i in s.lives[ch].missed ensures i < |s.log| {
      assert Offers(s, ch, i);
    }
  }

  // ----- the replay happens without the lock

  /** A newcomer whose replay is still to come. */
  lemma NewcomerFacts(s: State, t: Tid)
    requires Reachable(s) && t in s.pc && s.pc[t].Registered?
    ensures s.pc[t].ch in s.lives && s.pc[t].ch in s.buffers && NewcomerSound(s, s.pc[t].ch, s.pc[t].replay)
    ensures LifeSound(s, s.pc[t].ch) && StreamSound(s, s.pc[t].ch)
  {
    hide Reachable, LifeSound, StreamSound, CountSound;
    ReachableIsInv(s);
  }

  /** The replay is what the newcomer reads first, exactly unless some broadcast has got into its channel before. */
  lemma ReplayComesFirstIffNothingWasSent(s: State, t: Tid)
    requires Reachable(s) && Enabled(s, Replay(t)) && |s.buffers[s.pc[t].ch]| < s.bufferSize
    ensures var ch := s.pc[t].ch;
      && Next(s, Replay(t)).buffers[ch] == s.buffers[ch] + [s.pc[t].replay]
      && (s.buffers[ch] == [] <==> forall i: nat :: Sent(i) !in s.lives[ch].puts)
      && forall i: nat :: Sent(i) in s.lives[ch].puts ==> s.lives[ch].since <= i
  {
    hide Reachable;
    NewcomerFacts(s, t);
    var ch := s.pc[t].ch;
    ContentSize(s.log, s.lives[ch].puts);
    if s.lives[ch].puts != [] { assert Sent(s.lives[ch].puts[0].index) in s.lives[ch].puts; }
    forall i: nat | Sent(i) in s.lives[ch].puts ensures s.lives[ch].since <= i {
      assert Offers(s, ch, i);
    }
  }

  /** Frame `k` is the last status frame of the log. */
  ghost predicate IsLastStatus(log: seq<Frame>, k: nat) {
    k < |log| && log[k].status && forall i :: k < i < |log| ==> !log[i].status
  }

  lemma {:induction false} LastStatusHasAPlace(log: seq<Frame>) returns (k: nat)
    requires LastStatus(log).Some?
    ensures IsLastStatus(log, k) && log[k] == LastStatus(log).value
  {
    var n := |log| - 1;
    if log[n].status {
      k := n;
    } else {
      k := LastStatusHasAPlace(log[..n]);
      assert forall i :: 0 <= i < n ==> log[..n][i] == log[i];
    }
  }

  /**
   The replayed frame is still the last status frame, exactly unless another was relayed since the
   newcomer registered.
   */
  lemma ReplayIsCurrentIffNoStatusSince(s: State, t: Tid) returns (k: nat)
    requires Reachable(s) && t in s.pc && s.pc[t].Registered?
    ensures s.pc[t].ch in s.lives && k < s.lives[s.pc[t].ch].since <= |s.log| && s.log[k] == s.pc[t].replay
    ensures IsLastStatus(s.log, k) <==> forall i :: s.lives[s.pc[t].ch].since <= i < |s.log| ==> !s.log[i].status
  {
    hide Reachable, LifeSound, StreamSound;
    NewcomerFacts(s, t);
    var since := s.lives[s.pc[t].ch].since;
    k := LastStatusHasAPlace(s.log[..since]);
    assert forall i :: 0 <= i < since ==> s.log[..since][i] == s.log[i];
  }

  lemma Then(a: State, s: State, steps: seq<Step>, step: Step) returns (r: (State, seq<Step>))
    requires Legal(a, steps) && s == After(a, steps) && Enabled(s, step)
    ensures r == (Next(s, step), steps + [step]) && Legal(a, r.1) && r.0 == After(a, r.1)
  {
    assert (steps + [step])[..|steps|] == steps;
    r := (Next(s, step), steps + [step]);
  }

  lemma ReachableBy(bufferSize: nat, threads: set<Tid>, s: State, steps: seq<Step>)
    requires Legal(Initial(bufferSize, threads), steps) && s == After(Initial(bufferSize, threads), steps)
    ensures Reachable(s)
  {
  }

  /** A status frame was relayed, and then thread 0 subscribed; its replay is still to come. */
  lemma SubscribeAfterStatus(bufferSize: nat, f: Frame) returns (r: (State, seq<Step>))
    requires f.status
    ensures Legal(Initial(bufferSize, {0}), r.1) && r.0 == After(Initial(bufferSize, {0}), r.1)
    ensures r.0 == State(bufferSize, {0}, Some(f), Free, false, map[0 := []], {}, map[0 := Registered(0, f)], [f],
                         map[0 := Life(1, [], 0, {}, [], 0, None)])
  {
    var a := Initial(bufferSize, {0});
    assert Legal(a, []) && After(a, []) == a;
    hide Legal, After;
    r := Then(a, a, [], Broadcast(f));
    r := Then(a, r.0, r.1, EndBroadcast);
    r := Then(a, r.0, r.1, Subscribe(0, 0));
  }

  lemma CloseUnderNewcomer(bufferSize: nat, f: Frame) returns (r: (State, seq<Step>))
    requires f.status
    ensures Legal(Initial(bufferSize, {0}), r.1) && r.0 == After(Initial(bufferSize, {0}), r.1)
    ensures r.0.closed == {0} && r.0.pc == map[0 := Registered(0, f)] && 0 in r.0.buffers && 0 in r.0.lives
  {
    var a := Initial(bufferSize, {0});
    r := SubscribeAfterStatus(bufferSize, f);
    hide Legal, After;
    r := Then(a, r.0, r.1, UpstreamEnds);
    r := Then(a, r.0, r.1, CloseHub);
  }

  /** The hub closes between a subscriber's registration and its replay, which then sends on a closed channel. */
  lemma CloseBeforeReplayPanics(bufferSize: nat, f: Frame) returns (s: State)
    requires f.status
    ensures Reachable(s) && Enabled(s, Replay(0)) && Panics(s, Replay(0))
  {
    var r := CloseUnderNewcomer(bufferSize, f);
    ReachableBy(bufferSize, {0}, r.0, r.1);
    hide Reachable, Legal, After;
    s := r.0;
  }

  /** A newer status frame overtakes the replay: the subscriber reads the outdated one last. */
  lemma ReplayCanComeLate(bufferSize: nat, outdated: Frame, newer: Frame) returns (s: State)
    requires outdated.status && newer.status && bufferSize >= 2
    ensures Reachable(s) && s.retained == Some(newer) && 0 in s.buffers && s.buffers[0] == [newer, outdated]
  {
    var a := Initial(bufferSize, {0});
    var r := SubscribeAfterStatus(bufferSize, outdated);
    hide Legal, After, Reachable;
    r := Then(a, r.0, r.1, Broadcast(newer));
    r := Then(a, r.0, r.1, Send(0));
    r := Then(a, r.0, r.1, EndBroadcast);
    r := Then(a, r.0, r.1, Replay(0));
    ReachableBy(bufferSize, {0}, r.0, r.1);
    s := r.0;
  }
}
