/** A call of `reconnect` that outlives its generation. The error callback reads its token before it calls `reconnect`,
    and `reconnect` takes the lock later; a start that fails does not cancel its token at all. A call that takes the
    lock only when a later generation is connected takes that connection away. This module proves exactly when that
    leads to "transport already connected", and what state the connection is left in. */
module StaleReconnect {
  import opened Wrappers
  import opened Protocol
  import opened ProtocolInvariant
  import opened ProtocolKeepTransport
  import opened ProtocolRuns
  import opened ProtocolScenarios
  import T = Transport

  // ---- A connection nobody can revive ----

  /** A task that can neither set the event nor end a wait. */
  predicate Idle(c: Connection, t: Task) {
    || t.StopCalled? || t.StopWaiting? || t.StopFound? || t.ReconnectCalled? || t.ReconnectWaiting?
    || (t.Notifying? && t.cts in c.cancelled)
  }

  /** Reconnecting with the event unset, and nobody left to set it. */
  ghost predicate Wedged(s: World) {
    && s.c.state == Reconnecting && !s.c.event
    && (forall g | g in s.chains :: s.chains[g].phase.Settled?)
    && (forall i | i in s.tasks :: Idle(s.c, s.tasks[i]))
  }

  lemma WedgedStays(s: World, a: Action)
    requires Wedged(s) && Can(s, a)
    ensures Wedged(Do(s, a))
  {
    hide Wedged, CanStartStep, DoStartStep, CanTransportStep, DoTransportStep, CanStopStep, DoStopStep, CanReconnectStep,
      DoReconnectStep;
    match a
    case OfStart(b) => WedgedInStart(s, b);
    case OfTransport(b) => WedgedInTransport(s, b);
    case OfStop(b) => WedgedInStop(s, b);
    case OfReconnect(b) => WedgedInReconnect(s, b);
  }

  lemma WedgedInStart(s: World, a: StartStep)
    requires Wedged(s) && CanStartStep(s, a)
    ensures Wedged(DoStartStep(s, a))
  {
    hide T.DoBeginConnect, T.DoEndConnect;
  }

  lemma WedgedInTransport(s: World, a: TransportStep)
    requires Wedged(s) && CanTransportStep(s, a)
    ensures Wedged(DoTransportStep(s, a))
  {
    hide T.Do, T.Can, T.CanLoop, T.Internal;
  }

  lemma WedgedInStop(s: World, a: StopStep)
    requires Wedged(s) && CanStopStep(s, a)
    ensures Wedged(DoStopStep(s, a))
  {
    hide T.DoDisconnect;
  }

  lemma WedgedInReconnect(s: World, a: ReconnectStep)
    requires Wedged(s) && CanReconnectStep(s, a)
    ensures Wedged(DoReconnectStep(s, a))
  {
    hide T.DoBeginConnect, T.DoEndConnect, T.Live;
  }

  /** No run leaves a wedged connection: it stays reconnecting, and every `stop` that takes the lock waits for good. */
  lemma {:induction false} WedgedForGood(s: World, acts: seq<Action>, id: nat)
    requires Wedged(s) && Legal(s, acts)
    ensures Wedged(Exec(s, acts))
    ensures TaskAt(s, id, StopWaiting) ==> !Can(Exec(s, acts), OfStop(StopWakes(id)))
    decreases |acts|
  {
    if acts != [] {
      WedgedStays(s, acts[0]);
      hide Wedged;
      WedgedForGood(Do(s, acts[0]), acts[1..], id);
    }
  }

  // ---- One task at work while all others idle ----

  /** Task `id` is at `t`; the lock is free, the generation is not cancelled and its transport is in place. */
  ghost predicate Stage(s: World, id: nat, t: Task) {
    && TaskAt(s, id, t)
    && s.c.lock == None && s.c.cts !in s.c.cancelled && s.c.transport == Some(s.c.cts) && s.c.cts in s.wires
    && (forall g | g in s.chains :: s.chains[g].phase.Settled?)
    && (forall i | i in s.tasks && i != id :: Idle(s.c, s.tasks[i]) && !Holds(s.tasks[i]))
  }

  /** The current transport, not inside `connect`, with its latest loop in `m_receive_loop_cts`. */
  ghost predicate Steady(s: World) {
    && s.c.cts in s.wires
    && var w := s.wires[s.c.cts];
       !w.connecting && w.loops != [] && w.token + 1 == |w.loops|
  }

  /** From the user callback to the call of `connect`. */
  lemma ToTrying(s: World, id: nat) returns (s': World)
    requires Stage(s, id, Notifying(s.c.cts)) && s.c.state == Reconnecting && Steady(s)
    ensures Leads(s, s')
    ensures s' == s.(c := s.c.(event := false), tasks := s.tasks[id := Trying(s.c.cts, UrlOf(s.c))], built := |s.seen|)
  {
    hide Leads, Idle, Holds;
    LeadsItself(s);
    s' := ThenReconnect(s, s, ReconnectResumes(id));
    s' := ThenReconnect(s, s', BuildUrl(id));
    assert s'.tasks == s.tasks[id := Trying(s.c.cts, UrlOf(s.c))];
  }

  /** The others go on idling while task `id` moves and the shared fields they look at stay. */
  lemma StageMoves(s: World, s': World, id: nat, t: Task, t': Task)
    requires Stage(s, id, t) && s'.tasks == s.tasks[id := t'] && s'.chains == s.chains && s.c.cts in s'.wires
    requires s'.c == s.c.(state := s'.c.state, event := s'.c.event)
    ensures Stage(s', id, t')
  {
    hide Holds;
  }

  /** With a live receive loop the attempt throws, and leaves the connection wedged. */
  lemma ThrowsOnLiveLoop(s: World, id: nat) returns (s': World)
    requires Stage(s, id, Notifying(s.c.cts)) && s.c.state == Reconnecting && Steady(s) && T.Live(s.wires[s.c.cts])
    ensures Leads(s, s') && AlreadyConnected in s'.faults && Wedged(s')
  {
    hide Leads, Idle, Holds;
    var s1 := ToTrying(s, id);
    s' := ThenReconnect(s, s1, TryConnect(id));
    StageMoves(s, s1, id, Notifying(s.c.cts), s1.tasks[id]);
    assert s'.tasks == s1.tasks - {id} && s'.c == s1.c;
  }

  /** With a dead receive loop the attempt dials a new one. */
  lemma DialsOnDeadLoop(s: World, id: nat) returns (s': World, n: nat, url: Url)
    requires Stage(s, id, Notifying(s.c.cts)) && s.c.state == Reconnecting && Steady(s) && !T.Live(s.wires[s.c.cts])
    ensures Leads(s, s') && s'.c == s.c.(event := false) && s'.tasks == s.tasks[id := Dialling(s.c.cts, url, s.c.cts, n)]
    ensures Stage(s', id, Dialling(s.c.cts, url, s.c.cts, n)) && Steady(s')
    ensures n + 1 == |s'.wires[s.c.cts].loops| && s'.wires[s.c.cts].loops[n] == T.FRESH_LOOP
  {
    hide Leads, Idle, Holds, Stage;
    n, url := |s.wires[s.c.cts].loops|, UrlOf(s.c);
    InPlace(s, id, Notifying(s.c.cts));
    var s1 := ToTrying(s, id);
    s' := ThenReconnect(s, s1, TryConnect(id));
    s' := ThenReconnect(s, s', LaunchReturns(id));
    assert s'.tasks == s.tasks[id := Dialling(s.c.cts, url, s.c.cts, n)];
    StageMoves(s, s', id, Notifying(s.c.cts), s'.tasks[id]);
  }

  lemma InPlace(s: World, id: nat, t: Task)
    requires Stage(s, id, t)
    ensures TaskAt(s, id, t) && s.c.cts !in s.c.cancelled && s.c.transport == Some(s.c.cts)
  {
  }

  /** The dial succeeds: the new loop runs. */
  lemma LoopOpens(s: World, id: nat, url: Url, n: nat) returns (s': World)
    requires Stage(s, id, Dialling(s.c.cts, url, s.c.cts, n)) && Steady(s)
    requires n + 1 == |s.wires[s.c.cts].loops| && s.wires[s.c.cts].loops[n] == T.FRESH_LOOP
    ensures Leads(s, s') && s'.c == s.c && s'.tasks == s.tasks[id := Succeeding(s.c.cts)]
    ensures Stage(s', id, Succeeding(s.c.cts)) && Steady(s') && T.Live(s'.wires[s.c.cts])
  {
    hide Leads, Idle, Holds, Stage;
    InPlace(s, id, Dialling(s.c.cts, url, s.c.cts, n));
    LeadsItself(s);
    s' := ThenTransport(s, s, WireStep(s.c.cts, T.Open(n)));
    s' := ThenTransport(s, s', WireStep(s.c.cts, T.Announce(n)));
    s' := ThenReconnect(s, s', DialDone(id));
    StageMoves(s, s', id, Dialling(s.c.cts, url, s.c.cts, n), Succeeding(s.c.cts));
  }

  /** The reconnect completes: connected, with a live loop. */
  lemma Completes(s: World, id: nat) returns (s': World)
    requires Stage(s, id, Succeeding(s.c.cts)) && s.c.state == Reconnecting
    ensures Leads(s, s') && s'.wires == s.wires && s'.chains == s.chains
    ensures s'.c == s.c.(state := Connected, event := true) && s'.tasks == s.tasks - {id}
  {
    hide Leads, Idle, Holds, Stage;
    InPlace(s, id, Succeeding(s.c.cts));
    LeadsItself(s);
    s' := ThenReconnect(s, s, CompleteReconnect(id));
    s' := ThenReconnect(s, s', AnnounceReconnect(id));
    assert s'.tasks == s.tasks - {id};
  }

  /** A call of the current generation that finds a live loop takes the connection away and throws. */
  lemma SecondCallThrows(s: World, id: nat) returns (s': World)
    requires Stage(s, id, ReconnectCalled(s.c.cts)) && s.c.state == Connected && s.c.event
    requires Steady(s) && T.Live(s.wires[s.c.cts])
    ensures Leads(s, s') && AlreadyConnected in s'.faults && Wedged(s')
  {
    hide Leads, Idle, Holds, Wedged;
    LeadsItself(s);
    var s1 := ThenReconnect(s, s, ReconnectLocks(id));
    s1 := ThenReconnect(s, s1, ReconnectWakes(id));
    s1 := ThenReconnect(s, s1, ReconnectClaims(id));
    assert s1.tasks == s.tasks[id := Notifying(s.c.cts)] && s1.c == s.c.(state := Reconnecting);
    StageMoves(s, s1, id, ReconnectCalled(s.c.cts), Notifying(s.c.cts));
    s' := ThrowsOnLiveLoop(s1, id);
    LeadsOn(s, s1, s');
  }

  /** A stale call that finds a dead loop replaces it, and the rightful call then finds a live one. */
  lemma ThrowsOnDeadLoop(s: World, id: nat, other: nat) returns (s': World)
    requires Stage(s, id, Notifying(s.c.cts)) && s.c.state == Reconnecting && Steady(s) && !T.Live(s.wires[s.c.cts])
    requires other != id && TaskAt(s, other, ReconnectCalled(s.c.cts))
    ensures Leads(s, s') && AlreadyConnected in s'.faults && Wedged(s')
  {
    hide Leads, Idle, Holds, Wedged, Stage, T.Live;
    var s1, n, url := DialsOnDeadLoop(s, id);
    var s2 := LoopOpens(s1, id, url, n);
    LeadsOn(s, s1, s2);
    var s3 := Completes(s2, id);
    LeadsOn(s, s2, s3);
    HandsOver(s2, s3, id, other, Succeeding(s.c.cts));
    s' := SecondCallThrows(s3, other);
    LeadsOn(s, s3, s');
  }

  /** Task `id` is done and the next one has the stage. */
  lemma HandsOver(s: World, s': World, id: nat, other: nat, t: Task)
    requires Stage(s, id, t) && other != id && other in s.tasks && s'.tasks == s.tasks - {id} && s'.chains == s.chains
    requires s'.c == s.c.(state := s'.c.state, event := s'.c.event) && s'.wires == s.wires
    ensures Stage(s', other, s.tasks[other])
  {
    hide Holds;
  }

  // ---- Exactly when ----

  /** After task `id` has taken the connection away, some proper run ends in "transport already connected" and a
      connection nobody can revive. */
  ghost predicate Ruins(s: World, id: nat)
    requires CanReconnectClaims(s, id)
  {
    exists s' :: Leads(DoReconnectClaims(s, id), s') && AlreadyConnected in s'.faults && Wedged(s')
  }

  /** The world right after a call took a connected connection away. */
  lemma Claimed(s: World, id: nat)
    requires Inv(s) && CanReconnectClaims(s, id) && s.c.state == Connected && s.tasks[id].origin != s.c.cts
    ensures var s' := DoReconnectClaims(s, id);
            Stage(s', id, Notifying(s.c.cts)) && s'.c.state == Reconnecting && Steady(s') && s'.c.cts == s.c.cts
  {
    hide Inv, Holds, Steady;
    UpAndAwake(s, id);
    forall i | i in s.tasks && i != id
      ensures Idle(s.c, s.tasks[i]) && !Holds(s.tasks[i])
    {
      OthersIdle(s, id, i);
    }
    SteadyAlike(s, DoReconnectClaims(s, id));
  }

  lemma SteadyAlike(s: World, s': World)
    requires Steady(s) && s'.c.cts == s.c.cts && s'.wires == s.wires
    ensures Steady(s')
  {
  }

  /** A woken call finds the lock its own, the event set and the current transport in place. */
  lemma UpAndAwake(s: World, id: nat)
    requires Inv(s) && CanReconnectClaims(s, id) && s.c.state == Connected
    ensures s.c.lock == Some(id) && s.c.event && s.c.cts !in s.c.cancelled && s.c.transport == Some(s.c.cts) && Steady(s)
    ensures forall g | g in s.chains :: s.chains[g].phase.Settled?
  {
    hide Inv, T.IsOpen, T.Dead;
    LockIs(s);
    CoreIs(s);
    TaskIs(s, id);
    PastIs(s);
    hide PendingOk;
  }

  lemma OthersIdle(s: World, id: nat, i: nat)
    requires Inv(s) && i in s.tasks && i != id && s.c.lock == Some(id) && s.c.state == Connected && s.c.event
    ensures Idle(s.c, s.tasks[i]) && !Holds(s.tasks[i])
  {
    hide Inv, T.IsOpen, T.Dead, T.Inv, PastChainOk;
    LockIs(s);
    TaskIs(s, i);
    PastIs(s);
    assert TaskOk(CoreOf(s), s.tasks[i]);
  }

  /** In a connected world whose loop is dead some call of the current generation is pending, or its loop reports. */
  lemma NewsOfDeadLoop(s: World, id: nat)
    requires Inv(s) && CanReconnectClaims(s, id) && s.c.state == Connected && s.tasks[id].origin != s.c.cts
    requires s.c.cts in s.wires && !T.Live(s.wires[s.c.cts])
    ensures s.wires[s.c.cts].loops != []
    ensures || T.Last(s.wires[s.c.cts]).phase == T.Failing
            || exists i :: i != id && TaskAt(s, i, ReconnectCalled(s.c.cts))
  {
    hide Inv, T.Dead, T.EarlierEnded, Idle;
    UpAndAwake(s, id);
    CoreIs(s);
    DrivenIs(s);
    if T.Last(s.wires[s.c.cts]).phase != T.Failing {
      LostOrLive(s);
      var i :| i in s.tasks && Carries(s.tasks[i], s.c.cts);
      CarrierIsCall(s, id, i);
    }
  }

  lemma LostOrLive(s: World)
    requires WireOk(CoreOf(s)) && s.c.cts in s.wires && s.c.state == Connected && s.c.cts !in s.c.cancelled && Steady(s)
    requires !T.Live(s.wires[s.c.cts]) && T.Last(s.wires[s.c.cts]).phase != T.Failing
    ensures Lost(CoreOf(s))
  {
    hide T.Inv, T.Dead, T.EarlierEnded;
  }

  lemma CarrierIsCall(s: World, id: nat, i: nat)
    requires Inv(s) && i in s.tasks && Carries(s.tasks[i], s.c.cts) && s.c.cts !in s.c.cancelled
    requires s.c.lock == Some(id) && s.c.state == Connected && s.c.event && id in s.tasks && s.tasks[id].ReconnectAwake?
    requires s.tasks[id].origin != s.c.cts
    ensures i != id && TaskAt(s, i, ReconnectCalled(s.c.cts))
  {
    hide Inv, T.IsOpen, T.Dead, T.Inv;
    LockIs(s);
    TaskIs(s, i);
  }

  lemma StaleRuins(s: World, id: nat)
    requires Inv(s) && CanReconnectClaims(s, id) && s.c.state == Connected && s.tasks[id].origin != s.c.cts
    ensures Ruins(s, id)
  {
    hide Inv, Leads, Stage, Wedged, T.Live, TaskAt;
    Claimed(s, id);
    var s1, g := DoReconnectClaims(s, id), s.c.cts;
    var s2, s';
    if T.Live(s.wires[g]) {
      s' := ThrowsOnLiveLoop(s1, id);
    } else {
      NewsOfDeadLoop(s, id);
      if T.Last(s.wires[g]).phase == T.Failing {
        var other := FreshId(s1.tasks.Keys);
        StartedIs(s);
        s2 := Reports(s1, id, other);
        s' := ThrowsOnDeadLoop(s2, id, other);
        LeadsOn(s1, s2, s');
      } else {
        var other :| other != id && TaskAt(s, other, ReconnectCalled(g));
        StaysAt(s, id, other, ReconnectCalled(g));
        s' := ThrowsOnDeadLoop(s1, id, other);
      }
    }
  }

  lemma StaysAt(s: World, id: nat, other: nat, t: Task)
    requires CanReconnectClaims(s, id) && other != id && TaskAt(s, other, t)
    ensures TaskAt(DoReconnectClaims(s, id), other, t)
  {
  }

  /** The failing loop of the current generation leaves its call behind. */
  lemma Reports(s: World, id: nat, other: nat) returns (s': World)
    requires Stage(s, id, Notifying(s.c.cts)) && s.c.state == Reconnecting && Steady(s) && !T.Live(s.wires[s.c.cts])
    requires T.Last(s.wires[s.c.cts]).phase == T.Failing && other !in s.tasks && s.c.cts in s.chains
    ensures Leads(s, s') && s'.c == s.c && TaskAt(s', other, ReconnectCalled(s.c.cts))
    ensures Stage(s', id, Notifying(s.c.cts)) && Steady(s') && !T.Live(s'.wires[s.c.cts])
  {
    hide Leads, Stage;
    LeadsItself(s);
    InPlace(s, id, Notifying(s.c.cts));
    s' := ThenTransport(s, s, ReportLoss(s.c.cts, |s.wires[s.c.cts].loops| - 1, other));
    JoinedBy(s, s', id, other);
  }

  lemma JoinedBy(s: World, s': World, id: nat, other: nat)
    requires Stage(s, id, Notifying(s.c.cts)) && other !in s.tasks && s.c.cts in s.chains && s.c.cts in s'.wires
    requires s'.c == s.c && s'.tasks == s.tasks[other := ReconnectCalled(s.c.cts)]
    requires s'.chains == SetInit(s, s.c.cts, Faulted).chains
    ensures Stage(s', id, Notifying(s.c.cts))
  {
  }

  /** A call of `reconnect` that takes a connected connection away is harmless if and only if the generation that made
      it is still the current one. */
  lemma HarmlessIffOwnGeneration(s: World, id: nat)
    requires Reachable(s) && CanReconnectClaims(s, id) && s.c.state == Connected
    ensures s.tasks[id].origin == s.c.cts <==> !Ruins(s, id)
  {
    hide Inv, Reachable, Leads, Wedged;
    ReachableInv(s);
    if s.tasks[id].origin == s.c.cts {
      KeepStep(s, OfReconnect(ReconnectClaims(id)));
      var s1 := DoReconnectClaims(s, id);
      forall s' | Leads(s1, s')
        ensures AlreadyConnected !in s'.faults
      {
        InvOn(s1, s');
        Parts(s');
      }
    } else {
      StaleRuins(s, id);
    }
  }

  // ---- It happens ----

  /** A call left behind by the first generation, whose start has failed. */
  ghost predicate LeftBehind(s: World, id: nat) {
    Startable(s) && s.c.cts == 1 && TaskAt(s, id, ReconnectCalled(1))
  }

  /** The first start fails: its loop breaks down while the start still waits for the init frame, the error callback
      calls `reconnect`, and the chain settles before that call takes the lock. */
  lemma FirstStartFails(s0: World) returns (s: World)
    requires Looping(s0, 1, OPEN_LOOP) && s0.tasks == map[] && 2 !in s0.c.cancelled
    ensures Leads(s0, s) && LeftBehind(s, 0)
  {
    hide Leads;
    LeadsItself(s0);
    var s1 := ThenTransport(s0, s0, WireStep(1, T.Fault(1)));
    s1 := ThenTransport(s0, s1, ReportLoss(1, 1, 0));
    s := Settles(s1, 1);
    LeadsOn(s0, s1, s);
  }

  /** A run from a new connection in which a call of the failed first start is about to take the second one away: the
      run itself is proper, and one more step ruins the connection. */
  lemma StaleCallHappens() returns (s: World, id: nat)
    ensures Reachable(s) && CanReconnectClaims(s, id) && s.c.state == Connected
    ensures s.tasks[id].origin == 1 && s.c.cts == 2 && Ruins(s, id)
  {
    hide Leads, Reachable, Ruins;
    id := 0;
    var s1 := Dials(INITIAL);
    var s2 := FirstStartFails(s1);
    LeadsOn(INITIAL, s1, s2);
    var s3 := ComesUp(s2);
    LeadsOn(INITIAL, s2, s3);
    s := CallWakes(s3, id);
    LeadsOn(INITIAL, s3, s);
    ReachableOn(s);
    HarmlessIffOwnGeneration(s, id);
  }

  lemma CallWakes(s0: World, id: nat) returns (s: World)
    requires TaskAt(s0, id, ReconnectCalled(1)) && s0.c.lock == None && s0.c.event
    ensures Leads(s0, s) && CanReconnectClaims(s, id) && s.tasks[id].origin == 1
    ensures s.c.cts == s0.c.cts && s.c.state == s0.c.state
  {
    hide Leads;
    LeadsItself(s0);
    s := ThenReconnect(s0, s0, ReconnectLocks(id));
    s := ThenReconnect(s0, s, ReconnectWakes(id));
  }
}
