/** Where the work on a connection leads: a third invariant, kept by every step that keeps the first. While the
    connection is reconnecting somebody pursues that, and a stop leaves no receive loop running. */
module ProtocolEndings {
  import opened Wrappers
  import opened Protocol
  import opened ProtocolInvariant
  import opened ProtocolKeepStart
  import opened ProtocolKeepTransport
  import opened ProtocolRuns
  import opened ProtocolScenarios
  import opened ProtocolShapes
  import opened ProtocolTasks
  import T = Transport

  /** A reconnect of generation `g` under way, or a stop that has not read the state yet. */
  predicate Pursues(t: Task, g: nat) {
    ((t.Notifying? || Attempting(t)) && t.cts == g) || t.StopCalled? || HoldsForStop(t)
  }

  ghost predicate Pursued(tasks: map<nat, Task>, g: nat) {
    exists i :: i in tasks && Pursues(tasks[i], g)
  }

  /** No receive loop of the transport has a live token. */
  predicate AllCut(w: T.Wire) {
    forall n | 0 <= n < |w.loops| :: !w.loops[n].live
  }

  predicate Cut(s: World, g: nat) {
    g in s.wires && AllCut(s.wires[g])
  }

  /** The generations that connected and were stopped. */
  predicate Stopped(s: World, g: nat) {
    ChainAt(s, g, Settled(true)) && (g < s.c.cts || s.c.state == Disconnected)
  }

  predicate Halted(s: World, g: nat) {
    Stopped(s, g) || (g == s.c.cts && s.c.state == Disconnecting)
  }

  ghost predicate PursuedOk(s: World) {
    s.c.state == Reconnecting ==> Pursued(s.tasks, s.c.cts)
  }

  ghost predicate CutOk(s: World) {
    && (forall i | i in s.tasks && s.tasks[i].StopClosing? :: Cut(s, s.c.cts))
    && (forall g | g in s.chains && Stopped(s, g) :: Cut(s, g))
  }

  predicate TokenOk(s: World) {
    s.c.token.Some? ==> s.c.token == Some(s.c.cts)
  }

  ghost predicate Ends(s: World) {
    PursuedOk(s) && CutOk(s) && TokenOk(s)
  }

  // ---- Somebody pursues a reconnect ----

  lemma PursuedInStart(s: World, a: StartStep)
    requires PursuedOk(s) && CanStartStep(s, a)
    ensures PursuedOk(DoStartStep(s, a))
  {
    hide T.DoBeginConnect, T.DoEndConnect, T.CanEndConnect, Pursued;
  }

  lemma PursuedInTransport(s: World, a: TransportStep)
    requires PursuedOk(s) && CanTransportStep(s, a)
    ensures PursuedOk(DoTransportStep(s, a))
  {
    hide CanTransportStep, DoTransportStep, Pursues;
    StateInTransport(s, a);
    if s.c.state == Reconnecting {
      var i :| i in s.tasks && Pursues(s.tasks[i], s.c.cts);
      TransportShape(s, a, i);
    }
  }

  lemma StateInTransport(s: World, a: TransportStep)
    requires CanTransportStep(s, a)
    ensures DoTransportStep(s, a).c.state == s.c.state && DoTransportStep(s, a).c.cts == s.c.cts
    ensures DoTransportStep(s, a).c.token == s.c.token
  {
    hide T.Do, T.Can, T.CanLoop;
  }

  /** The one who pursues goes on, or makes way for somebody who does. */
  lemma GoesOn(s: World, s': World, id: nat)
    requires s.c.state == Reconnecting ==> PursuedOk(s)
    requires s'.tasks == Put(s.tasks, id, At(s'.tasks, id)) && s'.c.cts == s.c.cts
    requires s'.c.state == Reconnecting && s.c.state != Reconnecting ==> id in s'.tasks && Pursues(s'.tasks[id], s.c.cts)
    requires s'.c.state == Reconnecting && id in s.tasks && Pursues(s.tasks[id], s.c.cts)
             ==> id in s'.tasks && Pursues(s'.tasks[id], s.c.cts)
    ensures PursuedOk(s')
  {
    hide Pursues;
    if s'.c.state == Reconnecting && s.c.state == Reconnecting {
      var i :| i in s.tasks && Pursues(s.tasks[i], s.c.cts);
      assert i == id || (i in s'.tasks && s'.tasks[i] == s.tasks[i]);
    }
  }

  lemma PursuedInStop(s: World, a: StopStep)
    requires PursuedOk(s) && CanStopStep(s, a)
    ensures PursuedOk(DoStopStep(s, a))
  {
    hide PursuedOk, DoStopAborts, CanStopAborts;
    StopGoesOn(s, a);
    StopShape(s, a);
    hide CanStopStep, DoStopStep, Pursues;
    GoesOn(s, DoStopStep(s, a), a.id);
  }

  lemma StopGoesOn(s: World, a: StopStep)
    requires CanStopStep(s, a)
    ensures var s' := DoStopStep(s, a);
            && (s'.c.state == Reconnecting ==> s.c.state == Reconnecting)
            && (s'.c.state == Reconnecting && a.id in s.tasks && Pursues(s.tasks[a.id], s.c.cts)
                ==> a.id in s'.tasks && Pursues(s'.tasks[a.id], s.c.cts))
  {
    hide T.CanDisconnect, T.DoDisconnect;
  }

  lemma PursuedInReconnect(s: World, a: ReconnectStep)
    requires Inv(s) && PursuedOk(s) && CanReconnectStep(s, a)
    ensures PursuedOk(DoReconnectStep(s, a))
  {
    hide Inv, PursuedOk, CanReconnectStep, DoReconnectStep, Pursues;
    ReconnectShape(s, a);
    ReconnectGoesOn(s, a);
    GoesOn(s, DoReconnectStep(s, a), a.id);
  }

  lemma ReconnectGoesOn(s: World, a: ReconnectStep)
    requires Inv(s) && CanReconnectStep(s, a)
    ensures var s' := DoReconnectStep(s, a);
            s'.c.state == Reconnecting
            && (s.c.state != Reconnecting || (a.id in s.tasks && Pursues(s.tasks[a.id], s.c.cts)))
            ==> a.id in s'.tasks && Pursues(s'.tasks[a.id], s.c.cts)
  {
    hide Inv, DoTryConnect, DoReconnectResumes, DoLaunchReturns, CanLaunchReturns, CanReconnectResumes, CanTryConnect;
    match a
    case ReconnectResumes(id) => LockedGoesOn(s, id);
    case TryConnect(id) => TrierGoesOn(s, id);
    case AnnounceReconnect(id) => AnnouncesConnected(s, id);
    case LaunchReturns(id) => LaunchGoesOn(s, id);
    case _ =>
      hide DoReconnectStep, CanReconnectStep, Pursues;
      OthersGoOn(s, a);
  }

  lemma LockedGoesOn(s: World, id: nat)
    requires Inv(s) && CanReconnectResumes(s, id)
    ensures var s' := DoReconnectResumes(s, id);
            && s'.c.state == s.c.state
            && (s'.c.state == Reconnecting && id in s.tasks && Pursues(s.tasks[id], s.c.cts)
                ==> id in s'.tasks && Pursues(s'.tasks[id], s.c.cts))
  {
    hide Inv;
    if s.c.state == Reconnecting && s.tasks[id].cts == s.c.cts { ResumesGoOn(s, id); }
    StateInReconnect(s, ReconnectResumes(id));
  }

  lemma TrierGoesOn(s: World, id: nat)
    requires Inv(s) && CanTryConnect(s, id)
    ensures var s' := DoTryConnect(s, id);
            && s'.c.state == s.c.state
            && (id in s.tasks && Pursues(s.tasks[id], s.c.cts) ==> id in s'.tasks && Pursues(s'.tasks[id], s.c.cts))
  {
    hide Inv, DoTryConnect;
    if s.tasks[id].cts == s.c.cts { TriesGoOn(s, id); }
    StateInReconnect(s, TryConnect(id));
  }

  lemma OthersGoOn(s: World, a: ReconnectStep)
    requires CanReconnectStep(s, a)
    requires !a.ReconnectResumes? && !a.TryConnect? && !a.AnnounceReconnect? && !a.LaunchReturns?
    ensures var s' := DoReconnectStep(s, a);
            s'.c.state == Reconnecting
            && (s.c.state != Reconnecting || (a.id in s.tasks && Pursues(s.tasks[a.id], s.c.cts)))
            ==> a.id in s'.tasks && Pursues(s'.tasks[a.id], s.c.cts)
  {
  }

  lemma StateInReconnect(s: World, a: ReconnectStep)
    requires CanReconnectStep(s, a) && (a.ReconnectResumes? || a.TryConnect?)
    ensures DoReconnectStep(s, a).c.state == s.c.state
  {
    hide T.DoBeginConnect, T.Live;
  }

  lemma AnnouncesConnected(s: World, id: nat)
    requires Inv(s) && CanAnnounceReconnect(s, id)
    ensures s.c.state == Connected
  {
    hide Inv, T.Inv;
    TaskIs(s, id);
  }

  lemma LaunchGoesOn(s: World, id: nat)
    requires CanLaunchReturns(s, id)
    ensures var s' := DoLaunchReturns(s, id);
            && s.tasks[id].Launching? && id in s'.tasks && s'.tasks[id].Dialling? && s'.tasks[id].cts == s.tasks[id].cts
            && s'.c.state == s.c.state
  {
    hide T.DoEndConnect, T.CanEndConnect;
  }

  /** With the lock free, the token of a reconnecting connection is not cancelled. */
  lemma ResumesGoOn(s: World, id: nat)
    requires Inv(s) && CanReconnectResumes(s, id) && s.c.state == Reconnecting && s.tasks[id].cts == s.c.cts
    ensures DoReconnectResumes(s, id).tasks == s.tasks[id := Preparing(s.c.cts)]
  {
    hide Inv, T.Inv;
    LockIs(s);
  }

  lemma TriesGoOn(s: World, id: nat)
    requires Inv(s) && CanTryConnect(s, id) && s.tasks[id].cts == s.c.cts
    ensures var s' := DoTryConnect(s, id); id in s'.tasks && Pursues(s'.tasks[id], s.c.cts)
  {
    hide Inv, T.Inv, T.DoBeginConnect;
    CoreIs(s);
    TaskIs(s, id);
    TriesQuietly(CoreOf(s), id, s.tasks[id]);
  }

  lemma TriesQuietly(k: Core, id: nat, t: Task)
    requires ChainOk(k) && WireOk(k) && TaskOk(k, t) && t.Trying?
    ensures k.transport == Some(k.cts) && k.wire.Some? && !T.Live(k.wire.value)
  {
  }

  lemma KeepPursued(s: World, a: Action)
    requires Inv(s) && PursuedOk(s) && Can(s, a)
    ensures PursuedOk(Do(s, a))
  {
    hide Inv, PursuedOk, CanStartStep, DoStartStep, CanTransportStep, DoTransportStep, CanStopStep, DoStopStep,
      CanReconnectStep, DoReconnectStep;
    match a
    case OfStart(b) => PursuedInStart(s, b);
    case OfTransport(b) => PursuedInTransport(s, b);
    case OfStop(b) => PursuedInStop(s, b);
    case OfReconnect(b) => PursuedInReconnect(s, b);
  }

  // ---- A stop leaves no loop running ----

  lemma CutStays(w: T.Wire, a: T.Action)
    requires AllCut(w) && T.Can(w, a) && !a.BeginConnect?
    ensures AllCut(T.Do(w, a))
  {
  }

  /** The wires that were cut still are, and no generation is stopped that was not before. */
  lemma CutFramed(s: World, s': World)
    requires CutOk(s) && s'.c.cts == s.c.cts
    requires forall i | i in s'.tasks && s'.tasks[i].StopClosing? :: i in s.tasks && s.tasks[i].StopClosing?
    requires forall g | g in s'.chains && Stopped(s', g) :: g in s.chains && Stopped(s, g)
    requires forall g: nat | Cut(s, g) && Halted(s, g) :: Cut(s', g)
    requires forall i | i in s.tasks && s.tasks[i].StopClosing? :: s.c.state == Disconnecting
    ensures CutOk(s')
  {
    hide Cut, Stopped;
  }

  /** A closing stop belongs to a disconnecting connection. */
  lemma ClosingIs(s: World)
    requires Inv(s)
    ensures forall i | i in s.tasks && s.tasks[i].StopClosing? :: s.c.state == Disconnecting
  {
    hide Inv;
    forall i | i in s.tasks && s.tasks[i].StopClosing?
      ensures s.c.state == Disconnecting
    {
      TaskIs(s, i);
    }
  }

  lemma CutInStart(s: World, a: StartStep)
    requires Inv(s) && CutOk(s) && CanStartStep(s, a) && Timely(s, OfStart(a))
    ensures CutOk(DoStartStep(s, a))
  {
    hide Inv, CutOk;
    if a == Start { StartCuts(s); } else { CutInChain(s, a); }
    hide CanStartStep, DoStartStep;
  }

  lemma CutInChain(s: World, a: StartStep)
    requires Inv(s) && CutOk(s) && CanStartStep(s, a) && a != Start
    ensures CutOk(DoStartStep(s, a))
  {
    hide Inv, CutOk, Cut, CanStartStep, DoStartStep;
    ClosingIs(s);
    StartShape(s, a);
    ChainStepStops(s, a);
    ChainStepCuts(s, a);
    CutFramed(s, DoStartStep(s, a));
  }

  lemma StartCuts(s: World)
    requires Inv(s) && CutOk(s) && CanStart(s)
    ensures CutOk(DoStart(s))
  {
    hide Inv, AllCut;
    ClosingIs(s);
    var s' := DoStart(s);
    forall g | g in s'.chains && Stopped(s', g)
      ensures Cut(s', g)
    {
      assert g in s.chains;
      IsKnown(s, g);
      assert Stopped(s, g) && Cut(s, g);
    }
  }

  lemma IsKnown(s: World, g: nat)
    requires Inv(s) && g in s.chains
    ensures g <= s.c.cts
  {
    hide Inv, PastChainOk, T.Inv;
    PastIs(s);
  }

  /** No step of a chain stops a generation that connected. */
  lemma ChainStepStops(s: World, a: StartStep)
    requires Inv(s) && CanStartStep(s, a) && a != Start
    ensures forall g | g in DoStartStep(s, a).chains && Stopped(DoStartStep(s, a), g) :: g in s.chains && Stopped(s, g)
  {
    hide Inv, T.DoBeginConnect, T.DoEndConnect, T.CanEndConnect;
    UnderWayIs(s, a);
    var s' := DoStartStep(s, a);
    forall g | g in s'.chains && Stopped(s', g)
      ensures g in s.chains && Stopped(s, g)
    {
      assert g in s.chains && (g != a.g ==> s'.chains[g] == s.chains[g]);
      IsKnown(s, g);
    }
  }

  /** The chain that moves on is the current one, and it announces only a connected connection. */
  lemma UnderWayIs(s: World, a: StartStep)
    requires Inv(s) && CanStartStep(s, a) && a != Start
    ensures a.g in s.chains
    ensures !s.chains[a.g].phase.Settled? ==> a.g == s.c.cts
    ensures a.AnnounceStart? ==> s.c.state == Connected
    ensures a.FailStart? ==> s.chains[a.g].phase == Failing
  {
    hide Inv, WireOk, T.Inv, T.DoBeginConnect, T.DoEndConnect, T.CanEndConnect;
    if !s.chains[a.g].phase.Settled? {
      Current(s, a.g);
      CoreIs(s);
    }
  }

  lemma ChainStepCuts(s: World, a: StartStep)
    requires Inv(s) && CanStartStep(s, a) && a != Start
    ensures forall g: nat | Cut(s, g) && Halted(s, g) :: Cut(DoStartStep(s, a), g)
    ensures DoStartStep(s, a).tasks == s.tasks
  {
    hide Inv, AllCut;
    StartShape(s, a);
    if a.Negotiated? {
      Negotiates(s, a.g);
      hide T.DoBeginConnect;
    } else if a.ConnectReturns? {
      if Cut(s, a.g) { CutStays(s.wires[a.g], T.EndConnect); }
      hide T.DoEndConnect;
    } else {
      WiresStay(s, a);
      hide CanStartStep, DoStartStep;
    }
  }

  lemma WiresStay(s: World, a: StartStep)
    requires CanStartStep(s, a) && !a.Negotiated? && !a.ConnectReturns?
    ensures DoStartStep(s, a).wires == s.wires
  {
    hide T.DoBeginConnect, T.DoEndConnect, T.CanEndConnect;
  }

  lemma Negotiates(s: World, g: nat)
    requires Inv(s) && ChainAt(s, g, Negotiating)
    ensures g == s.c.cts && s.c.state == Connecting && !Stopped(s, g)
  {
    hide Inv, WireOk;
    Current(s, g);
    CoreIs(s);
  }

  lemma CutInTransport(s: World, a: TransportStep)
    requires Inv(s) && CutOk(s) && CanTransportStep(s, a)
    ensures CutOk(DoTransportStep(s, a))
  {
    hide Inv, CutOk, Cut, CanTransportStep, DoTransportStep;
    ClosingIs(s);
    StateInTransport(s, a);
    WireStepCuts(s, a);
    CutFramed(s, DoTransportStep(s, a));
  }

  lemma WireStepCuts(s: World, a: TransportStep)
    requires CanTransportStep(s, a)
    ensures var s' := DoTransportStep(s, a);
            && (forall g: nat | Cut(s, g) :: Cut(s', g))
            && (forall g | g in s'.chains && Stopped(s', g) :: g in s.chains && Stopped(s, g))
            && (forall i | i in s'.tasks && s'.tasks[i].StopClosing? :: i in s.tasks && s.tasks[i].StopClosing?)
  {
    var step := match a
                case WireStep(_, step) => step
                case HandFrame(_, n) => T.Hand(n)
                case ReportLoss(_, n, _) => T.Report(n);
    hide AllCut, T.Do, T.CanLoop, Stopped;
    if Cut(s, a.g) { CutStays(s.wires[a.g], step); }
    PhasesStay(s, a);
  }

  lemma PhasesStay(s: World, a: TransportStep)
    requires CanTransportStep(s, a)
    ensures var s' := DoTransportStep(s, a);
            forall g | g in s'.chains && Stopped(s', g) :: g in s.chains && Stopped(s, g)
  {
    hide T.Do, T.Can, T.CanLoop;
  }

  lemma CutInStop(s: World, a: StopStep)
    requires Inv(s) && CutOk(s) && CanStopStep(s, a) && Timely(s, OfStop(a))
    ensures CutOk(DoStopStep(s, a))
  {
    hide Inv, CutOk, DoStopAborts, CanStopAborts, DoStopFinishes;
    ClosingIs(s);
    match a
    case StopAborts(id) => CutInAbort(s, id);
    case StopFinishes(id) => CutInFinish(s, id);
    case _ =>
      OtherStopsCut(s, a);
      hide Cut, CanStopStep, DoStopStep;
      CutFramed(s, DoStopStep(s, a));
  }

  lemma OtherStopsCut(s: World, a: StopStep)
    requires CanStopStep(s, a) && Timely(s, OfStop(a)) && !a.StopAborts? && !a.StopFinishes?
    ensures var s' := DoStopStep(s, a);
            && s'.wires == s.wires && s'.chains == s.chains && s'.c.cts == s.c.cts
            && (s'.c.state == Disconnected ==> s.c.state == Disconnected)
            && (forall i | i in s'.tasks && s'.tasks[i].StopClosing? :: i in s.tasks && s.tasks[i].StopClosing?)
            && (forall g: nat | Cut(s, g) && Halted(s, g) :: Cut(s', g))
            && (forall g | g in s'.chains && Stopped(s', g) :: g in s.chains && Stopped(s, g))
  {
    hide AllCut, CanStopStep, DoStopStep;
    OtherStopsKeep(s, a);
  }

  lemma OtherStopsKeep(s: World, a: StopStep)
    requires CanStopStep(s, a) && Timely(s, OfStop(a)) && !a.StopAborts? && !a.StopFinishes?
    ensures var s' := DoStopStep(s, a);
            && s'.wires == s.wires && s'.chains == s.chains && s'.c.cts == s.c.cts
            && (s'.c.state == Disconnected ==> s.c.state == Disconnected)
            && (forall i | i in s'.tasks && s'.tasks[i].StopClosing? :: i in s.tasks && s.tasks[i].StopClosing?)
  {
    hide DoStopAborts, CanStopAborts;
  }

  /** The loops before the last one are cut already, and the last one is the one `disconnect` cuts. */
  lemma CutInAbort(s: World, id: nat)
    requires Inv(s) && CutOk(s) && CanStopAborts(s, id)
    requires forall i | i in s.tasks && s.tasks[i].StopClosing? :: s.c.state == Disconnecting
    ensures CutOk(DoStopAborts(s, id))
  {
    hide Inv;
    AbortsOwn(s, id);
    var w := s.wires[s.c.cts];
    assert Cut(DoStopAborts(s, id), s.c.cts) by { DisconnectCuts(w); }
    hide T.CanDisconnect, T.DoDisconnect, AllCut;
  }

  lemma DisconnectCuts(w: T.Wire)
    requires T.Inv(w) && T.CanDisconnect(w)
    ensures AllCut(T.DoDisconnect(w))
  {
    T.DisconnectStopsAll(w);
  }

  lemma AbortsOwn(s: World, id: nat)
    requires Inv(s) && TaskAt(s, id, StopAborting)
    ensures s.c.state == Disconnecting && s.c.transport == Some(s.c.cts) && s.c.cts in s.wires && T.Inv(s.wires[s.c.cts])
  {
    hide Inv, T.Inv;
    CoreIs(s);
    TaskIs(s, id);
  }

  lemma CutInFinish(s: World, id: nat)
    requires Inv(s) && CutOk(s) && CanStopFinishes(s, id)
    requires forall i | i in s.tasks && s.tasks[i].StopClosing? :: s.c.state == Disconnecting
    ensures CutOk(DoStopFinishes(s, id))
  {
    hide Inv, AllCut;
    OneCloses(s, id);
    var s' := DoStopFinishes(s, id);
    forall g | g in s'.chains && Stopped(s', g)
      ensures Cut(s', g)
    {
      IsKnown(s, g);
      assert g == s.c.cts || Stopped(s, g);
    }
  }

  lemma OneCloses(s: World, id: nat)
    requires Inv(s) && TaskAt(s, id, StopClosing)
    ensures forall i | i in s.tasks && s.tasks[i].StopClosing? :: i == id
  {
    hide Inv;
    UniqueIs(s);
  }

  lemma CutInReconnect(s: World, a: ReconnectStep)
    requires Inv(s) && CutOk(s) && CanReconnectStep(s, a)
    ensures CutOk(DoReconnectStep(s, a))
  {
    hide Inv, CutOk, Cut, CanReconnectStep, DoReconnectStep;
    ClosingIs(s);
    ReconnectShape(s, a);
    DialCuts(s, a);
    CutFramed(s, DoReconnectStep(s, a));
  }

  lemma DialCuts(s: World, a: ReconnectStep)
    requires Inv(s) && CanReconnectStep(s, a)
    ensures var s' := DoReconnectStep(s, a);
            && (forall g: nat | Cut(s, g) && Halted(s, g) :: Cut(s', g))
            && (forall g | g in s'.chains && Stopped(s', g) :: g in s.chains && Stopped(s, g))
            && (forall i | i in s'.tasks && s'.tasks[i].StopClosing? :: i in s.tasks && s.tasks[i].StopClosing?)
  {
    hide Inv, DoTryConnect, DoLaunchReturns, CanLaunchReturns;
    match a
    case TryConnect(id) => DialsUnstopped(s, id);
    case LaunchReturns(id) => LaunchCuts(s, id);
    case _ => hide AllCut;
  }

  /** Only the transport of a reconnecting connection dials. */
  lemma DialsUnstopped(s: World, id: nat)
    requires Inv(s) && CanTryConnect(s, id)
    ensures var s' := DoTryConnect(s, id);
            && (forall g: nat | Cut(s, g) && Halted(s, g) :: Cut(s', g))
            && s'.chains == s.chains && s'.c == s.c
            && (forall i | i in s'.tasks && s'.tasks[i].StopClosing? :: i in s.tasks && s.tasks[i].StopClosing?)
  {
    hide Inv, T.Inv, T.DoBeginConnect, AllCut;
    TaskIs(s, id);
    CoreIs(s);
    TriesQuietly(CoreOf(s), id, s.tasks[id]);
    hide ChainOk, WireOk;
  }

  lemma LaunchCuts(s: World, id: nat)
    requires CanLaunchReturns(s, id)
    ensures var s' := DoLaunchReturns(s, id);
            && (forall g: nat | Cut(s, g) :: Cut(s', g)) && s'.chains == s.chains && s'.c == s.c
            && (forall i | i in s'.tasks && s'.tasks[i].StopClosing? :: i in s.tasks && s.tasks[i].StopClosing?)
  {
    var g := s.tasks[id].wire;
    if Cut(s, g) { CutStays(s.wires[g], T.EndConnect); }
    hide AllCut, T.DoEndConnect;
  }

  lemma KeepCut(s: World, a: Action)
    requires Inv(s) && CutOk(s) && Can(s, a) && Timely(s, a)
    ensures CutOk(Do(s, a))
  {
    hide Inv, CutOk, CanStartStep, DoStartStep, CanTransportStep, DoTransportStep, CanStopStep, DoStopStep,
      CanReconnectStep, DoReconnectStep;
    match a
    case OfStart(b) => CutInStart(s, b);
    case OfTransport(b) => CutInTransport(s, b);
    case OfStop(b) => CutInStop(s, b);
    case OfReconnect(b) => CutInReconnect(s, b);
  }

  // ---- The token is that of the current generation ----

  lemma KeepToken(s: World, a: Action)
    requires Inv(s) && TokenOk(s) && Can(s, a)
    ensures TokenOk(Do(s, a))
  {
    hide Inv, CanStopStep, DoStopStep, CanReconnectStep, DoReconnectStep, CanTransportStep, DoTransportStep;
    match a
    case OfStart(b) =>
      if b.Negotiated? { Negotiates(s, b.g); }
      TokenInStart(s, b);
    case OfTransport(b) => StateInTransport(s, b);
    case OfStop(b) => TokenInStop(s, b);
    case OfReconnect(b) => TokenInReconnect(s, b);
  }

  lemma TokenInStart(s: World, a: StartStep)
    requires TokenOk(s) && CanStartStep(s, a) && (a.Negotiated? ==> a.g == s.c.cts)
    ensures TokenOk(DoStartStep(s, a))
  {
    hide T.DoBeginConnect, T.DoEndConnect, T.CanEndConnect;
  }

  lemma TokenInStop(s: World, a: StopStep)
    requires CanStopStep(s, a)
    ensures DoStopStep(s, a).c.token == s.c.token && DoStopStep(s, a).c.cts == s.c.cts
  {
    hide T.DoDisconnect, T.CanDisconnect;
  }

  lemma TokenInReconnect(s: World, a: ReconnectStep)
    requires CanReconnectStep(s, a)
    ensures DoReconnectStep(s, a).c.token == s.c.token && DoReconnectStep(s, a).c.cts == s.c.cts
  {
    hide T.DoBeginConnect, T.DoEndConnect, T.CanEndConnect, T.Live;
  }

  // ---- Every run keeps them ----

  /** Every timely step keeps the third invariant together with the first. */
  lemma KeepEnds(s: World, a: Action)
    requires Inv(s) && Ends(s) && Can(s, a) && Timely(s, a)
    ensures Ends(Do(s, a))
  {
    hide Inv, PursuedOk, CutOk, TokenOk, Can, Do, Timely;
    KeepPursued(s, a);
    KeepCut(s, a);
    KeepToken(s, a);
  }

  lemma {:induction false} KeepEndsRun(s: World, acts: seq<Action>)
    requires Inv(s) && Ends(s) && Proper(s, acts) && Legal(s, acts)
    ensures Ends(Exec(s, acts))
    decreases |acts|
  {
    hide Inv, Ends;
    if acts != [] {
      KeepStep(s, acts[0]);
      KeepEnds(s, acts[0]);
      KeepEndsRun(Do(s, acts[0]), acts[1..]);
    }
  }

  lemma ReachableEnds(s: World)
    requires Reachable(s)
    ensures Ends(s)
  {
    hide Inv;
    var acts :| Proper(INITIAL, acts) && Legal(INITIAL, acts) && Exec(INITIAL, acts) == s;
    Initially();
    KeepEndsRun(INITIAL, acts);
  }

  // ---- What every run guarantees ----

  /** A reconnecting connection is never left alone: a reconnect of its generation is under way, or a stop is about to
      end it. */
  lemma ReconnectingIsPursued(s: World)
    requires Reachable(s) && s.c.state == Reconnecting
    ensures || (exists i :: i in s.tasks && (s.tasks[i].StopCalled? || HoldsForStop(s.tasks[i])))
            || (exists i :: i in s.tasks && (s.tasks[i].Notifying? || Attempting(s.tasks[i])) && s.tasks[i].cts == s.c.cts)
  {
    hide Reachable, CutOk;
    ReachableEnds(s);
    var i :| i in s.tasks && Pursues(s.tasks[i], s.c.cts);
  }

  /** When nothing is left to do the connection is connected or disconnected. */
  lemma AtRest(s: World)
    requires Reachable(s) && s.tasks == map[] && (s.c.cts in s.chains ==> s.chains[s.c.cts].phase.Settled?)
    ensures s.c.state == Connected || s.c.state == Disconnected
  {
    hide Inv, Reachable, WireOk;
    ReachableInv(s);
    CoreIs(s);
    DrivenIs(s);
    if s.c.state == Reconnecting { ReconnectingIsPursued(s); }
  }

  /** A stop that waits for the transport to close has cut every loop of it, and no generation that connected and was
      stopped has a loop that runs, however the connection goes on. */
  lemma StoppedTransportIsDead(s: World, g: nat)
    requires Reachable(s)
    requires || (g == s.c.cts && exists i :: TaskAt(s, i, StopClosing))
             || (ChainAt(s, g, Settled(true)) && (g < s.c.cts || s.c.state == Disconnected))
    ensures g in s.wires && forall n | 0 <= n < |s.wires[g].loops| :: !s.wires[g].loops[n].live
  {
    hide Reachable, PursuedOk;
    ReachableEnds(s);
  }

  /** A generation whose token is cancelled is disconnected, or a stop that holds the lock or closes is seeing to that. */
  lemma CancelledIsStopping(s: World)
    requires Reachable(s) && s.c.cts in s.c.cancelled
    ensures s.c.state == Disconnected || exists i :: i in s.tasks && (HoldsForStop(s.tasks[i]) || Closing(s.tasks[i]))
  {
    hide Inv, Reachable;
    ReachableInv(s);
    LockIs(s);
    DrivenIs(s);
  }

  /** The connection token is never one of an earlier generation. */
  lemma TokenIsOwn(s: World)
    requires Reachable(s)
    ensures s.c.token == None || s.c.token == Some(s.c.cts)
    ensures s.c.state == Connected || s.c.state == Reconnecting || s.c.state == Disconnecting ==> s.c.token.Some?
  {
    hide Inv, Reachable, WireOk, PursuedOk, CutOk;
    ReachableEnds(s);
    ReachableInv(s);
    CoreIs(s);
  }

  /** A call of `stop` goes on until it ends at 421-426, unless another one is disconnecting when it takes the lock: then
      it leaves at once and changes nothing. */
  lemma NoStopIsLost(s: World, a: Action, id: nat)
    requires Reachable(s) && Can(s, a) && id in s.tasks && IsStop(s.tasks[id])
    ensures id in Do(s, a).tasks ==> IsStop(Do(s, a).tasks[id])
    ensures id !in Do(s, a).tasks ==>
              || a == OfStop(StopFinishes(id)) || a == OfStop(StopResumes(id))
              || (a == OfStop(StopLocks(id)) && s.c.state == Disconnecting)
    ensures a == OfStop(StopLocks(id)) && s.c.state == Disconnecting ==> Do(s, a) == s.(tasks := s.tasks - {id})
  {
    hide Inv, Reachable, CanStartStep, DoStartStep, CanTransportStep, DoTransportStep, CanStopStep, DoStopStep,
      CanReconnectStep, DoReconnectStep;
    match a
    case OfStart(b) => StartShape(s, b);
    case OfTransport(b) => TransportShape(s, b, id);
    case OfStop(b) =>
      StopShape(s, b);
      if b.id == id {
        ReachableInv(s);
        StopStays(s, b);
      }
    case OfReconnect(b) =>
      ReconnectShape(s, b);
      if b.id == id { ReconnectIsNoStop(s, b); }
  }

  lemma StopStays(s: World, a: StopStep)
    requires Inv(s) && CanStopStep(s, a) && a.id in s.tasks
    ensures var t := DoStopStep(s, a);
            && (a.id !in t.tasks ==>
                  a.StopFinishes? || a.StopResumes? || (a.StopLocks? && s.c.state == Disconnecting))
            && (a.StopLocks? && s.c.state == Disconnecting ==> t == s.(tasks := s.tasks - {a.id}))
  {
    hide Inv, T.DoDisconnect, T.CanDisconnect;
    if a.StopAborts? { AbortsOwn(s, a.id); }
  }

  lemma ReconnectIsNoStop(s: World, a: ReconnectStep)
    requires CanReconnectStep(s, a)
    ensures !IsStop(s.tasks[a.id])
  {
    hide T.CanEndConnect, TransportNamed;
  }

  // ---- No dial after a stop ----

  /** How often generation `g` has dialled. */
  function Dials(s: World, g: nat): nat {
    if g in s.wires then |s.wires[g].loops| else 0
  }

  lemma SameDials(s: World, a: Action, g: nat)
    requires Inv(s) && Can(s, a) && g in s.c.cancelled
    ensures Dials(Do(s, a), g) == Dials(s, g) && g in Do(s, a).c.cancelled
  {
    hide Inv, CanStartStep, DoStartStep, CanTransportStep, DoTransportStep, CanStopStep, DoStopStep, CanReconnectStep,
      DoReconnectStep;
    match a
    case OfStart(b) => DialsInStart(s, b, g);
    case OfTransport(b) => DialsInTransport(s, b, g);
    case OfStop(b) => DialsInStop(s, b, g);
    case OfReconnect(b) => DialsInReconnect(s, b, g);
  }

  lemma DialsInStart(s: World, a: StartStep, g: nat)
    requires CanStartStep(s, a) && g in s.c.cancelled
    ensures Dials(DoStartStep(s, a), g) == Dials(s, g) && g in DoStartStep(s, a).c.cancelled
  {
    hide T.DoBeginConnect;
  }

  lemma DialsInTransport(s: World, a: TransportStep, g: nat)
    requires CanTransportStep(s, a) && g in s.c.cancelled
    ensures Dials(DoTransportStep(s, a), g) == Dials(s, g) && g in DoTransportStep(s, a).c.cancelled
  {
    hide T.DoLoop, T.CanLoop;
  }

  lemma DialsInStop(s: World, a: StopStep, g: nat)
    requires CanStopStep(s, a) && g in s.c.cancelled
    ensures Dials(DoStopStep(s, a), g) == Dials(s, g) && g in DoStopStep(s, a).c.cancelled
  {
  }

  lemma DialsInReconnect(s: World, a: ReconnectStep, g: nat)
    requires Inv(s) && CanReconnectStep(s, a) && g in s.c.cancelled
    ensures Dials(DoReconnectStep(s, a), g) == Dials(s, g) && g in DoReconnectStep(s, a).c.cancelled
  {
    hide Inv, DoTryConnect;
    if a.TryConnect? { CancelledTries(s, a.id, g); }
    hide T.CanEndConnect;
  }

  lemma CancelledTries(s: World, id: nat, g: nat)
    requires Inv(s) && CanTryConnect(s, id) && g in s.c.cancelled
    ensures Dials(DoTryConnect(s, id), g) == Dials(s, g) && DoTryConnect(s, id).c == s.c
  {
    hide Inv, T.Inv, T.DoBeginConnect;
    CoreIs(s);
    TaskIs(s, id);
    TriesQuietly(CoreOf(s), id, s.tasks[id]);
    hide ChainOk, WireOk, TaskOk;
  }

  /** A generation that is stopped dials no more, in no run: neither its start, if it has not dialled yet, nor any
      attempt of a reconnect. */
  lemma {:induction false} NoDialAfterStop(s: World, acts: seq<Action>, g: nat)
    requires Inv(s) && Proper(s, acts) && Legal(s, acts) && g in s.c.cancelled
    ensures Dials(Exec(s, acts), g) == Dials(s, g) && g in Exec(s, acts).c.cancelled
    decreases |acts|
  {
    hide Inv, Dials, Do, Can, Timely;
    if acts != [] {
      SameDials(s, acts[0], g);
      KeepStep(s, acts[0]);
      NoDialAfterStop(Do(s, acts[0]), acts[1..], g);
    }
  }

  // ---- Giving up ----

  /** Task `id` is the only one, nobody holds the lock, and the transport can be disconnected. */
  ghost predicate Alone(s: World, id: nat, t: Task) {
    && s.tasks == map[id := t] && s.c.lock == None && s.c.state == Reconnecting && s.c.transport == Some(s.c.cts)
    && s.c.cts in s.wires && T.CanDisconnect(s.wires[s.c.cts])
  }

  lemma GiverIsAlone(s: World, id: nat)
    requires Inv(s) && s.tasks == map[id := GivingUp(s.c.cts)]
    ensures Alone(s, id, GivingUp(s.c.cts)) && ChainAt(s, s.c.cts, Settled(true))
  {
    hide Inv, T.EarlierEnded, T.IsOpen;
    LockIs(s);
    TaskIs(s, id);
    CoreIs(s);
  }

  lemma StopRuns(s: World, id: nat) returns (s': World)
    requires Alone(s, id, StopCalled) && s.c.event
    ensures Leads(s, s') && s'.c.cts == s.c.cts && s'.c.state == Disconnecting && s'.c.lock == None
    ensures s'.tasks == map[id := StopAborting] && s'.wires == s.wires && s'.c.transport == s.c.transport
    ensures s'.chains == s.chains
  {
    hide Leads, T.CanDisconnect;
    var s1 := StopTakesLock(s, id);
    s' := StopCommitted(s1, id);
    LeadsOn(s, s1, s');
  }

  lemma StopEnds(s: World, id: nat) returns (s': World)
    requires s.tasks == map[id := StopAborting] && s.c.state == Disconnecting && s.c.lock == None
    requires s.c.transport == Some(s.c.cts) && s.c.cts in s.wires && T.CanDisconnect(s.wires[s.c.cts])
    ensures Leads(s, s') && s'.c.cts == s.c.cts && s'.c.state == Disconnected && s'.c.transport == None
    ensures s'.tasks == map[] && s'.chains == s.chains
  {
    hide Leads, T.CanDisconnect, T.DoDisconnect;
    LeadsItself(s);
    s' := ThenStop(s, s, StopAborts(id));
    s' := ThenStop(s, s', StopFinishes(id));
    assert s'.tasks == map[];
  }

  /** A reconnect that gives up, undisturbed, leaves the connection disconnected and its transport without a loop that
      runs. */
  lemma GivingUpDisconnects(s: World, id: nat) returns (s': World)
    requires Reachable(s) && s.tasks == map[id := GivingUp(s.c.cts)]
    ensures Leads(s, s') && s'.c.state == Disconnected && s'.c.transport == None && s'.tasks == map[]
    ensures s'.c.cts == s.c.cts && Cut(s', s.c.cts)
  {
    hide Leads, Reachable, Inv, Cut, PursuedOk, T.CanDisconnect;
    ReachableInv(s);
    GiverIsAlone(s, id);
    LeadsItself(s);
    var s1 := ThenReconnect(s, s, AbandonReconnect(id));
    assert s1.tasks == map[id := StopCalled];
    hide CanReconnectStep, DoReconnectStep;
    var s2 := StopRuns(s1, id);
    LeadsOn(s, s1, s2);
    s' := StopEnds(s2, id);
    LeadsOn(s, s2, s');
    ReachableFurther(s, s');
    ReachableEnds(s');
  }

  lemma ReachableFurther(s: World, s': World)
    requires Reachable(s) && Leads(s, s')
    ensures Reachable(s')
  {
    var a :| Proper(INITIAL, a) && Legal(INITIAL, a) && Exec(INITIAL, a) == s;
    var b :| Legal(s, b) && Proper(s, b) && Exec(s, b) == s';
    Concat(INITIAL, a, b);
  }
}
