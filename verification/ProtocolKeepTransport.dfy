/** Every step keeps the invariant: the steps of the transports, and all steps together. */
module ProtocolKeepTransport {
  import opened Wrappers
  import opened Frames
  import opened Protocol
  import opened ProtocolInvariant
  import opened ProtocolTasks
  import opened ProtocolKeep
  import opened ProtocolKeepStart
  import T = Transport

  /** What a step of the current transport must leave so that no task and no chain minds. */
  ghost predicate WireKept(w: T.Wire, w': T.Wire) {
    && T.Inv(w') && |w'.loops| == |w.loops| && w'.connecting == w.connecting
    && T.EarlierEnded(w') && (T.Dead(w) ==> T.Dead(w'))
    && (T.IsOpen(w) ==> T.IsOpen(w'))
    && (T.Last(w).dial == T.Refused ==> T.Last(w').dial == T.Refused)
    && (T.Last(w').dial == T.Dialing ==> T.Last(w).dial == T.Dialing && T.Last(w').live == T.Last(w).live)
  }

  /** A task under another state of the wire. */
  lemma WireTask(k: Core, w: T.Wire, t: Task)
    requires TaskOk(k, t) && WireOk(k) && k.wire.Some? && WireKept(k.wire.value, w)
    ensures TaskOk(k.(wire := Some(w)), t)
  {
    hide T.Inv, T.Dead, T.EarlierEnded, T.IsOpen;
  }

  lemma WireCore(k: Core, w: T.Wire)
    requires ChainOk(k) && WireOk(k) && k.wire.Some? && WireKept(k.wire.value, w)
    ensures ChainOk(k.(wire := Some(w))) && WireOk(k.(wire := Some(w)))
  {
    hide T.Inv, T.Dead, T.EarlierEnded, T.IsOpen;
  }

  /** A step of the current transport that may also add a processed frame. */
  lemma CurrentMoved(s: World, s': World)
    requires Inv(s) && s.c.cts in s.wires && s.c.cts in s'.wires
    requires s' == s.(c := s.c.(cursor := s'.c.cursor), seen := s'.seen,
                      wires := s.wires[s.c.cts := s'.wires[s.c.cts]])
    requires WireKept(s.wires[s.c.cts], s'.wires[s.c.cts])
    requires Lost(CoreOf(s')) ==> Lost(CoreOf(s))
    ensures Inv(s')
  {
    hide T.Inv, Unique, ChainOk, WireOk, TaskOk, WireKept, T.Dead, T.IsOpen;
    var k, w := CoreOf(s), s'.wires[s.c.cts];
    assert CoreOf(s') == k.(wire := Some(w));
    WireCore(k, w);
    forall i | i in s.tasks
      ensures TaskOk(CoreOf(s'), s.tasks[i])
    {
      WireTask(k, w, s.tasks[i]);
    }
    PastMoved(s, s');
  }

  lemma PastMoved(s: World, s': World)
    requires PastOk(s) && s.c.cts in s.wires && s.c.cts in s'.wires
    requires s' == s.(c := s.c.(cursor := s'.c.cursor), seen := s'.seen,
                      wires := s.wires[s.c.cts := s'.wires[s.c.cts]])
    requires WireKept(s.wires[s.c.cts], s'.wires[s.c.cts])
    ensures PastOk(s')
  {
    hide T.Inv;
  }

  /** A step inside the current transport. */
  lemma Inside(k: Core, a: T.Action)
    requires WireOk(k) && k.wire.Some? && T.Can(k.wire.value, a) && (T.Internal(a) || a.Hand?)
    ensures WireKept(k.wire.value, T.Do(k.wire.value, a))
    ensures Lost(k.(wire := Some(T.Do(k.wire.value, a)))) ==> Lost(k)
  {
    T.Keep(k.wire.value, a);
    T.InternalStep(k.wire.value, a);
    hide T.Inv, T.Dead, T.EarlierEnded, T.IsOpen, T.Do, T.Can;
  }

  lemma KeepWireStep(s: World, g: nat, step: T.Action)
    requires Inv(s) && CanWireStep(s, g, step)
    ensures Inv(DoWireStep(s, g, step))
  {
    hide T.Inv, Unique, ChainOk, TaskOk, WireKept, T.Dead, T.IsOpen, T.Do, T.Can, T.Internal;
    T.Keep(s.wires[g], step);
    if g < s.c.cts {
      assert s.chains[g := s.chains[g]] == s.chains;
      OldMoved(s, DoWireStep(s, g, step), g);
    } else {
      var s' := DoWireStep(s, g, step);
      Inside(CoreOf(s), step);
      assert CoreOf(s') == CoreOf(s).(wire := Some(s'.wires[g]));
      CurrentMoved(s, s');
    }
  }

  lemma KeepHandFrame(s: World, g: nat, n: nat)
    requires Inv(s) && CanHandFrame(s, g, n)
    ensures Inv(DoHandFrame(s, g, n))
  {
    T.Keep(s.wires[g], T.Hand(n));
    if g < s.c.cts { KeepStrayFrame(s, g, n); } else { KeepOwnFrame(s, g, n); }
  }

  lemma KeepStrayFrame(s: World, g: nat, n: nat)
    requires Inv(s) && CanHandFrame(s, g, n) && g < s.c.cts && T.Inv(T.Do(s.wires[g], T.Hand(n)))
    ensures Inv(DoHandFrame(s, g, n))
  {
    hide T.Inv, Unique, ChainOk, WireOk, TasksOk, LockOk, Driven, T.Do, T.CanLoop;
    assert s.chains[g := s.chains[g]] == s.chains;
    OldMoved(s, DoHandFrame(s, g, n), g);
  }

  lemma KeepOwnFrame(s: World, g: nat, n: nat)
    requires Inv(s) && CanHandFrame(s, g, n) && g == s.c.cts
    ensures Inv(DoHandFrame(s, g, n))
  {
    var w := s.wires[g];
    HandsWhileOpen(w, n);
    Inside(CoreOf(s), T.Hand(n));
    hide T.Inv, Unique, ChainOk, TaskOk, WireKept, T.Dead, T.IsOpen, T.Do, T.CanLoop;
    var f := FrameInHand(s, g, n);
    var t := s.(wires := s.wires[g := T.Do(w, T.Hand(n))]);
    if g in s.c.cancelled {
      assert CoreOf(t) == CoreOf(s).(wire := Some(t.wires[g]));
      CurrentMoved(s, t);
    } else {
      var u := t.(c := ReceiveSection(s.c, f), seen := s.seen + [Processed(g, f)]);
      assert CoreOf(u) == CoreOf(s).(wire := Some(u.wires[g]));
      CurrentMoved(s, u);
      if IsInit(f) { ReleaseInit(u, g); }
    }
  }

  lemma HandsWhileOpen(w: T.Wire, n: nat)
    requires T.Inv(w) && T.EarlierEnded(w) && n < |w.loops| && T.CanLoop(w.loops[n], T.Hand(n))
    ensures !T.Dead(w) && T.IsOpen(w) && T.IsOpen(T.Do(w, T.Hand(n)))
  {
  }

  lemma ReleaseInit(s: World, g: nat)
    requires Inv(s) && g in s.chains && g == s.c.cts && g in s.wires && T.IsOpen(s.wires[g])
    ensures Inv(SetInit(s, g, Released(false)))
  {
    hide T.Inv, Unique, TasksOk, WireOk, ChainOk, LockOk;
    assert s.chains[g := s.chains[g].(timer := s.chains[g].timer)] == s.chains;
    InitMoved(s, g, Released(false), s.chains[g].timer);
  }

  lemma KeepReportLoss(s: World, g: nat, n: nat, id: nat)
    requires Inv(s) && CanReportLoss(s, g, n, id)
    ensures Inv(DoReportLoss(s, g, n, id))
  {
    T.Keep(s.wires[g], T.Report(n));
    if g < s.c.cts {
      hide T.Inv, Unique, ChainOk, WireOk, TasksOk, LockOk, T.Do, T.CanLoop;
      var t := s.(wires := s.wires[g := T.Do(s.wires[g], T.Report(n))]);
      assert s.chains[g := s.chains[g]] == s.chains;
      OldMoved(s, t, g);
      if g !in s.c.cancelled { CallReconnect(t, g, id); }
    } else {
      KeepCurrentLoss(s, g, n, id);
    }
  }

  lemma KeepCurrentLoss(s: World, g: nat, n: nat, id: nat)
    requires Inv(s) && CanReportLoss(s, g, n, id) && g == s.c.cts
    ensures Inv(DoReportLoss(s, g, n, id))
  {
    hide Inv, WireKept, T.Dead, T.IsOpen, T.Do, T.CanLoop, T.Last, Carries;
    var t := s.(wires := s.wires[g := T.Do(s.wires[g], T.Report(n))]);
    FailingReports(s, n);
    if g in s.c.cancelled {
      assert t.(tasks := Put(s.tasks, id, None)) == t;
      ReportMoved(s, t, g, id, None);
    } else {
      ReportMoved(s, t, g, id, Some(ReconnectCalled(g)));
      FaultInit(SetTask(t, id, ReconnectCalled(g)), g);
    }
  }

  lemma FailingReports(s: World, n: nat)
    requires Inv(s) && s.c.cts in s.wires && n < |s.wires[s.c.cts].loops|
    requires T.CanLoop(s.wires[s.c.cts].loops[n], T.Report(n))
    ensures var w := s.wires[s.c.cts];
            var w' := T.Do(w, T.Report(n));
            && T.Last(w).phase == T.Failing && T.IsOpen(w) && WireKept(w, w') && T.Dead(w') && T.IsOpen(w')
    ensures !SomeCarrier(s.tasks, s.c.cts)
  {
    hide Inv, ChainOk, WireKept, T.IsOpen, T.CanLoop, T.Do, T.Inv, T.EarlierEnded;
    CoreIs(s);
    TasksAre(s);
    ReportsAtEnd(s.wires[s.c.cts], n);
    NoCarrierWhileLooping(CoreOf(s), s.tasks);
  }

  lemma FaultInit(s: World, g: nat)
    requires Inv(s) && g in s.chains && g in s.wires
    ensures Inv(SetInit(s, g, Faulted))
  {
    hide T.Inv, Unique, TasksOk, WireOk, ChainOk, LockOk;
    assert s.chains[g := s.chains[g].(timer := s.chains[g].timer)] == s.chains;
    InitMoved(s, g, Faulted, s.chains[g].timer);
  }

  /** An error callback of an earlier generation leaves a call of `reconnect` behind. */
  lemma CallReconnect(s: World, g: nat, id: nat)
    requires Inv(s) && g in s.chains && g < s.c.cts && g in s.wires && id !in s.tasks
    ensures Inv(SetTask(SetInit(s, g, Faulted), id, ReconnectCalled(g)))
  {
    hide Inv;
    FaultInit(s, g);
    LockIs(SetInit(s, g, Faulted));
    OldGeneration(s, g);
    OldCallOk(CoreOf(SetInit(s, g, Faulted)), g);
    TaskMoved(SetInit(s, g, Faulted), id, Some(ReconnectCalled(g)), s.c.lock);
  }

  lemma OldGeneration(s: World, g: nat)
    requires Inv(s) && g in s.chains
    ensures 1 <= g
  {
    hide Inv, PastChainOk, T.Inv;
    PastIs(s);
  }

  lemma OldCallOk(k: Core, g: nat)
    requires 1 <= g < k.cts
    ensures TaskOk(k, ReconnectCalled(g))
  {
  }

  lemma ReportsAtEnd(w: T.Wire, n: nat)
    requires T.Inv(w) && T.EarlierEnded(w) && n < |w.loops| && T.CanLoop(w.loops[n], T.Report(n))
    ensures var w' := T.Do(w, T.Report(n));
            !T.Dead(w) && T.Last(w).phase == T.Failing && T.IsOpen(w) && WireKept(w, w') && T.Dead(w') && T.IsOpen(w')
  {
    T.Keep(w, T.Report(n));
  }

  lemma ReportMoved(s: World, t: World, g: nat, id: nat, call: Option<Task>)
    requires Inv(s) && g == s.c.cts && g in s.wires && g in s.chains && id !in s.tasks && g in t.wires
    requires t == s.(wires := s.wires[g := t.wires[g]])
    requires T.Last(s.wires[g]).phase == T.Failing && T.IsOpen(s.wires[g])
    requires WireKept(s.wires[g], t.wires[g]) && T.Dead(t.wires[g]) && T.IsOpen(t.wires[g])
    requires !SomeCarrier(s.tasks, g)
    requires call == if g in s.c.cancelled then None else Some(ReconnectCalled(g))
    ensures Inv(t.(tasks := Put(s.tasks, id, call)))
  {
    hide T.Inv, Unique, TaskOk, ChainOk, WireKept, T.IsOpen;
    var k, w, s' := CoreOf(s), t.wires[g], t.(tasks := Put(s.tasks, id, call));
    assert CoreOf(s') == k.(wire := Some(w));
    WireCore(k, w);
    forall i | i in s.tasks
      ensures TaskOk(CoreOf(s'), s.tasks[i])
    {
      WireTask(k, w, s.tasks[i]);
    }
    if call.Some? {
      Reports(k, w);
      assert Carries(s'.tasks[id], g);
      if SomeAttempt(s.tasks) { AttemptAfter(s.tasks, id, call); }
    } else {
      assert Put(s.tasks, id, call) == s.tasks;
    }
    CoreMoved(s, s', id, call);
  }

  lemma Reports(k: Core, w: T.Wire)
    requires WireOk(k) && k.wire.Some? && T.Last(k.wire.value).phase == T.Failing && !k.canceled && 1 <= k.cts
    requires T.Dead(w) && T.IsOpen(w)
    ensures TaskOk(k.(wire := Some(w)), ReconnectCalled(k.cts))
  {
  }

  // ---- All steps ----

  lemma KeepStartStep(s: World, a: StartStep)
    requires Inv(s) && CanStartStep(s, a) && Timely(s, OfStart(a))
    ensures Inv(DoStartStep(s, a))
  {
    hide Inv;
    match a
    case Start => KeepStart(s);
    case Negotiated(g) => KeepNegotiated(s, g);
    case ConnectReturns(g) => KeepConnectReturns(s, g);
    case ConnectRefused(g) => KeepConnectRefused(s, g);
    case TimerFires(g) => KeepTimerFires(s, g);
    case StoreTransport(g) => KeepStoreTransport(s, g);
    case RequestStart(g) => KeepRequestStart(s, g);
    case AnswerStart(g) => KeepAnswerStart(s, g);
    case CompleteStart(g) => KeepCompleteStart(s, g);
    case AnnounceStart(g) => KeepAnnounceStart(s, g);
    case ChainFails(g) => KeepChainFails(s, g);
    case FailStart(g) => KeepFailStart(s, g);
    case FailSignals(g) => KeepFailSignals(s, g);
  }

  lemma KeepStopStep(s: World, a: StopStep)
    requires Inv(s) && CanStopStep(s, a) && Timely(s, OfStop(a))
    ensures Inv(DoStopStep(s, a))
  {
    hide Inv;
    match a
    case CallStop(id) => KeepCallStop(s, id);
    case StopLocks(id) => KeepStopLocks(s, id);
    case StopWakes(id) => KeepStopWakes(s, id);
    case StopReads(id) => KeepStopReads(s, id);
    case StopCommits(id) => KeepStopCommits(s, id);
    case StopAborts(id) => KeepStopAborts(s, id);
    case StopFinishes(id) => KeepStopFinishes(s, id);
    case StopResumes(id) => KeepStopResumes(s, id);
  }

  lemma KeepReconnectStep(s: World, a: ReconnectStep)
    requires Inv(s) && CanReconnectStep(s, a) && Timely(s, OfReconnect(a))
    ensures Inv(DoReconnectStep(s, a))
  {
    hide Inv;
    match a
    case ReconnectLocks(id) => KeepReconnectLocks(s, id);
    case ReconnectWakes(id) => KeepReconnectWakes(s, id);
    case ReconnectClaims(id) => KeepReconnectClaims(s, id);
    case ReconnectResumes(id) => KeepReconnectResumes(s, id);
    case BuildUrl(id) => KeepBuildUrl(s, id);
    case TryConnect(id) => KeepTryConnect(s, id);
    case LaunchReturns(id) => KeepLaunchReturns(s, id);
    case DialDone(id) => KeepDialDone(s, id);
    case Retry(id) => KeepRetry(s, id);
    case GiveUp(id) => KeepGiveUp(s, id);
    case CompleteReconnect(id) => KeepCompleteReconnect(s, id);
    case AnnounceReconnect(id) => KeepAnnounceReconnect(s, id);
    case AbandonReconnect(id) => KeepAbandonReconnect(s, id);
  }

  /** Every timely step keeps the invariant. */
  lemma KeepStep(s: World, a: Action)
    requires Inv(s) && Can(s, a) && Timely(s, a)
    ensures Inv(Do(s, a))
  {
    hide Inv;
    match a
    case OfStart(b) => KeepStartStep(s, b);
    case OfTransport(WireStep(g, step)) => KeepWireStep(s, g, step);
    case OfTransport(HandFrame(g, n)) => KeepHandFrame(s, g, n);
    case OfTransport(ReportLoss(g, n, id)) => KeepReportLoss(s, g, n, id);
    case OfStop(b) => KeepStopStep(s, b);
    case OfReconnect(b) => KeepReconnectStep(s, b);
  }
}
