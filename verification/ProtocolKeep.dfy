/** Every step keeps the invariant: the steps of `stop` and `reconnect`. */
module ProtocolKeep {
  import opened Wrappers
  import opened Protocol
  import opened ProtocolInvariant
  import opened ProtocolTasks
  import T = Transport

  lemma Alone(s: World, i: nat, j: nat)
    requires Inv(s) && i in s.tasks && j in s.tasks && i != j
    ensures !(Attempting(s.tasks[i]) && Attempting(s.tasks[j]))
    ensures !(Carries(s.tasks[i], s.c.cts) && Carries(s.tasks[j], s.c.cts))
    ensures !(Closing(s.tasks[i]) && Closing(s.tasks[j]))
  {
    hide Inv;
    UniqueIs(s);
  }

  // ---- Steps that move one task and leave the current generation alone ----

  lemma KeepCallStop(s: World, id: nat)
    requires Inv(s) && id !in s.tasks
    ensures Inv(SetTask(s, id, StopCalled))
  {
    hide Inv, T.Inv, Unique, PastOk, T.Dead, T.EarlierEnded;
    LockIs(s);
    TaskMoved(s, id, Some(StopCalled), s.c.lock);
  }

  lemma KeepStopWakes(s: World, id: nat)
    requires Inv(s) && CanStopWakes(s, id)
    ensures Inv(SetTask(s, id, StopAwake))
  {
    hide Inv, T.Inv, Unique, PastOk, T.Dead, T.EarlierEnded;
    LockIs(s);
    CoreIs(s);
    TaskIs(s, id);
    TaskMoved(s, id, Some(StopAwake), s.c.lock);
  }

  lemma KeepReconnectLocks(s: World, id: nat)
    requires Inv(s) && CanReconnectLocks(s, id)
    ensures Inv(DoReconnectLocks(s, id))
  {
    hide Inv, T.Inv, Unique, PastOk, T.Dead, T.EarlierEnded;
    LockIs(s);
    CoreIs(s);
    TaskIs(s, id);
    TaskMoved(s, id, Some(ReconnectWaiting(s.tasks[id].origin)), Some(id));
  }

  lemma KeepReconnectWakes(s: World, id: nat)
    requires Inv(s) && CanReconnectWakes(s, id)
    ensures Inv(DoReconnectWakes(s, id))
  {
    hide Inv, T.Inv, Unique, PastOk, T.Dead, T.EarlierEnded;
    LockIs(s);
    CoreIs(s);
    TaskIs(s, id);
    TaskMoved(s, id, Some(ReconnectAwake(s.tasks[id].origin)), s.c.lock);
  }

  lemma KeepBuildUrl(s: World, id: nat)
    requires Inv(s) && CanBuildUrl(s, id)
    ensures Inv(DoBuildUrl(s, id))
  {
    hide Inv, T.Inv, Unique, PastOk, T.Dead, T.EarlierEnded;
    LockIs(s);
    CoreIs(s);
    TaskIs(s, id);
    TaskMoved(s, id, Some(Trying(s.tasks[id].cts, UrlOf(s.c))), s.c.lock);
    BuiltMoved(Moved(s, id, Some(Trying(s.tasks[id].cts, UrlOf(s.c))), s.c.lock), |s.seen|);
  }

  /** The invariant does not speak of what was processed. */
  lemma BuiltMoved(s: World, built: nat)
    requires Inv(s)
    ensures Inv(s.(built := built))
  {
    hide T.Inv, Unique, ChainOk, WireOk, TaskOk;
    assert CoreOf(s.(built := built)) == CoreOf(s);
  }

  lemma KeepDialDone(s: World, id: nat)
    requires Inv(s) && CanDialDone(s, id)
    ensures Inv(DoDialDone(s, id))
  {
    hide Inv, T.Inv, Unique, PastOk, T.Dead, T.EarlierEnded;
    LockIs(s);
    CoreIs(s);
    TaskIs(s, id);
    var k := CoreOf(s);
    var t := DoDialDone(s, id).tasks[id];
    DialDone(k, s.tasks[id], t);
    if t.Retrying? {
      forall i | i in s.tasks
        ensures !Carries(s.tasks[i], s.c.cts)
      {
        if i != id {
          Alone(s, i, id);
          TaskIs(s, i);
          NoNews(k, s.tasks[id], s.tasks[i]);
        }
      }
    }
    TaskMoved(s, id, Some(t), s.c.lock);
  }

  lemma DialDone(k: Core, t: Task, after: Task)
    requires TaskOk(k, t) && t.Dialling? && WireOk(k)
    requires after == if T.Last(k.wire.value).dial == T.Announced then Succeeding(t.cts) else Retrying(t.cts, t.url)
    requires T.Last(k.wire.value).dial == T.Announced || T.Last(k.wire.value).dial == T.Refused
    ensures TaskOk(k, after)
  {
  }

  /** While the dial of a reconnect is refused no other task carries news of the transport. */
  lemma NoNews(k: Core, t: Task, other: Task)
    requires TaskOk(k, t) && t.Dialling? && !T.IsOpen(k.wire.value)
    requires TaskOk(k, other) && !Attempting(other)
    ensures !Carries(other, k.cts)
  {
  }

  lemma KeepRetry(s: World, id: nat)
    requires Inv(s) && CanRetry(s, id)
    ensures Inv(DoRetry(s, id))
  {
    hide Inv, T.Inv, Unique, PastOk, T.Dead, T.EarlierEnded;
    LockIs(s);
    CoreIs(s);
    TaskIs(s, id);
    TaskMoved(s, id, Some(Trying(s.tasks[id].cts, s.tasks[id].url)), s.c.lock);
  }

  lemma KeepGiveUp(s: World, id: nat)
    requires Inv(s) && CanGiveUp(s, id)
    ensures Inv(DoGiveUp(s, id))
  {
    hide Inv, T.Inv, Unique, PastOk, T.Dead, T.EarlierEnded;
    LockIs(s);
    CoreIs(s);
    TaskIs(s, id);
    TaskMoved(s, id, Some(GivingUp(s.tasks[id].cts)), s.c.lock);
  }

  // ---- stop ----

  lemma KeepStopLocks(s: World, id: nat)
    requires Inv(s) && CanStopLocks(s, id)
    ensures Inv(DoStopLocks(s, id))
  {
    hide Inv, ChainOk, WireOk, Unique, PastOk;
    LockIs(s);
    if s.c.state == Disconnected {
      TaskMoved(s, id, Some(StopFound), s.c.lock);
    } else if s.c.state == Disconnecting {
      TaskMoved(s, id, None, s.c.lock);
    } else {
      KeepStopWaits(s, id);
    }
  }

  lemma KeepStopWaits(s: World, id: nat)
    requires Inv(s) && CanStopLocks(s, id) && s.c.state != Disconnected && s.c.state != Disconnecting
    ensures Inv(SetTask(s, id, StopWaiting).(c := ShutdownSection(s.c, id)))
  {
    hide Inv, ChainOk, WireOk, Unique, PastOk, T.Inv, T.Gone;
    var s', k := SetTask(s, id, StopWaiting).(c := ShutdownSection(s.c, id)), CoreOf(s);
    assert CoreOf(s') == k.(canceled := true);
    CoreIs(s);
    CancelsCore(k);
    LockIs(s);
    DrivenIs(s);
    forall i | i in s.tasks && i != id
      ensures TaskOk(CoreOf(s'), s.tasks[i])
    {
      TaskIs(s, i);
      Cancelling(k, s.tasks[i]);
    }
    hide TaskOk;
    assert TaskOk(CoreOf(s'), StopWaiting) by { WaitingOk(CoreOf(s')); }
    if SomeAttempt(s.tasks) { AttemptAfter(s.tasks, id, Some(StopWaiting)); }
    StartedIs(s);
    CoreMoved(s, s', id, Some(StopWaiting));
  }

  lemma WaitingOk(k: Core)
    requires k.canceled && k.state != Disconnecting
    ensures TaskOk(k, StopWaiting)
  {
  }

  lemma CancelsCore(k: Core)
    requires ChainOk(k) && WireOk(k) && k.state != Disconnected && k.state != Disconnecting
    ensures ChainOk(k.(canceled := true)) && WireOk(k.(canceled := true))
  {
    hide T.Inv, T.EarlierEnded, T.Dead, T.IsOpen;
  }

  lemma Cancelling(k: Core, t: Task)
    requires TaskOk(k, t)
    ensures TaskOk(k.(canceled := true), t)
  {
  }

  lemma KeepStopReads(s: World, id: nat)
    requires Inv(s) && TaskAt(s, id, StopAwake)
    ensures Inv(DoStopReads(s, id))
  {
    hide Inv, T.Inv, Unique, PastOk, T.Dead, T.EarlierEnded;
    LockIs(s);
    CoreIs(s);
    TaskIs(s, id);
    if s.c.state == Disconnected {
      TaskMoved(s, id, Some(StopFound), None);
    } else {
      assert s.c.state == Connected || s.c.state == Reconnecting;
      TaskMoved(s, id, Some(StopCommitting), s.c.lock);
    }
  }

  lemma KeepStopCommits(s: World, id: nat)
    requires Inv(s) && TaskAt(s, id, StopCommitting)
    ensures Inv(DoStopCommits(s, id))
  {
    hide Inv, T.Inv, Unique, PastOk, T.Dead, T.EarlierEnded;
    LockIs(s);
    CoreIs(s);
    TaskIs(s, id);
    DrivenIs(s);
    var s', k := DoStopCommits(s, id), CoreOf(s);
    assert CoreOf(s') == k.(state := Disconnecting);
    TasksAre(s);
    NoClosingBefore(k, s.tasks);
    forall i | i in s.tasks && i != id
      ensures TaskOk(CoreOf(s'), s.tasks[i])
    {
      TaskIs(s, i);
      Disconnects(k, s.tasks[i]);
    }
    CoreMoved(s, s', id, Some(StopAborting));
  }

  lemma Disconnects(k: Core, t: Task)
    requires TaskOk(k, t) && k.canceled && k.event && !HoldsForStop(t)
    ensures TaskOk(k.(state := Disconnecting), t)
  {
  }

  lemma KeepStopAborts(s: World, id: nat)
    requires Inv(s) && CanStopAborts(s, id)
    ensures Inv(DoStopAborts(s, id))
  {
    hide Inv, Unique, PastOk, T.Inv, T.Dead, T.EarlierEnded, T.CanDisconnect, T.DoDisconnect, T.Gone;
    CoreIs(s);
    LockIs(s);
    AbortsCurrent(s, id);
    var s', k := DoStopAborts(s, id), CoreOf(s);
    assert CoreOf(s') == k.(wire := Some(T.DoDisconnect(k.wire.value)));
    CutsWire(k);
    forall i | i in s.tasks && i != id
      ensures TaskOk(CoreOf(s'), s.tasks[i])
    {
      TaskIs(s, i);
      Cuts(k, s.tasks[i]);
    }
    hide ChainOk, WireOk;
    CoreMoved(s, s', id, Some(StopClosing));
  }

  /** A stop that uses the transport finds that of the current generation. */
  lemma AbortsCurrent(s: World, id: nat)
    requires Inv(s) && CanStopAborts(s, id)
    ensures s.c.state == Disconnecting && s.c.transport == Some(s.c.cts) && s.c.cts in s.wires && s.c.cts in s.chains
    ensures s.c.event && s.c.cts in s.c.cancelled
  {
    hide Inv, WireOk;
    CoreIs(s);
    LockIs(s);
    TaskIs(s, id);
  }

  lemma Cuts(k: Core, t: Task)
    requires TaskOk(k, t) && k.state == Disconnecting && k.event && WireOk(k)
    requires k.wire.Some? && T.CanDisconnect(k.wire.value)
    ensures TaskOk(k.(wire := Some(T.DoDisconnect(k.wire.value))), t)
  {
  }

  lemma CutsWire(k: Core)
    requires k.wire.Some? && T.CanDisconnect(k.wire.value)
    requires WireOk(k) && ChainOk(k) && k.state == Disconnecting && k.event && k.canceled
    ensures WireOk(k.(wire := Some(T.DoDisconnect(k.wire.value))))
    ensures ChainOk(k.(wire := Some(T.DoDisconnect(k.wire.value))))
  {
    T.Keep(k.wire.value, T.Disconnect);
  }

  lemma KeepStopFinishes(s: World, id: nat)
    requires Inv(s) && CanStopFinishes(s, id)
    ensures Inv(DoStopFinishes(s, id))
  {
    hide Inv, T.Inv, Unique, PastOk, T.Dead, T.EarlierEnded;
    LockIs(s);
    CoreIs(s);
    TaskIs(s, id);
    DrivenIs(s);
    var s', k := DoStopFinishes(s, id), CoreOf(s);
    assert CoreOf(s') == k.(state := Disconnected, transport := None);
    forall i | i in s.tasks && i != id
      ensures TaskOk(CoreOf(s'), s.tasks[i])
    {
      TaskIs(s, i);
      Alone(s, i, id);
      Closes(k, s.tasks[i]);
    }
    CoreMoved(s, s', id, None);
  }

  lemma Closes(k: Core, t: Task)
    requires TaskOk(k, t) && k.state == Disconnecting && k.canceled && !Closing(t)
    ensures TaskOk(k.(state := Disconnected, transport := None), t)
  {
  }

  lemma KeepStopResumes(s: World, id: nat)
    requires Inv(s) && CanStopResumes(s, id) && s.c.state != Disconnecting
    ensures Inv(DoStopResumes(s, id))
  {
    hide Inv, T.Inv, Unique, PastOk, T.Dead, T.EarlierEnded;
    LockIs(s);
    CoreIs(s);
    TaskIs(s, id);
    TaskMoved(s, id, None, s.c.lock);
  }

  // ---- reconnect ----

  lemma KeepReconnectClaims(s: World, id: nat)
    requires Inv(s) && CanReconnectClaims(s, id)
    requires s.c.state == Connected ==> s.tasks[id].origin == s.c.cts
    ensures Inv(DoReconnectClaims(s, id))
  {
    hide Inv, T.Inv, Unique, PastOk, T.Dead, T.EarlierEnded;
    LockIs(s);
    CoreIs(s);
    TaskIs(s, id);
    DrivenIs(s);
    var s', k := DoReconnectClaims(s, id), CoreOf(s);
    if s.c.state == Connected {
      assert CoreOf(s') == k.(state := Reconnecting);
      forall i | i in s.tasks && i != id
        ensures TaskOk(CoreOf(s'), s.tasks[i])
      {
        TaskIs(s, i);
        Alone(s, i, id);
        Claims(k, s.tasks[i]);
      }
      assert Carries(s'.tasks[id], s.c.cts);
      CoreMoved(s, s', id, Some(Notifying(s.c.cts)));
    } else {
      if Lost(k) { NewsWhileReconnecting(s, id); }
      TaskMoved(s, id, None, None);
    }
  }

  lemma Claims(k: Core, t: Task)
    requires TaskOk(k, t) && k.state == Connected && k.event && !Carries(t, k.cts)
    ensures TaskOk(k.(state := Reconnecting), t)
  {
  }

  /** A call that finds the connection reconnecting is not the one that carries the news. */
  lemma NewsWhileReconnecting(s: World, id: nat)
    requires Inv(s) && CanReconnectClaims(s, id) && s.c.state != Connected && Lost(CoreOf(s))
    ensures !Carries(s.tasks[id], s.c.cts)
  {
    hide Inv, T.Inv, Unique, PastOk, T.Dead, T.EarlierEnded;
    LockIs(s);
    CoreIs(s);
    TaskIs(s, id);
  }

  lemma ResumesCurrent(s: World, id: nat)
    requires Inv(s) && CanReconnectResumes(s, id) && MayResume(s.c, s.tasks[id].cts)
    ensures s.tasks[id].cts == s.c.cts
  {
    hide Inv, PastChainOk, T.Inv;
    PastIs(s);
    TaskIs(s, id);
  }

  lemma KeepReconnectResumes(s: World, id: nat)
    requires Inv(s) && CanReconnectResumes(s, id)
    ensures Inv(DoReconnectResumes(s, id))
  {
    hide Inv, Unique, PastOk, ChainOk, WireOk, TaskOk, Lost;
    LockIs(s);
    CoreIs(s);
    TaskIs(s, id);
    DrivenIs(s);
    var s', k, cts := DoReconnectResumes(s, id), CoreOf(s), s.tasks[id].cts;
    if MayResume(s.c, cts) {
      ResumesCurrent(s, id);
      ResumedCore(k, s.tasks[id]);
      assert CoreOf(s') == k.(event := false);
      TasksAre(s);
      NoAttemptOnceSignalled(k, s.tasks);
      forall i | i in s.tasks && i != id
        ensures TaskOk(CoreOf(s'), s.tasks[i])
      {
        TaskIs(s, i);
        Alone(s, i, id);
        Resets(k, s.tasks[i]);
      }
      assert Attempting(s'.tasks[id]) && Carries(s'.tasks[id], s.c.cts);
      StartedIs(s);
      CoreMoved(s, s', id, Some(Preparing(cts)));
    } else {
      LeavesNoLoss(s, id);
      TaskMoved(s, id, None, s.c.lock);
    }
  }

  lemma ResumedCore(k: Core, t: Task)
    requires TaskOk(k, t) && t.Notifying? && t.cts == k.cts && k.state == Reconnecting && !k.canceled
    requires ChainOk(k) && WireOk(k)
    ensures k.event
    ensures var k' := k.(event := false); ChainOk(k') && WireOk(k') && TaskOk(k', Preparing(k.cts))
  {
    hide T.Inv, T.Dead, T.EarlierEnded, T.IsOpen;
  }

  /** A superseded reconnect carries no news of a transport in use. */
  lemma LeavesNoLoss(s: World, id: nat)
    requires Inv(s) && CanReconnectResumes(s, id) && !MayResume(s.c, s.tasks[id].cts)
    ensures !Carries(s.tasks[id], s.c.cts) || !Lost(CoreOf(s))
  {
    hide Inv, T.Dead, T.Gone;
    TaskIs(s, id);
  }

  lemma Resets(k: Core, t: Task)
    requires TaskOk(k, t) && !Holds(t) && k.event && k.state == Reconnecting
    requires !(t.Notifying? && t.cts == k.cts)
    ensures TaskOk(k.(event := false), t)
  {
  }

  lemma KeepTryConnect(s: World, id: nat)
    requires Inv(s) && CanTryConnect(s, id)
    ensures Inv(DoTryConnect(s, id))
  {
    hide Inv, Unique, PastOk, ChainOk, WireOk, TaskOk, Lost, T.DoBeginConnect, T.Live;
    LockIs(s);
    CoreIs(s);
    TaskIs(s, id);
    DrivenIs(s);
    var s', k, g := DoTryConnect(s, id), CoreOf(s), s.c.cts;
    TryingCore(k, s.tasks[id]);
    if g in s.c.cancelled {
      TaskMoved(s, id, Some(GivingUp(g)), s.c.lock);
    } else {
      DialsWire(k, s.tasks[id]);
      assert CoreOf(s') == k.(wire := Some(T.DoBeginConnect(k.wire.value)));
      forall i | i in s.tasks && i != id
        ensures TaskOk(CoreOf(s'), s.tasks[i])
      {
        TaskIs(s, i);
        Alone(s, i, id);
        Dials(k, s.tasks[i], T.DoBeginConnect(k.wire.value));
      }
      assert Attempting(s'.tasks[id]);
      StartedIs(s);
      CoreMoved(s, s', id, Some(s'.tasks[id]));
    }
  }

  lemma TryingCore(k: Core, t: Task)
    requires TaskOk(k, t) && t.Trying?
    ensures t.cts == k.cts && k.wire.Some? && !k.event && k.state == Reconnecting
    ensures k.canceled ==> TaskOk(k, GivingUp(k.cts)) && !Lost(k)
  {
    hide T.Dead, T.Gone;
  }

  lemma Dials(k: Core, t: Task, w: T.Wire)
    requires TaskOk(k, t) && !Attempting(t) && !Carries(t, k.cts) && !k.event
    ensures TaskOk(k.(wire := Some(w)), t)
  {
  }

  /** An attempt finds the token of the receive loop cancelled, so `connect` does not throw. */
  lemma DialsWire(k: Core, t: Task)
    requires TaskOk(k, t) && t.Trying? && WireOk(k) && ChainOk(k) && !k.canceled
    ensures !T.Live(k.wire.value) && k.transport == Some(k.cts)
    ensures var k' := k.(wire := Some(T.DoBeginConnect(k.wire.value)));
            && WireOk(k') && ChainOk(k') && !Lost(k')
            && TaskOk(k', Launching(t.cts, t.url, k.cts, |k.wire.value.loops|))
  {
    T.Keep(k.wire.value, T.BeginConnect);
  }

  lemma KeepLaunchReturns(s: World, id: nat)
    requires Inv(s) && CanLaunchReturns(s, id)
    ensures Inv(DoLaunchReturns(s, id))
  {
    hide Inv, T.Inv, Unique, PastOk, T.Dead, T.EarlierEnded;
    LockIs(s);
    CoreIs(s);
    TaskIs(s, id);
    DrivenIs(s);
    var s', k, g := DoLaunchReturns(s, id), CoreOf(s), s.c.cts;
    ReturnsWire(k, s.tasks[id]);
    assert CoreOf(s') == k.(wire := Some(T.DoEndConnect(k.wire.value)));
    forall i | i in s.tasks && i != id
      ensures TaskOk(CoreOf(s'), s.tasks[i])
    {
      TaskIs(s, i);
      Alone(s, i, id);
      Returns(k, s.tasks[i]);
    }
    assert Attempting(s'.tasks[id]);
    if Lost(k) { CarrierAfter(s.tasks, id, Some(s'.tasks[id]), g); }
    CoreMoved(s, s', id, Some(s'.tasks[id]));
  }

  lemma Returns(k: Core, t: Task)
    requires TaskOk(k, t) && !Attempting(t)
    requires k.wire.Some? && T.CanEndConnect(k.wire.value)
    ensures TaskOk(k.(wire := Some(T.DoEndConnect(k.wire.value))), t)
  {
  }

  lemma ReturnsWire(k: Core, t: Task)
    requires TaskOk(k, t) && t.Launching? && WireOk(k) && ChainOk(k)
    requires T.CanEndConnect(k.wire.value)
    ensures var k' := k.(wire := Some(T.DoEndConnect(k.wire.value)));
            && WireOk(k') && ChainOk(k') && (Lost(k') ==> Lost(k))
            && TaskOk(k', Dialling(t.cts, t.url, t.wire, t.loop))
  {
    T.Keep(k.wire.value, T.EndConnect);
  }

  lemma KeepCompleteReconnect(s: World, id: nat)
    requires Inv(s) && CanCompleteReconnect(s, id)
    ensures Inv(DoCompleteReconnect(s, id))
  {
    hide Inv, Unique, PastOk, ChainOk, WireOk, TaskOk, Lost;
    LockIs(s);
    CoreIs(s);
    TaskIs(s, id);
    DrivenIs(s);
    var s', k := DoCompleteReconnect(s, id), CoreOf(s);
    CompletedCore(k, s.tasks[id]);
    StartedIs(s);
    assert CoreOf(s') == k.(state := Connected);
    forall i | i in s.tasks && i != id
      ensures TaskOk(CoreOf(s'), s.tasks[i])
    {
      TaskIs(s, i);
      Alone(s, i, id);
      Connects(k, s.tasks[i]);
    }
    assert Attempting(s'.tasks[id]);
    if Lost(k) { CarrierAfter(s.tasks, id, Some(s'.tasks[id]), s.c.cts); }
    CoreMoved(s, s', id, Some(s'.tasks[id]));
  }

  lemma CompletedCore(k: Core, t: Task)
    requires TaskOk(k, t) && t.Succeeding? && ChainOk(k) && WireOk(k)
    ensures k.state == Reconnecting && !k.event
    ensures var k' := k.(state := Connected);
            ChainOk(k') && WireOk(k') && TaskOk(k', Signalling(t.cts)) && (Lost(k') ==> Lost(k))
  {
    hide T.Inv, T.Dead, T.EarlierEnded, T.IsOpen;
  }

  lemma Connects(k: Core, t: Task)
    requires TaskOk(k, t) && !Attempting(t) && k.state == Reconnecting && !k.event
    ensures TaskOk(k.(state := Connected), t)
  {
  }

  lemma KeepAnnounceReconnect(s: World, id: nat)
    requires Inv(s) && CanAnnounceReconnect(s, id)
    ensures Inv(DoAnnounceReconnect(s, id))
  {
    hide Inv, T.Inv, Unique, PastOk, T.Dead, T.EarlierEnded;
    LockIs(s);
    CoreIs(s);
    TaskIs(s, id);
    DrivenIs(s);
    var s', k := DoAnnounceReconnect(s, id), CoreOf(s);
    assert CoreOf(s') == k.(event := true);
    forall i | i in s.tasks && i != id
      ensures TaskOk(CoreOf(s'), s.tasks[i])
    {
      TaskIs(s, i);
      Alone(s, i, id);
      Signals(k, s.tasks[i]);
    }
    if Lost(k) { CarrierAfter(s.tasks, id, None, s.c.cts); }
    CoreMoved(s, s', id, None);
  }

  lemma Signals(k: Core, t: Task)
    requires TaskOk(k, t) && !Attempting(t)
    requires PendingFor(t, k.cts) ==> k.state != Reconnecting || k.canceled
    ensures TaskOk(k.(event := true), t)
  {
  }

  /** A reconnect gives up only after a refused dial or a stop. */
  lemma NoNewsOnceGivenUp(k: Core, t: Task, other: Task)
    requires TaskOk(k, t) && t.GivingUp? && TaskOk(k, other) && WireOk(k)
    ensures PendingFor(other, k.cts) ==> k.canceled
  {
  }

  lemma KeepAbandonReconnect(s: World, id: nat)
    requires Inv(s) && CanAbandonReconnect(s, id)
    ensures Inv(DoAbandonReconnect(s, id))
  {
    hide Inv, Unique, PastOk, ChainOk, WireOk, TaskOk, Lost;
    LockIs(s);
    CoreIs(s);
    TaskIs(s, id);
    DrivenIs(s);
    var s', k := DoAbandonReconnect(s, id), CoreOf(s);
    AbandonedCore(k, s.tasks[id]);
    StartedIs(s);
    assert CoreOf(s') == k.(event := true);
    forall i | i in s.tasks && i != id
      ensures TaskOk(CoreOf(s'), s.tasks[i])
    {
      TaskIs(s, i);
      Alone(s, i, id);
      NoNewsOnceGivenUp(k, s.tasks[id], s.tasks[i]);
      Signals(k, s.tasks[i]);
    }
    CoreMoved(s, s', id, Some(StopCalled));
  }

  lemma AbandonedCore(k: Core, t: Task)
    requires TaskOk(k, t) && t.GivingUp? && ChainOk(k) && WireOk(k)
    ensures k.state == Reconnecting
    ensures var k' := k.(event := true); ChainOk(k') && WireOk(k') && TaskOk(k', StopCalled) && !Lost(k')
  {
    hide T.Inv, T.EarlierEnded;
  }
}
