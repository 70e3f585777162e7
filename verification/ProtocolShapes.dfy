/** What the steps of `start`, `stop` and `reconnect` leave alone, whatever the world they are taken in. */
module ProtocolShapes {
  import opened Protocol
  import opened ProtocolInvariant
  import opened ProtocolTasks
  import T = Transport

  predicate IsStop(t: Task) {
    HoldsForStop(t) || Closing(t) || t.StopCalled? || t.StopFound?
  }

  /** A step of the `stop` that is task `id`. */
  ghost predicate StopShaped(s: World, s': World, id: nat) {
    && s'.tasks == Put(s.tasks, id, At(s'.tasks, id))
    && (id in s.tasks ==> IsStop(s.tasks[id])) && (id in s'.tasks ==> IsStop(s'.tasks[id]))
    && s'.chains == s.chains && s'.seen == s.seen && s'.built == s.built
    && s'.c.cts == s.c.cts && s'.c.cursor == s.c.cursor
    && s.c.cancelled <= s'.c.cancelled <= s.c.cancelled + {s.c.cts}
  }

  lemma StopLocksShaped(s: World, id: nat)
    requires CanStopLocks(s, id)
    ensures StopShaped(s, DoStopLocks(s, id), id)
  {
  }

  lemma StopReadsShaped(s: World, id: nat)
    requires TaskAt(s, id, StopAwake)
    ensures StopShaped(s, DoStopReads(s, id), id)
  {
  }

  lemma StopAbortsShaped(s: World, id: nat)
    requires CanStopAborts(s, id)
    ensures StopShaped(s, DoStopAborts(s, id), id)
  {
    hide T.CanDisconnect, T.DoDisconnect;
  }

  lemma StopResumesShaped(s: World, id: nat)
    requires CanStopResumes(s, id)
    ensures StopShaped(s, DoStopResumes(s, id), id)
  {
  }

  lemma StopShape(s: World, a: StopStep)
    requires CanStopStep(s, a)
    ensures StopShaped(s, DoStopStep(s, a), a.id)
  {
    hide DoStopLocks, DoStopReads, DoStopAborts, DoStopResumes, CanStopLocks, CanStopAborts, CanStopResumes;
    match a
    case CallStop(id) =>
    case StopLocks(id) => StopLocksShaped(s, id);
    case StopWakes(id) =>
    case StopReads(id) => StopReadsShaped(s, id);
    case StopCommits(id) =>
    case StopAborts(id) => StopAbortsShaped(s, id);
    case StopFinishes(id) =>
    case StopResumes(id) => StopResumesShaped(s, id);
  }

  /** A step of the `reconnect` that is task `id`. */
  ghost predicate ReconnectShaped(s: World, s': World, id: nat) {
    && id in s.tasks && s'.tasks == Put(s.tasks, id, At(s'.tasks, id))
    && s'.chains == s.chains && s'.seen == s.seen
    && s'.c.cts == s.c.cts && s'.c.cursor == s.c.cursor && s'.c.cancelled == s.c.cancelled
  }

  lemma TryConnectShaped(s: World, id: nat)
    requires CanTryConnect(s, id)
    ensures ReconnectShaped(s, DoTryConnect(s, id), id)
  {
    hide T.DoBeginConnect, T.Live;
  }

  lemma ResumesShaped(s: World, id: nat)
    requires CanReconnectResumes(s, id)
    ensures ReconnectShaped(s, DoReconnectResumes(s, id), id)
  {
  }

  lemma ClaimsShaped(s: World, id: nat)
    requires CanReconnectClaims(s, id)
    ensures ReconnectShaped(s, DoReconnectClaims(s, id), id)
  {
  }

  lemma LaunchShaped(s: World, id: nat)
    requires CanLaunchReturns(s, id)
    ensures ReconnectShaped(s, DoLaunchReturns(s, id), id)
  {
    hide T.DoEndConnect, T.CanEndConnect;
  }

  lemma ReconnectShape(s: World, a: ReconnectStep)
    requires CanReconnectStep(s, a)
    ensures ReconnectShaped(s, DoReconnectStep(s, a), a.id)
  {
    hide DoTryConnect, CanTryConnect, DoReconnectResumes, DoReconnectClaims, DoLaunchReturns, CanLaunchReturns;
    match a
    case TryConnect(id) => TryConnectShaped(s, id);
    case ReconnectResumes(id) => ResumesShaped(s, id);
    case ReconnectClaims(id) => ClaimsShaped(s, id);
    case LaunchReturns(id) => LaunchShaped(s, id);
    case _ =>
  }

  /** A step of `start` or of its chain. */
  lemma StartShape(s: World, a: StartStep)
    requires CanStartStep(s, a)
    ensures DoStartStep(s, a).tasks == s.tasks && DoStartStep(s, a).c.cancelled == s.c.cancelled
    ensures DoStartStep(s, a).c.lock == s.c.lock
    ensures a == Start || (DoStartStep(s, a).c.cts == s.c.cts && DoStartStep(s, a).seen == s.seen)
    ensures a == Start ==> DoStartStep(s, a).seen == []
  {
    hide T.DoBeginConnect, T.DoEndConnect, T.CanEndConnect;
  }

  lemma TransportShape(s: World, a: TransportStep, id: nat)
    requires CanTransportStep(s, a) && id in s.tasks
    ensures id in DoTransportStep(s, a).tasks && DoTransportStep(s, a).tasks[id] == s.tasks[id]
    ensures DoTransportStep(s, a).c.cancelled == s.c.cancelled && DoTransportStep(s, a).c.cts == s.c.cts
  {
    hide T.Do, T.Can, T.CanLoop, ReceiveSection;
    assert forall f :: ReceiveSection(s.c, f).cancelled == s.c.cancelled by { Received(s.c); }
    Received(s.c);
  }

  lemma Received(c: Connection)
    ensures forall f :: ReceiveSection(c, f) == c.(cursor := ReceiveSection(c, f).cursor)
  {
  }
}
