/** Where the URL of a reconnect comes from: a second invariant, kept by every step that keeps the first. */
module ProtocolUrls {
  import opened Wrappers
  import opened Frames
  import opened Protocol
  import opened ProtocolInvariant
  import opened ProtocolKeep
  import opened ProtocolKeepTransport
  import opened ProtocolShapes
  import opened ProtocolTasks
  import T = Transport

  function Bodies(seen: seq<Processed>): (r: seq<Frame>)
    ensures |r| == |seen|
  {
    seq(|seen|, i requires 0 <= i < |seen| => seen[i].frame)
  }

  predicate HasUrl(t: Task) {
    t.Trying? || t.Launching? || t.Dialling? || t.Retrying?
  }

  predicate HasDialled(t: Task) {
    t.Launching? || t.Dialling?
  }

  /** The latest loop of the current transport has been entered. */
  predicate CurrentOpen(s: World) {
    s.c.cts in s.wires && T.IsOpen(s.wires[s.c.cts])
  }

  /** The URL holds the token of the current generation and what the first `built` frames left. */
  ghost predicate Built(s: World, url: Url)
    requires s.built <= |s.seen|
  {
    url.token == Some(s.c.cts) && Cursor(url.messageId, url.groupsToken) == Fold(Bodies(s.seen[..s.built]))
  }

  /** The current generation has handed on no frame since the URL was built. */
  ghost predicate NoneSince(s: World) {
    forall k | s.built <= k < |s.seen| :: s.seen[k].generation != s.c.cts
  }

  ghost predicate UrlOk(s: World, t: Task)
    requires s.built <= |s.seen|
  {
    HasUrl(t) ==> Built(s, t.url) && ((HasDialled(t) && CurrentOpen(s)) || NoneSince(s))
  }

  /** Whose frames are processed: those of the current generation, and of earlier ones whose start failed. */
  ghost predicate Entitled(s: World, g: nat) {
    g == s.c.cts || (g < s.c.cts && ChainAt(s, g, Settled(false)) && g !in s.c.cancelled)
  }

  ghost predicate Urls(s: World) {
    && s.c.cursor == Fold(Bodies(s.seen))
    && s.built <= |s.seen|
    && (forall k | 0 <= k < |s.seen| :: Entitled(s, s.seen[k].generation))
    && (forall i | i in s.tasks :: UrlOk(s, s.tasks[i]))
  }

  // ---- Steps that process no frame and build no URL ----

  /** What a task with a URL may become. */
  ghost predicate UrlStep(s: World, s': World, t: Task, t': Task) {
    HasUrl(t) && HasUrl(t') && t'.url == t.url && (HasDialled(t) && CurrentOpen(s) ==> HasDialled(t') && CurrentOpen(s'))
  }

  ghost predicate SameFrames(s: World, s': World) {
    && s'.c.cts == s.c.cts && s'.c.cursor == s.c.cursor && s'.seen == s.seen && s'.built == s.built
    && s'.c.cancelled <= s.c.cancelled + {s.c.cts}
    && (forall g: nat | g < s.c.cts && ChainAt(s, g, Settled(false)) :: ChainAt(s', g, Settled(false)))
  }

  lemma Framed(s: World, s': World)
    requires Urls(s) && SameFrames(s, s')
    requires forall i | i in s'.tasks && HasUrl(s'.tasks[i]) :: i in s.tasks && UrlStep(s, s', s.tasks[i], s'.tasks[i])
    ensures Urls(s')
  {
    forall i | i in s'.tasks
      ensures UrlOk(s', s'.tasks[i])
    {
      if HasUrl(s'.tasks[i]) { assert UrlOk(s, s.tasks[i]); }
    }
  }

  /** The tasks and the current wire stay as they are. */
  lemma TasksStay(s: World, s': World)
    requires Urls(s) && SameFrames(s, s') && s'.tasks == s.tasks
    requires CurrentOpen(s) ==> CurrentOpen(s')
    ensures Urls(s')
  {
    hide Urls, UrlOk, CurrentOpen, SameFrames;
    Framed(s, s');
  }

  /** A step of one task that leaves the chains alone. */
  lemma OneMoved(s: World, s': World, id: nat, after: Option<Task>)
    requires Urls(s) && s'.tasks == Put(s.tasks, id, after) && s'.chains == s.chains
    requires s'.c.cts == s.c.cts && s'.c.cursor == s.c.cursor && s'.seen == s.seen && s'.built == s.built
    requires s'.c.cancelled <= s.c.cancelled + {s.c.cts}
    requires CurrentOpen(s) ==> CurrentOpen(s') || forall i | i in s.tasks && i != id :: !HasUrl(s.tasks[i])
    requires after.Some? && HasUrl(after.value) ==> id in s.tasks && UrlStep(s, s', s.tasks[id], after.value)
    ensures Urls(s')
  {
    hide Urls, CurrentOpen, HasUrl, HasDialled;
    Framed(s, s');
  }

  lemma NoUrlWhileStarting(k: Core, t: Task)
    requires TaskOk(k, t) && (k.state == Disconnected || (k.chain.Some? && !k.chain.value.phase.Settled?))
    ensures !HasUrl(t)
  {
  }

  /** A step of a chain under way: there is no URL yet. */
  lemma ChainStepKept(s: World, s': World, g: nat)
    requires Inv(s) && Urls(s) && SameFrames(s, s') && s'.tasks == s.tasks
    requires s.c.cts in s.chains && !s.chains[s.c.cts].phase.Settled?
    ensures Urls(s')
  {
    forall i | i in s.tasks
      ensures !HasUrl(s.tasks[i])
    {
      NoUrlWhileStarting(CoreOf(s), s.tasks[i]);
    }
    hide Urls, UrlOk, SameFrames, Inv, UrlStep;
    Framed(s, s');
  }

  lemma KeepUrlsStart(s: World)
    requires Inv(s) && CanStart(s)
    ensures Urls(DoStart(s))
  {
    forall i | i in s.tasks
      ensures !HasUrl(s.tasks[i])
    {
      NoUrlWhileStarting(CoreOf(s), s.tasks[i]);
    }
  }

  /** Only the current chain can be under way. */
  lemma UnsettledIsCurrent(s: World, g: nat)
    requires PastOk(s) && g in s.chains && !s.chains[g].phase.Settled?
    ensures g == s.c.cts
  {
  }

  lemma KeepUrlsStartStep(s: World, a: StartStep)
    requires Inv(s) && Urls(s) && CanStartStep(s, a)
    ensures Urls(DoStartStep(s, a))
  {
    if a == Start {
      KeepUrlsStart(s);
    } else if a.TimerFires? || a.ConnectRefused? {
      InitKept(s, a);
    } else {
      UnsettledIsCurrent(s, a.g);
      ChainStepFrames(s, a);
      hide Inv, Urls, SameFrames, CanStartStep, DoStartStep;
      ChainStepKept(s, DoStartStep(s, a), a.g);
    }
  }

  lemma InitKept(s: World, a: StartStep)
    requires Urls(s) && CanStartStep(s, a) && (a.TimerFires? || a.ConnectRefused?)
    ensures Urls(DoStartStep(s, a))
  {
    hide Urls;
    TasksStay(s, DoStartStep(s, a));
  }

  lemma ChainStepFrames(s: World, a: StartStep)
    requires CanStartStep(s, a) && a != Start && !a.TimerFires? && !a.ConnectRefused? && a.g == s.c.cts
    ensures SameFrames(s, DoStartStep(s, a)) && DoStartStep(s, a).tasks == s.tasks
    ensures s.c.cts in s.chains && !s.chains[s.c.cts].phase.Settled?
  {
    hide T.DoBeginConnect, T.DoEndConnect;
  }

  // ---- The steps of transports ----

  lemma KeepUrlsWireStep(s: World, g: nat, step: T.Action)
    requires Inv(s) && Urls(s) && CanWireStep(s, g, step)
    ensures Urls(DoWireStep(s, g, step))
  {
    hide Urls, Inv, T.Do, T.Can, T.Internal, T.IsOpen, SameFrames;
    var s' := DoWireStep(s, g, step);
    OpenAfter(s, g, step);
    WiresOnly(s, s');
    TasksStay(s, s');
  }

  lemma WiresOnly(s: World, s': World)
    requires s' == s.(wires := s'.wires)
    ensures SameFrames(s, s')
  {
  }

  lemma OpenAfter(s: World, g: nat, step: T.Action)
    requires Inv(s) && CanWireStep(s, g, step)
    ensures CurrentOpen(s) ==> CurrentOpen(DoWireStep(s, g, step))
  {
    hide Inv, ChainOk, T.Do, T.Can, T.Inv;
    CoreIs(s);
    if g == s.c.cts { Inside(CoreOf(s), step); }
  }

  lemma KeepUrlsReportLoss(s: World, g: nat, n: nat, id: nat)
    requires Inv(s) && Urls(s) && CanReportLoss(s, g, n, id)
    ensures Urls(DoReportLoss(s, g, n, id))
  {
    hide Urls, Inv, T.Do, T.CanLoop, SameFrames, CurrentOpen;
    var t := s.(wires := s.wires[g := T.Do(s.wires[g], T.Report(n))]);
    StillOpen(s, g, n, id);
    WiresOnly(s, t);
    TasksStay(s, t);
    if g !in s.c.cancelled { Called(t, g, id); }
  }

  lemma StillOpen(s: World, g: nat, n: nat, id: nat)
    requires Inv(s) && CanReportLoss(s, g, n, id)
    ensures CurrentOpen(s) ==> CurrentOpen(s.(wires := s.wires[g := T.Do(s.wires[g], T.Report(n))]))
  {
    hide Inv, ChainOk, T.Do, T.CanLoop, T.Inv, T.EarlierEnded;
    CoreIs(s);
    if g == s.c.cts { ReportsAtEnd(s.wires[g], n); }
  }

  lemma Called(s: World, g: nat, id: nat)
    requires Urls(s) && g in s.chains && id !in s.tasks
    ensures Urls(SetTask(SetInit(s, g, Faulted), id, ReconnectCalled(g)))
  {
    hide Urls;
    var t := SetInit(s, g, Faulted);
    TasksStay(s, t);
    OneMoved(t, SetTask(t, id, ReconnectCalled(g)), id, Some(ReconnectCalled(g)));
  }

  lemma FoldBodies(seen: seq<Processed>, p: Processed)
    ensures Fold(Bodies(seen + [p])) == Process(Fold(Bodies(seen)), p.frame)
  {
    FoldAppend(Bodies(seen), p.frame);
    assert Bodies(seen + [p]) == Bodies(seen) + [p.frame];
  }

  /** The world after a frame of generation `g` was processed, up to chains and wires. */
  ghost predicate FrameStep(s: World, s': World, g: nat, f: Frame) {
    && s'.c == ReceiveSection(s.c, f) && s'.seen == s.seen + [Processed(g, f)] && s'.built == s.built
    && s'.tasks == s.tasks
    && (forall g: nat | g < s.c.cts && ChainAt(s, g, Settled(false)) :: ChainAt(s', g, Settled(false)))
  }

  lemma FrameKept(s: World, s': World, g: nat, f: Frame)
    requires Urls(s) && FrameStep(s, s', g, f) && Entitled(s, g)
    requires CurrentOpen(s) ==> CurrentOpen(s')
    requires g == s.c.cts ==> CurrentOpen(s) && forall i | i in s.tasks :: HasUrl(s.tasks[i]) ==> HasDialled(s.tasks[i])
    ensures Urls(s')
  {
    FoldBodies(s.seen, Processed(g, f));
    assert s'.seen[..s.built] == s.seen[..s.built];
    forall i | i in s.tasks
      ensures UrlOk(s', s.tasks[i])
    {
      assert UrlOk(s, s.tasks[i]);
    }
  }

  lemma LoopingHasDialled(k: Core, t: Task)
    requires TaskOk(k, t) && k.wire.Some? && !T.Dead(k.wire.value)
    ensures HasUrl(t) ==> HasDialled(t)
  {
  }

  lemma StrayIsEntitled(s: World, g: nat)
    requires PastOk(s) && g in s.chains && g !in s.c.cancelled
    ensures Entitled(s, g)
  {
  }

  lemma KeepUrlsHandFrame(s: World, g: nat, n: nat)
    requires Inv(s) && Urls(s) && CanHandFrame(s, g, n)
    ensures Urls(DoHandFrame(s, g, n))
  {
    hide Urls, Inv, CurrentOpen, T.Do, T.CanLoop, HasUrl, HasDialled;
    var s' := DoHandFrame(s, g, n);
    HandsOpen(s, g, n);
    if g in s.c.cancelled {
      TasksStay(s, s');
    } else {
      assert Entitled(s, g) by { assert PastOk(s) by { PastIs(s); } StrayIsEntitled(s, g); }
      FrameKept(s, s', g, FrameInHand(s, g, n));
    }
  }

  /** A frame of the current transport comes from an open loop, so that no attempt is before or between its dials. */
  lemma HandsOpen(s: World, g: nat, n: nat)
    requires Inv(s) && CanHandFrame(s, g, n)
    ensures CurrentOpen(s) ==> CurrentOpen(DoHandFrame(s, g, n))
    ensures g == s.c.cts ==> CurrentOpen(s) && forall i | i in s.tasks :: HasUrl(s.tasks[i]) ==> HasDialled(s.tasks[i])
  {
    hide Inv, TaskOk, T.Do, T.Dead, T.IsOpen, T.CanLoop;
    if g == s.c.cts {
      CoreIs(s);
      WireShut(CoreOf(s));
      HandsWhileOpen(s.wires[g], n);
      forall i | i in s.tasks
        ensures HasUrl(s.tasks[i]) ==> HasDialled(s.tasks[i])
      {
        TaskIs(s, i);
        LoopingHasDialled(CoreOf(s), s.tasks[i]);
      }
    }
  }

  lemma WireShut(k: Core)
    requires WireOk(k) && k.wire.Some?
    ensures T.Inv(k.wire.value) && T.EarlierEnded(k.wire.value)
  {
    hide T.Inv, T.EarlierEnded;
  }

  // ---- The steps of `stop` and `reconnect` ----

  lemma KeepUrlsStopStep(s: World, a: StopStep)
    requires Urls(s) && CanStopStep(s, a)
    ensures Urls(DoStopStep(s, a))
  {
    hide Urls, CanStopStep, DoStopStep, CurrentOpen;
    var s' := DoStopStep(s, a);
    StopShape(s, a);
    StopKeepsOpen(s, a);
    OneMoved(s, s', a.id, At(s'.tasks, a.id));
  }

  lemma StopKeepsOpen(s: World, a: StopStep)
    requires CanStopStep(s, a)
    ensures CurrentOpen(s) ==> CurrentOpen(DoStopStep(s, a))
  {
    hide T.CanDisconnect, T.DoDisconnect, T.IsOpen, DoStopLocks, DoStopReads, DoStopResumes;
    match a
    case StopAborts(id) => if s.c.transport.Some? { CutsOpen(s.wires[s.c.transport.value]); }
    case StopLocks(id) => StopLocksWires(s, id);
    case StopReads(id) => StopReadsWires(s, id);
    case StopResumes(id) => StopResumesWires(s, id);
    case _ =>
  }

  lemma StopLocksWires(s: World, id: nat)
    requires CanStopLocks(s, id)
    ensures DoStopLocks(s, id).wires == s.wires && DoStopLocks(s, id).c.cts == s.c.cts
  {
  }

  lemma StopReadsWires(s: World, id: nat)
    requires TaskAt(s, id, StopAwake)
    ensures DoStopReads(s, id).wires == s.wires && DoStopReads(s, id).c.cts == s.c.cts
  {
  }

  lemma StopResumesWires(s: World, id: nat)
    requires CanStopResumes(s, id)
    ensures DoStopResumes(s, id).wires == s.wires && DoStopResumes(s, id).c.cts == s.c.cts
  {
  }

  lemma CutsOpen(w: T.Wire)
    requires T.CanDisconnect(w)
    ensures T.IsOpen(w) ==> T.IsOpen(T.DoDisconnect(w))
  {
  }

  lemma KeepUrlsBuildUrl(s: World, id: nat)
    requires Inv(s) && Urls(s) && CanBuildUrl(s, id)
    ensures Urls(DoBuildUrl(s, id))
  {
    hide Inv, Fold, Bodies, Entitled;
    TokenIsOwn(s, id);
    OnlyUrl(s, id);
    var s' := DoBuildUrl(s, id);
    assert s.seen[..|s.seen|] == s.seen;
    forall k | 0 <= k < |s'.seen|
      ensures Entitled(s', s'.seen[k].generation)
    {
      EntitledStays(s, s', s.seen[k].generation);
    }
  }

  lemma TokenIsOwn(s: World, id: nat)
    requires Inv(s) && id in s.tasks && Attempting(s.tasks[id])
    ensures s.c.token == Some(s.c.cts)
  {
    hide Inv, WireOk, T.IsOpen, T.Dead;
    TaskIs(s, id);
    CoreIs(s);
  }

  lemma EntitledStays(s: World, s': World, g: nat)
    requires Entitled(s, g) && s'.c.cts == s.c.cts && s'.chains == s.chains && s'.c.cancelled == s.c.cancelled
    ensures Entitled(s', g)
  {
  }

  /** While one task attempts, no other has a URL. */
  lemma OnlyUrl(s: World, id: nat)
    requires Inv(s) && id in s.tasks && Attempting(s.tasks[id])
    ensures forall i | i in s.tasks && i != id :: !HasUrl(s.tasks[i])
  {
    forall i | i in s.tasks && i != id
      ensures !HasUrl(s.tasks[i])
    {
      Alone(s, i, id);
    }
  }

  lemma KeepUrlsDialDone(s: World, id: nat)
    requires Inv(s) && Urls(s) && CanDialDone(s, id)
    ensures Urls(DoDialDone(s, id))
  {
    hide Urls, Inv, CurrentOpen;
    var s' := DoDialDone(s, id);
    if s'.tasks[id].Retrying? { DialShut(s, id); }
    OpenStays(s, s');
    OneMoved(s, s', id, Some(s'.tasks[id]));
  }

  lemma OpenStays(s: World, s': World)
    requires s'.wires == s.wires && s'.c.cts == s.c.cts
    ensures CurrentOpen(s') == CurrentOpen(s)
  {
  }

  lemma DialShut(s: World, id: nat)
    requires Inv(s) && CanDialDone(s, id) && DoDialDone(s, id).tasks[id].Retrying?
    ensures !CurrentOpen(s)
  {
    hide Inv;
    TaskIs(s, id);
    RefusedIsShut(CoreOf(s), s.tasks[id]);
  }

  lemma RefusedIsShut(k: Core, t: Task)
    requires t.Dialling? && TaskOk(k, t) && t.loop < |k.wire.value.loops| && k.wire.value.loops[t.loop].dial == T.Refused
    ensures k.wire.Some? && !T.IsOpen(k.wire.value)
  {
  }

  lemma KeepUrlsLaunchReturns(s: World, id: nat)
    requires Urls(s) && CanLaunchReturns(s, id)
    ensures Urls(DoLaunchReturns(s, id))
  {
    hide Urls;
    var s' := DoLaunchReturns(s, id);
    OneMoved(s, s', id, Some(s'.tasks[id]));
  }

  lemma KeepUrlsTryConnect(s: World, id: nat)
    requires Inv(s) && Urls(s) && CanTryConnect(s, id)
    ensures Urls(DoTryConnect(s, id))
  {
    hide Inv, Urls, CurrentOpen, T.DoBeginConnect, T.Live;
    OnlyUrl(s, id);
    var s' := DoTryConnect(s, id);
    OneMoved(s, s', id, if id in s'.tasks then Some(s'.tasks[id]) else None);
  }

  lemma KeepUrlsReconnectStep(s: World, a: ReconnectStep)
    requires Inv(s) && Urls(s) && CanReconnectStep(s, a)
    ensures Urls(DoReconnectStep(s, a))
  {
    hide Inv, Urls;
    match a
    case BuildUrl(id) => KeepUrlsBuildUrl(s, id);
    case DialDone(id) => KeepUrlsDialDone(s, id);
    case TryConnect(id) => KeepUrlsTryConnect(s, id);
    case LaunchReturns(id) => KeepUrlsLaunchReturns(s, id);
    case _ => UrlUntouched(s, a);
  }

  lemma UrlUntouched(s: World, a: ReconnectStep)
    requires Urls(s) && CanReconnectStep(s, a)
    requires !a.BuildUrl? && !a.DialDone? && !a.TryConnect? && !a.LaunchReturns?
    ensures Urls(DoReconnectStep(s, a))
  {
    hide Urls, CurrentOpen, DoReconnectStep, CanReconnectStep;
    var s' := DoReconnectStep(s, a);
    ReconnectShape(s, a);
    UrlStays(s, a);
    OpenStays(s, s');
    OneMoved(s, s', a.id, At(s'.tasks, a.id));
  }

  lemma UrlStays(s: World, a: ReconnectStep)
    requires CanReconnectStep(s, a)
    requires !a.BuildUrl? && !a.DialDone? && !a.TryConnect? && !a.LaunchReturns?
    ensures var s' := DoReconnectStep(s, a);
            && s'.wires == s.wires && s'.built == s.built
            && (a.id in s'.tasks && HasUrl(s'.tasks[a.id]) ==>
                  && a.id in s.tasks && s.tasks[a.id].Retrying? && s'.tasks[a.id].Trying?
                  && s'.tasks[a.id].url == s.tasks[a.id].url)
  {
  }

  /** Every step keeps the second invariant together with the first, whoever's frames arrive. */
  lemma KeepUrls(s: World, a: Action)
    requires Inv(s) && Urls(s) && Can(s, a)
    ensures Urls(Do(s, a))
  {
    hide Inv, Urls;
    match a
    case OfStart(b) => KeepUrlsStartStep(s, b);
    case OfTransport(WireStep(g, step)) => KeepUrlsWireStep(s, g, step);
    case OfTransport(HandFrame(g, n)) => KeepUrlsHandFrame(s, g, n);
    case OfTransport(ReportLoss(g, n, id)) => KeepUrlsReportLoss(s, g, n, id);
    case OfStop(b) => KeepUrlsStopStep(s, b);
    case OfReconnect(b) => KeepUrlsReconnectStep(s, b);
  }

  lemma InitiallyUrls()
    ensures Urls(INITIAL)
  {
  }
}
