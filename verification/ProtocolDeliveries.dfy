/** From the socket to the connection: the frames processed for the current generation are those its transport handed
    on, in order, and a start is released by its init frame and by nothing else. A fourth invariant. */
module ProtocolDeliveries {
  import opened Frames
  import opened Protocol
  import opened ProtocolInvariant
  import opened ProtocolKeepTransport
  import opened ProtocolRuns
  import opened ProtocolShapes
  import opened StrayFrames
  import T = Transport

  /** What the receive loops of a transport handed on, one loop after the other. */
  function Handed(loops: seq<T.Loop>): seq<Frame> {
    if loops == [] then [] else Handed(loops[..|loops| - 1]) + loops[|loops| - 1].handed
  }

  function HandedBy(s: World, g: nat): seq<Frame> {
    if g in s.wires then Handed(s.wires[g].loops) else []
  }

  /** What was processed for the current generation is what its transport handed on, up to its cancellation. */
  ghost predicate DeliveredOk(s: World) {
    && OwnFrames(s.seen, s.c.cts) <= HandedBy(s, s.c.cts)
    && (s.c.cts !in s.c.cancelled ==> OwnFrames(s.seen, s.c.cts) == HandedBy(s, s.c.cts))
  }

  /** A start was released by an init frame, and an init frame releases it. */
  ghost predicate ReleasedOk(s: World) {
    && (forall g | g in s.chains && s.chains[g].init == Released(false) :: exists f :: f in HandedBy(s, g) && Starts(f))
    && (forall f | f in OwnFrames(s.seen, s.c.cts) && Starts(f) :: s.c.cts in s.chains && s.chains[s.c.cts].init != Unset)
  }

  // ---- One transport ----

  lemma {:induction false} HandedAt(loops: seq<T.Loop>, n: nat, l: T.Loop)
    requires n < |loops| && l.handed == loops[n].handed
    ensures Handed(loops[n := l]) == Handed(loops)
    decreases |loops|
  {
    var last := |loops| - 1;
    if n < last {
      assert loops[n := l][..last] == loops[..last][n := l];
      HandedAt(loops[..last], n, l);
    } else {
      assert loops[n := l][..last] == loops[..last];
    }
  }

  lemma HandedLast(loops: seq<T.Loop>, l: T.Loop, f: Frame)
    requires loops != [] && l.handed == loops[|loops| - 1].handed + [f]
    ensures Handed(loops[|loops| - 1 := l]) == Handed(loops) + [f]
  {
    var last := |loops| - 1;
    assert loops[last := l][..last] == loops[..last];
    assert Handed(loops[..last]) + (loops[last].handed + [f]) == (Handed(loops[..last]) + loops[last].handed) + [f];
  }

  lemma HandedNew(loops: seq<T.Loop>, l: T.Loop)
    requires l.handed == []
    ensures Handed(loops + [l]) == Handed(loops)
  {
    assert (loops + [l])[..|loops|] == loops;
  }

  /** Only handing a frame on changes what was handed on. */
  lemma HandedStep(w: T.Wire, a: T.Action)
    requires T.Can(w, a) && !a.Hand?
    ensures Handed(T.Do(w, a).loops) == Handed(w.loops)
  {
    hide Handed;
    if a.BeginConnect? {
      HandedNew(w.loops, T.FRESH_LOOP);
    } else if a.Disconnect? {
      HandedAt(w.loops, w.token, w.loops[w.token].(live := false));
    } else if !a.EndConnect? {
      HandedAt(w.loops, a.n, T.DoLoop(w.loops[a.n], w.client, a));
    }
  }

  /** The loop that hands a frame on is the latest one. */
  lemma HandsLast(w: T.Wire, n: nat)
    requires T.EarlierEnded(w) && n < |w.loops| && T.CanLoop(w.loops[n], T.Hand(n))
    ensures Handed(T.Do(w, T.Hand(n)).loops) == Handed(w.loops) + [w.loops[n].sent[w.loops[n].taken - 1]]
  {
    assert n == |w.loops| - 1;
    HandedLast(w.loops, T.DoLoop(w.loops[n], w.client, T.Hand(n)), w.loops[n].sent[w.loops[n].taken - 1]);
  }

  lemma {:induction false} MembersStay(loops: seq<T.Loop>, n: nat, l: T.Loop, f: Frame)
    requires n < |loops| && loops[n].handed <= l.handed && f in Handed(loops)
    ensures f in Handed(loops[n := l])
    decreases |loops|
  {
    var last := |loops| - 1;
    if n < last {
      assert loops[n := l][..last] == loops[..last][n := l];
      if f in Handed(loops[..last]) { MembersStay(loops[..last], n, l, f); }
    } else {
      assert loops[n := l][..last] == loops[..last];
    }
  }

  /** What was handed on stays handed on. */
  lemma HandedGrows(w: T.Wire, a: T.Action, f: Frame)
    requires T.Can(w, a) && f in Handed(w.loops)
    ensures f in Handed(T.Do(w, a).loops)
  {
    hide Handed;
    if a.Hand? {
      MembersStay(w.loops, a.n, T.DoLoop(w.loops[a.n], w.client, a), f);
    } else {
      HandedStep(w, a);
    }
  }

  lemma {:induction false} MemberAt(loops: seq<T.Loop>, n: nat, f: Frame)
    requires n < |loops| && f in loops[n].handed
    ensures f in Handed(loops)
    decreases |loops|
  {
    if n < |loops| - 1 {
      MemberAt(loops[..|loops| - 1], n, f);
    }
  }

  lemma HandIn(w: T.Wire, n: nat)
    requires n < |w.loops| && T.CanLoop(w.loops[n], T.Hand(n))
    ensures w.loops[n].sent[w.loops[n].taken - 1] in Handed(T.Do(w, T.Hand(n)).loops)
  {
    hide Handed;
    MemberAt(T.Do(w, T.Hand(n)).loops, n, w.loops[n].sent[w.loops[n].taken - 1]);
  }

  // ---- Steps that hand no frame on ----

  predicate HandsFrame(a: Action) {
    a.OfTransport? && a.transport.HandFrame?
  }

  lemma SameInStart(s: World, a: StartStep, g: nat)
    requires CanStartStep(s, a) && (a.Negotiated? ==> a.g !in s.wires)
    ensures HandedBy(DoStartStep(s, a), g) == HandedBy(s, g)
  {
    hide Handed, T.DoBeginConnect, T.DoEndConnect;
    if a.Negotiated? { NothingYet(); }
    if a.ConnectReturns? { HandedStep(s.wires[a.g], T.EndConnect); }
  }

  lemma NothingYet()
    ensures Handed(T.DoBeginConnect(T.FRESH_WIRE).loops) == []
  {
    HandedNew(T.FRESH_WIRE.loops, T.FRESH_LOOP);
    assert T.FRESH_WIRE.loops[..0] == [];
  }

  lemma SameInTransport(s: World, a: TransportStep, g: nat)
    requires CanTransportStep(s, a) && !a.HandFrame?
    ensures HandedBy(DoTransportStep(s, a), g) == HandedBy(s, g)
  {
    hide Handed, T.Do, T.CanLoop;
    match a
    case WireStep(h, step) => HandedStep(s.wires[h], step);
    case ReportLoss(h, n, _) => HandedStep(s.wires[h], T.Report(n));
    case HandFrame(_, _) =>
  }

  lemma SameInStop(s: World, a: StopStep, g: nat)
    requires CanStopStep(s, a)
    ensures HandedBy(DoStopStep(s, a), g) == HandedBy(s, g)
  {
    hide Handed, T.DoDisconnect, T.CanDisconnect;
    if a.StopAborts? && s.c.transport.Some? { HandedStep(s.wires[s.c.transport.value], T.Disconnect); }
  }

  lemma SameInReconnect(s: World, a: ReconnectStep, g: nat)
    requires CanReconnectStep(s, a)
    ensures HandedBy(DoReconnectStep(s, a), g) == HandedBy(s, g)
  {
    hide Handed, DoTryConnect, DoLaunchReturns, CanLaunchReturns;
    if a.TryConnect? { SameInTry(s, a.id, g); }
    if a.LaunchReturns? { SameInLaunch(s, a.id, g); }
  }

  lemma SameInTry(s: World, id: nat, g: nat)
    requires CanTryConnect(s, id)
    ensures HandedBy(DoTryConnect(s, id), g) == HandedBy(s, g)
  {
    hide Handed;
    if s.c.transport.Some? && !T.Live(s.wires[s.c.transport.value]) {
      HandedStep(s.wires[s.c.transport.value], T.BeginConnect);
    }
  }

  lemma SameInLaunch(s: World, id: nat, g: nat)
    requires CanLaunchReturns(s, id)
    ensures HandedBy(DoLaunchReturns(s, id), g) == HandedBy(s, g)
  {
    hide Handed;
    HandedStep(s.wires[s.tasks[id].wire], T.EndConnect);
  }

  lemma SameHanded(s: World, a: Action, g: nat)
    requires Inv(s) && Can(s, a) && !HandsFrame(a)
    ensures HandedBy(Do(s, a), g) == HandedBy(s, g)
  {
    hide Inv, HandedBy, DoStartStep, CanTransportStep, DoTransportStep, CanStopStep, DoStopStep, CanReconnectStep,
      DoReconnectStep;
    match a
    case OfStart(b) =>
      if b.Negotiated? { NoWireYet(s, b.g); }
      SameInStart(s, b, g);
    case OfTransport(b) => SameInTransport(s, b, g);
    case OfStop(b) => SameInStop(s, b, g);
    case OfReconnect(b) => SameInReconnect(s, b, g);
  }

  lemma NoWireYet(s: World, g: nat)
    requires Inv(s) && CanNegotiated(s, g)
    ensures g !in s.wires
  {
    hide Inv, WireOk, T.Inv;
    CoreIs(s);
    PastIs(s);
  }

  // ---- What is processed is what was handed on ----

  lemma DeliveredFramed(s: World, s': World)
    requires DeliveredOk(s) && s'.seen == s.seen && s'.c.cts == s.c.cts && s.c.cancelled <= s'.c.cancelled
    requires HandedBy(s', s.c.cts) == HandedBy(s, s.c.cts)
    ensures DeliveredOk(s')
  {
    hide HandedBy, OwnFrames;
  }

  /** Steps other than `start` and the handing on of a frame process none, and cancel at most. */
  lemma ProcessesNone(s: World, a: Action)
    requires Can(s, a) && !HandsFrame(a) && a != OfStart(Start)
    ensures Do(s, a).seen == s.seen && Do(s, a).c.cts == s.c.cts && s.c.cancelled <= Do(s, a).c.cancelled
  {
    hide CanStartStep, DoStartStep, CanStopStep, DoStopStep, CanReconnectStep, DoReconnectStep, T.Do, T.Can, T.CanLoop;
    match a
    case OfStart(b) => StartShape(s, b);
    case OfTransport(b) =>
    case OfStop(b) => StopShape(s, b);
    case OfReconnect(b) => ReconnectShape(s, b);
  }

  lemma NothingInNew(s: World)
    requires Inv(s) && CanStart(s)
    ensures HandedBy(DoStart(s), s.c.cts + 1) == [] && OwnFrames([], s.c.cts + 1) == []
  {
    hide Inv, Handed, PastChainOk, T.Inv;
    PastIs(s);
  }

  lemma HandDelivers(s: World, g: nat, n: nat)
    requires Inv(s) && DeliveredOk(s) && CanHandFrame(s, g, n)
    ensures DeliveredOk(DoHandFrame(s, g, n))
  {
    hide Inv, OwnFrames, Handed, T.Do, T.CanLoop;
    var f := FrameInHand(s, g, n);
    if g == s.c.cts { HandsCurrent(s, n); }
    OwnAppend(s.seen, Processed(g, f), s.c.cts);
  }

  lemma HandsCurrent(s: World, n: nat)
    requires Inv(s) && CanHandFrame(s, s.c.cts, n)
    ensures Handed(T.Do(s.wires[s.c.cts], T.Hand(n)).loops) == HandedBy(s, s.c.cts) + [FrameInHand(s, s.c.cts, n)]
  {
    hide Inv, Handed, T.Do, T.Inv;
    CoreIs(s);
    HandsLast(s.wires[s.c.cts], n);
  }

  lemma KeepDelivered(s: World, a: Action)
    requires Inv(s) && DeliveredOk(s) && Can(s, a)
    ensures DeliveredOk(Do(s, a))
  {
    hide Inv, HandedBy, OwnFrames, DeliveredOk;
    if a == OfStart(Start) {
      NewDelivered(s);
    } else if HandsFrame(a) {
      HandDelivers(s, a.transport.g, a.transport.n);
      hide DoHandFrame;
    } else {
      ProcessesNone(s, a);
      SameHanded(s, a, s.c.cts);
      hide Do, Can;
      DeliveredFramed(s, Do(s, a));
    }
  }

  lemma NewDelivered(s: World)
    requires Inv(s) && CanStart(s)
    ensures DeliveredOk(DoStart(s))
  {
    hide Inv, HandedBy, OwnFrames;
    NothingInNew(s);
  }

  // ---- What releases a start ----

  lemma MemberStays(s: World, a: Action, g: nat, f: Frame)
    requires Inv(s) && Can(s, a) && f in HandedBy(s, g)
    ensures f in HandedBy(Do(s, a), g)
  {
    hide Inv, Handed, CanStartStep, DoStartStep, CanStopStep, DoStopStep, CanReconnectStep, DoReconnectStep;
    hide T.Do, T.CanLoop;
    if HandsFrame(a) {
      if a.transport.g == g { HandedGrows(s.wires[g], T.Hand(a.transport.n), f); }
    } else {
      SameHanded(s, a, g);
      hide Do, Can;
    }
  }

  /** The step processes an init frame of generation `g`. */
  predicate HandsInit(s: World, a: Action, g: nat)
    requires Can(s, a)
  {
    && HandsFrame(a) && a.transport.g == g && g !in s.c.cancelled
    && IsInit(FrameInHand(s, g, a.transport.n))
  }

  lemma InitInStart(s: World, a: StartStep, g: nat)
    requires CanStartStep(s, a) && g in DoStartStep(s, a).chains
    ensures var init := DoStartStep(s, a).chains[g].init;
            && (init == Released(false) ==> g in s.chains && s.chains[g].init == Released(false))
            && (g in s.chains && g != s.c.cts + 1 && s.chains[g].init != Unset ==> init == s.chains[g].init)
  {
    hide T.DoBeginConnect, T.DoEndConnect, T.CanEndConnect;
  }

  lemma InitInTransport(s: World, a: TransportStep, g: nat)
    requires CanTransportStep(s, a) && g in DoTransportStep(s, a).chains
    ensures g in s.chains
    ensures var init := DoTransportStep(s, a).chains[g].init;
            && (init == Released(false) ==> s.chains[g].init == Released(false) || HandsInit(s, OfTransport(a), g))
            && (s.chains[g].init != Unset ==> init == s.chains[g].init)
            && (HandsInit(s, OfTransport(a), g) ==> init != Unset)
  {
    hide T.Do, T.Can, T.CanLoop, FrameInHand, IsInit;
  }

  /** What a step does to the release of a start. */
  lemma InitStep(s: World, a: Action, g: nat)
    requires Can(s, a) && g in Do(s, a).chains
    ensures var init := Do(s, a).chains[g].init;
            && (init == Released(false) ==> (g in s.chains && s.chains[g].init == Released(false)) || HandsInit(s, a, g))
            && (g in s.chains && g != s.c.cts + 1 && s.chains[g].init != Unset ==> init == s.chains[g].init)
            && (HandsInit(s, a, g) ==> init != Unset)
  {
    hide CanStartStep, DoStartStep, CanTransportStep, DoTransportStep, CanStopStep, DoStopStep, CanReconnectStep,
      DoReconnectStep, IsInit;
    match a
    case OfStart(b) => InitInStart(s, b, g);
    case OfTransport(b) => InitInTransport(s, b, g);
    case OfStop(b) => StopShape(s, b);
    case OfReconnect(b) => ReconnectShape(s, b);
  }

  lemma InitHandedOn(s: World, a: Action, g: nat)
    requires Can(s, a) && HandsInit(s, a, g)
    ensures exists f :: f in HandedBy(Do(s, a), g) && Starts(f)
  {
    hide Handed, T.Do, T.CanLoop, IsInit, Starts;
    var f := FrameInHand(s, g, a.transport.n);
    HandIn(s.wires[g], a.transport.n);
    IsInitStarts(f);
    assert f in HandedBy(Do(s, a), g);
  }

  lemma KeepReleasedBy(s: World, a: Action, g: nat)
    requires Inv(s) && ReleasedOk(s) && Can(s, a) && g in Do(s, a).chains && Do(s, a).chains[g].init == Released(false)
    ensures exists f :: f in HandedBy(Do(s, a), g) && Starts(f)
  {
    hide Inv, HandedBy, Starts, Do, Can, HandsInit, OwnFrames;
    InitStep(s, a, g);
    if HandsInit(s, a, g) {
      InitHandedOn(s, a, g);
    } else {
      var f :| f in HandedBy(s, g) && Starts(f);
      MemberStays(s, a, g, f);
    }
  }

  /** A frame processed for the current generation was before, or is now. */
  lemma ProcessedBefore(s: World, a: Action, f: Frame)
    requires Inv(s) && Can(s, a) && f in OwnFrames(Do(s, a).seen, Do(s, a).c.cts)
    ensures a != OfStart(Start) && Do(s, a).c.cts == s.c.cts
    ensures f !in OwnFrames(s.seen, s.c.cts) ==>
              && HandsFrame(a) && a.transport.g == s.c.cts && s.c.cts !in s.c.cancelled
              && f == FrameInHand(s, s.c.cts, a.transport.n)
  {
    hide Inv, OwnFrames, T.Do, T.CanLoop, FrameInHand;
    if a == OfStart(Start) {
      NothingInNew(s);
    } else if HandsFrame(a) {
      var h, n := a.transport.g, a.transport.n;
      OwnAppend(s.seen, Processed(h, FrameInHand(s, h, n)), s.c.cts);
    } else {
      ProcessesNone(s, a);
      hide Do, Can;
    }
  }

  lemma KeepReleases(s: World, a: Action, f: Frame)
    requires Inv(s) && ReleasedOk(s) && Can(s, a) && f in OwnFrames(Do(s, a).seen, Do(s, a).c.cts) && Starts(f)
    ensures var g := Do(s, a).c.cts; g in Do(s, a).chains && Do(s, a).chains[g].init != Unset
  {
    hide Inv, HandedBy, Starts, IsInit, OwnFrames;
    ProcessedBefore(s, a, f);
    ChainStays(s, a);
    IsInitStarts(f);
    hide Do, Can;
    if s.c.cts in s.chains { InitStep(s, a, s.c.cts); }
  }

  lemma ChainStays(s: World, a: Action)
    requires Can(s, a) && a != OfStart(Start)
    ensures s.c.cts in s.chains ==> s.c.cts in Do(s, a).chains
    ensures HandsFrame(a) && a.transport.g == s.c.cts ==> s.c.cts in s.chains
  {
    hide CanStopStep, DoStopStep, CanReconnectStep, DoReconnectStep, T.Do, T.Can, T.CanLoop, T.DoBeginConnect,
      T.DoEndConnect, T.CanEndConnect;
    match a
    case OfStart(b) =>
    case OfTransport(b) =>
    case OfStop(b) => StopShape(s, b);
    case OfReconnect(b) => ReconnectShape(s, b);
  }

  lemma KeepReleased(s: World, a: Action)
    requires Inv(s) && ReleasedOk(s) && Can(s, a)
    ensures ReleasedOk(Do(s, a))
  {
    hide Inv, HandedBy, OwnFrames, Starts, Do, Can;
    forall g | g in Do(s, a).chains && Do(s, a).chains[g].init == Released(false)
      ensures exists f :: f in HandedBy(Do(s, a), g) && Starts(f)
    {
      KeepReleasedBy(s, a, g);
    }
    forall f | f in OwnFrames(Do(s, a).seen, Do(s, a).c.cts) && Starts(f)
      ensures Do(s, a).c.cts in Do(s, a).chains && Do(s, a).chains[Do(s, a).c.cts].init != Unset
    {
      KeepReleases(s, a, f);
    }
  }

  // ---- Every run ----

  ghost predicate Delivers(s: World) {
    DeliveredOk(s) && ReleasedOk(s)
  }

  /** Every step keeps the fourth invariant together with the first, whoever's frames arrive. */
  lemma KeepDeliveries(s: World, a: Action)
    requires Inv(s) && Delivers(s) && Can(s, a)
    ensures Delivers(Do(s, a))
  {
    hide Inv, DeliveredOk, ReleasedOk, Do, Can;
    KeepDelivered(s, a);
    KeepReleased(s, a);
  }

  lemma {:induction false} KeepDeliveriesRun(s: World, acts: seq<Action>)
    requires Inv(s) && Delivers(s) && Proper(s, acts) && Legal(s, acts)
    ensures Delivers(Exec(s, acts))
    decreases |acts|
  {
    hide Inv, Delivers;
    if acts != [] {
      KeepStep(s, acts[0]);
      KeepDeliveries(s, acts[0]);
      KeepDeliveriesRun(Do(s, acts[0]), acts[1..]);
    }
  }

  lemma ReachableDelivers(s: World)
    requires Reachable(s)
    ensures Delivers(s)
  {
    hide Inv;
    var acts :| Proper(INITIAL, acts) && Legal(INITIAL, acts) && Exec(INITIAL, acts) == s;
    Initially();
    KeepDeliveriesRun(INITIAL, acts);
  }

  /** While it is not stopped, exactly the frames that the transport of the current generation handed on were processed
      for it, in that order and each once; each loop handed on a prefix of what its socket was sent. */
  lemma ProcessedInOrder(s: World)
    requires Reachable(s)
    ensures OwnFrames(s.seen, s.c.cts) <= HandedBy(s, s.c.cts)
    ensures s.c.cts !in s.c.cancelled ==> OwnFrames(s.seen, s.c.cts) == HandedBy(s, s.c.cts)
    ensures s.c.cts in s.wires ==>
              forall n | 0 <= n < |s.wires[s.c.cts].loops| ::
                s.wires[s.c.cts].loops[n].handed <= s.wires[s.c.cts].loops[n].sent
  {
    hide Inv, Reachable, ReleasedOk, HandedBy, OwnFrames, ChainOk, T.EarlierEnded, PastChainOk;
    ReachableDelivers(s);
    ReachableInv(s);
    PastIs(s);
  }

  /** A start connects only after its transport handed an init frame on, and one that is processed for the current
      generation releases its start. */
  lemma OnlyInitReleases(s: World, g: nat)
    requires Reachable(s)
    ensures ChainAt(s, g, Settled(true)) || (g in s.chains && s.chains[g].init == Released(false)) ==>
              exists f :: f in HandedBy(s, g) && f.Object? && f.invocation == Missing && f.messages == Array
                          && f.cursor.Text? && f.init == Number(1)
    ensures (exists f :: f in OwnFrames(s.seen, s.c.cts) && f.Object? && f.invocation == Missing && f.messages == Array
                         && f.cursor.Text? && f.init == Number(1))
            ==> s.c.cts in s.chains && s.chains[s.c.cts].init != Unset
  {
    hide Inv, Reachable, DeliveredOk, HandedBy, OwnFrames, WireOk, T.Inv;
    ReachableDelivers(s);
    ReachableInv(s);
    CoreIs(s);
    PastIs(s);
    hide ChainOk;
    if g in s.chains && s.chains[g].init == Released(false) {
      var f :| f in HandedBy(s, g) && Starts(f);
    }
  }
}
