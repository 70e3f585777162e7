/** Every step keeps the invariant: the steps of `start`. */
module ProtocolKeepStart {
  import opened Wrappers
  import opened Protocol
  import opened ProtocolInvariant
  import opened ProtocolTasks
  import T = Transport

  // ---- start ----

  lemma KeepStart(s: World)
    requires Inv(s) && CanStart(s) && Timely(s, OfStart(Start))
    ensures Inv(DoStart(s))
  {
    hide Inv, PastOk, LockOk, ChainOk, WireOk, TasksOk, Unique, Driven, TaskOk;
    var s' := DoStart(s);
    Parts(s);
    NothingLeft(s);
    StartsPast(s);
    StartsCore(s);
    forall i | i in s.tasks
      ensures TaskOk(CoreOf(s'), s.tasks[i]) && !Carries(s.tasks[i], s'.c.cts)
    {
      TaskIs(s, i);
      NoHolder(s, i);
      Restarts(CoreOf(s), CoreOf(s'), s.tasks[i]);
    }
    StartsTasks(s);
    Whole(s');
  }

  lemma NoHolder(s: World, i: nat)
    requires LockOk(s) && s.c.lock == None && i in s.tasks
    ensures !Holds(s.tasks[i])
  {
  }

  lemma NothingLeft(s: World)
    requires Inv(s) && s.c.state == Disconnected
    ensures !SomeAttempt(s.tasks) && s.c.transport == None
  {
    hide Inv, WireOk, T.Inv;
    TasksAre(s);
    NoAttemptOnceSignalled(CoreOf(s), s.tasks);
    CoreIs(s);
  }

  lemma StartsPast(s: World)
    requires PastOk(s) && CanStart(s) && Timely(s, OfStart(Start)) && ChainOk(CoreOf(s)) && TasksOk(CoreOf(s), s.tasks)
    ensures PastOk(DoStart(s)) && DoStart(s).c.cts !in s.wires && DoStart(s).c.cts !in s.c.cancelled
  {
    hide T.Inv, T.IsOpen, T.Dead, TaskOk, ChainOk;
    forall i | i in s.tasks && s.tasks[i].Notifying? && s.tasks[i].cts == s.c.cts
      ensures s.c.cts in s.c.cancelled
    {
      assert TaskOk(CoreOf(s), s.tasks[i]);
      NotifyingIsOver(CoreOf(s), s.tasks[i]);
    }
    LastIsPast(CoreOf(s));
  }

  lemma NotifyingIsOver(k: Core, t: Task)
    requires TaskOk(k, t) && t.Notifying? && t.cts == k.cts && k.state == Disconnected
    ensures k.canceled
  {
  }

  lemma LastIsPast(k: Core)
    requires ChainOk(k) && k.state == Disconnected && (k.chain.Some? ==> k.chain.value.phase.Settled?)
    ensures k.chain.Some? ==> PastChainOk(k.chain.value, k.canceled)
    ensures k.chain == None ==> k.cts == 0
  {
  }

  lemma StartsCore(s: World)
    requires CanStart(s) && DoStart(s).c.cts !in s.wires && s.c.transport == None
    ensures ChainOk(CoreOf(DoStart(s))) && WireOk(CoreOf(DoStart(s)))
  {
  }

  lemma StartsTasks(s: World)
    requires LockOk(s) && CanStart(s) && !SomeAttempt(s.tasks) && PastOk(DoStart(s))
    requires DoStart(s).c.cts !in s.wires && DoStart(s).c.cts !in s.c.cancelled
    requires var s' := DoStart(s); forall i | i in s.tasks :: TaskOk(CoreOf(s'), s.tasks[i]) && !Carries(s.tasks[i], s'.c.cts)
    requires Unique(s.tasks, s.c.cts)
    ensures var s' := DoStart(s); LockOk(s') && TasksOk(CoreOf(s'), s'.tasks) && Unique(s'.tasks, s'.c.cts) && Driven(s')
  {
    hide TaskOk, PastChainOk, T.Inv, Carries;
  }

  /** No task survives into a new generation but calls that wait and callbacks whose token is cancelled. */
  lemma Restarts(k: Core, k': Core, t: Task)
    requires TaskOk(k, t) && k.state == Disconnected && !Holds(t)
    requires k'.cts == k.cts + 1
    ensures TaskOk(k', t) && !Carries(t, k'.cts) && !Closing(t)
  {
  }

  /** The world after a step of the current chain. */
  ghost predicate ChainStep(s: World, s': World) {
    var g := s.c.cts;
    && g in s.chains && !s.chains[g].phase.Settled? && !s.c.event
    && s' == s.(c := s'.c, chains := s'.chains, wires := s'.wires)
    && g in s'.chains && s'.chains == s.chains[g := s'.chains[g]]
    && (s'.wires == s.wires || (g in s'.wires && s'.wires == s.wires[g := s'.wires[g]]))
    && s'.c == s.c.(state := s'.c.state, transport := s'.c.transport, token := s'.c.token, event := s'.c.event)
  }

  lemma ChainMoved(s: World, s': World)
    requires Inv(s) && ChainStep(s, s')
    requires ChainOk(CoreOf(s')) && WireOk(CoreOf(s'))
    requires s'.c.event <==> s'.chains[s.c.cts].phase.Settled?
    requires s'.c.state == Connecting || s'.c.state == Connected || s'.c.state == Disconnected
    requires s.c.state == Disconnected ==> s'.c.state == Disconnected
    requires var w, w' := CoreOf(s).wire, CoreOf(s').wire;
             w.Some? && T.Dead(w.value) && T.IsOpen(w.value) ==> w'.Some? && T.Dead(w'.value) && T.IsOpen(w'.value)
    requires Lost(CoreOf(s')) ==> Lost(CoreOf(s))
    ensures Inv(s')
  {
    hide Inv, PastOk, LockOk, ChainOk, WireOk, Unique, Driven, TaskOk, ChainStep, Lost, T.Dead, T.IsOpen;
    var k, k' := CoreOf(s), CoreOf(s');
    Parts(s);
    ChainStepIs(s, s');
    ChainState(k);
    forall i | i in s.tasks
      ensures TaskOk(k', s.tasks[i])
    {
      TaskIs(s, i);
      Starting(k, k', s.tasks[i]);
    }
    PastKept(s, s');
    LockKept(s, s');
    StaysDriven(s, s');
    Whole(s');
  }

  lemma ChainState(k: Core)
    requires ChainOk(k) && k.chain.Some? && !k.chain.value.phase.Settled?
    ensures k.state == Connecting || k.state == Connected || k.state == Disconnected
  {
  }

  lemma ChainStepIs(s: World, s': World)
    requires ChainStep(s, s')
    ensures s'.tasks == s.tasks && s'.c.cts == s.c.cts && s'.faults == s.faults && s'.c.cancelled == s.c.cancelled
    ensures s'.c.lock == s.c.lock && s.c.cts in s'.chains
    ensures var k, k' := CoreOf(s), CoreOf(s');
            && k.chain.Some? && !k.chain.value.phase.Settled? && !k.event
            && k' == k.(state := k'.state, transport := k'.transport, token := k'.token, event := k'.event,
                        chain := k'.chain, wire := k'.wire)
  {
  }

  lemma LockKept(s: World, s': World)
    requires LockOk(s) && s'.tasks == s.tasks && s'.c.lock == s.c.lock && s'.c.cts == s.c.cts
    requires s'.c.cancelled == s.c.cancelled && s'.c.state != Disconnecting
    requires s.c.state == Disconnected ==> s'.c.state == Disconnected
    requires s.c.state != Disconnecting
    ensures LockOk(s')
  {
  }

  lemma StaysDriven(s: World, s': World)
    requires Driven(s) && s'.tasks == s.tasks && s'.c.cts == s.c.cts && s.c.cts in s'.chains
    requires s'.c.event <==> s'.chains[s.c.cts].phase.Settled?
    requires s'.c.state != Disconnecting && (Lost(CoreOf(s')) ==> Lost(CoreOf(s)))
    ensures Driven(s')
  {
    hide Lost, CoreOf;
  }

  lemma PastKept(s: World, s': World)
    requires PastOk(s) && ChainStep(s, s') && WireOk(CoreOf(s'))
    ensures PastOk(s')
  {
    hide T.Inv;
  }

  /** Tasks that may exist while `start` is under way do not mind its steps. */
  lemma Starting(k: Core, k': Core, t: Task)
    requires TaskOk(k, t) && !k.event && (k.chain.Some? && !k.chain.value.phase.Settled?)
    requires k.state == Connecting || k.state == Connected || k.state == Disconnected
    requires k.state == Disconnected ==> k'.state == Disconnected
    requires k' == k.(state := k'.state, transport := k'.transport, token := k'.token, event := k'.event,
                      chain := k'.chain, wire := k'.wire)
    requires k'.state == Connecting || k'.state == Connected || k'.state == Disconnected
    requires k.wire.Some? && T.Dead(k.wire.value) && T.IsOpen(k.wire.value)
             ==> k'.wire.Some? && T.Dead(k'.wire.value) && T.IsOpen(k'.wire.value)
    ensures TaskOk(k', t)
  {
    hide T.Dead, T.IsOpen;
  }

  /** Only the current chain can be under way, and until it is settled the event is unset. */
  lemma Current(s: World, g: nat)
    requires Inv(s) && g in s.chains && !s.chains[g].phase.Settled?
    ensures g == s.c.cts && !s.c.event
  {
    hide Inv, T.Inv, WireOk;
    PastIs(s);
    CoreIs(s);
  }

  lemma FreshWire()
    ensures T.Inv(T.DoBeginConnect(T.FRESH_WIRE))
  {
  }

  lemma KeepNegotiated(s: World, g: nat)
    requires Inv(s) && CanNegotiated(s, g)
    ensures Inv(DoNegotiated(s, g))
  {
    hide Inv, T.Inv;
    Current(s, g);
    CoreIs(s);
    FreshWire();
    ChainMoved(s, DoNegotiated(s, g));
  }

  lemma KeepConnectReturns(s: World, g: nat)
    requires Inv(s) && CanConnectReturns(s, g)
    ensures Inv(DoConnectReturns(s, g))
  {
    hide Inv, T.Inv;
    Current(s, g);
    CoreIs(s);
    T.Keep(s.wires[g], T.EndConnect);
    ChainMoved(s, DoConnectReturns(s, g));
  }

  lemma KeepStoreTransport(s: World, g: nat)
    requires Inv(s) && CanStoreTransport(s, g)
    ensures Inv(DoStoreTransport(s, g))
  {
    hide Inv, T.Inv, T.EarlierEnded;
    Current(s, g);
    CoreIs(s);
    ChainMoved(s, DoStoreTransport(s, g));
  }

  lemma KeepRequestStart(s: World, g: nat)
    requires Inv(s) && CanRequestStart(s, g)
    ensures Inv(DoRequestStart(s, g))
  {
    hide Inv, T.Inv, T.EarlierEnded;
    Current(s, g);
    CoreIs(s);
    ChainMoved(s, DoRequestStart(s, g));
  }

  lemma KeepAnswerStart(s: World, g: nat)
    requires Inv(s) && ChainAt(s, g, StartRequested)
    ensures Inv(SetPhase(s, g, StartAnswered))
  {
    hide Inv, T.Inv, T.EarlierEnded;
    Current(s, g);
    CoreIs(s);
    ChainMoved(s, SetPhase(s, g, StartAnswered));
  }

  lemma KeepCompleteStart(s: World, g: nat)
    requires Inv(s) && ChainAt(s, g, StartAnswered)
    ensures Inv(DoCompleteStart(s, g))
  {
    hide Inv, T.Inv, T.EarlierEnded;
    Current(s, g);
    CoreIs(s);
    ChainMoved(s, DoCompleteStart(s, g));
  }

  lemma KeepAnnounceStart(s: World, g: nat)
    requires Inv(s) && ChainAt(s, g, Announcing)
    ensures Inv(DoAnnounceStart(s, g))
  {
    hide Inv, T.Inv, T.EarlierEnded;
    Current(s, g);
    CoreIs(s);
    ChainMoved(s, DoAnnounceStart(s, g));
  }

  lemma KeepChainFails(s: World, g: nat)
    requires Inv(s) && CanChainFails(s, g)
    ensures Inv(SetPhase(s, g, Failing))
  {
    hide Inv, T.Inv, T.EarlierEnded;
    Current(s, g);
    CoreIs(s);
    ChainMoved(s, SetPhase(s, g, Failing));
  }

  lemma KeepFailStart(s: World, g: nat)
    requires Inv(s) && ChainAt(s, g, Failing)
    ensures Inv(DoFailStart(s, g))
  {
    hide Inv, T.Inv, T.EarlierEnded;
    Current(s, g);
    CoreIs(s);
    ChainMoved(s, DoFailStart(s, g));
  }

  lemma KeepFailSignals(s: World, g: nat)
    requires Inv(s) && ChainAt(s, g, Unsignalled)
    ensures Inv(DoFailSignals(s, g))
  {
    hide Inv, T.Inv, T.EarlierEnded;
    Current(s, g);
    CoreIs(s);
    ChainMoved(s, DoFailSignals(s, g));
  }

  /** A step that touches only the chain and the wire of a generation that is over, and what is kept of frames. */
  lemma OldMoved(s: World, s': World, g: nat)
    requires Inv(s) && g in s.chains && g < s.c.cts
    requires s' == s.(c := s.c.(cursor := s'.c.cursor), seen := s'.seen, chains := s'.chains, wires := s'.wires)
    requires g in s'.chains && s'.chains == s.chains[g := s'.chains[g]] && s'.chains[g].phase == s.chains[g].phase
    requires s.chains[g].init == Unset || s'.chains[g].init == s.chains[g].init
    requires s'.wires == s.wires || (g in s'.wires && s'.wires == s.wires[g := s'.wires[g]] && T.Inv(s'.wires[g]))
    ensures Inv(s')
  {
    hide T.Inv, Unique, ChainOk, WireOk, TasksOk, Driven;
    assert CoreOf(s') == CoreOf(s);
    assert Driven(s') by { DrivenAlike(s, s'); }
  }

  lemma DrivenAlike(s: World, s': World)
    requires Driven(s) && CoreOf(s') == CoreOf(s) && s'.tasks == s.tasks
    requires s.c.cts in s.chains <==> s.c.cts in s'.chains
    ensures Driven(s')
  {
  }

  /** Setting `connect_request_tce` changes nothing else. */
  lemma InitMoved(s: World, g: nat, init: Init, timer: bool)
    requires Inv(s) && g in s.chains
    requires init == Released(true) ==> g in s.c.cancelled
    requires init == Released(false) ==> g in s.wires && (g == s.c.cts ==> T.IsOpen(s.wires[g]))
    requires timer == s.chains[g].timer || (init != Unset && !timer && s.chains[g].timer)
    requires g in s.wires || timer != s.chains[g].timer
    ensures Inv(SetInit(s.(chains := s.chains[g := s.chains[g].(timer := timer)]), g, init))
  {
    hide T.Inv, Unique, TasksOk, WireOk, ChainOk, LockOk;
    var s' := SetInit(s.(chains := s.chains[g := s.chains[g].(timer := timer)]), g, init);
    if g < s.c.cts {
      OldMoved(s, s', g);
    } else {
      CurrentInitMoved(s, s');
    }
  }

  lemma CurrentInitMoved(s: World, s': World)
    requires Inv(s) && s.c.cts in s.chains && s.c.cts in s'.chains
    requires s' == s.(chains := s.chains[s.c.cts := s'.chains[s.c.cts]])
    requires s'.chains[s.c.cts].phase == s.chains[s.c.cts].phase
    requires InitOk(CoreOf(s), s.chains[s.c.cts], s'.chains[s.c.cts])
    ensures Inv(s')
  {
    hide Inv, PastOk, LockOk, ChainOk, WireOk, Unique, Driven, TaskOk, InitOk;
    var k, k' := CoreOf(s), CoreOf(s');
    assert k' == k.(chain := Some(s'.chains[s.c.cts]));
    Parts(s);
    ChainKept(k, s'.chains[s.c.cts]);
    WireAlike(k, k');
    forall i | i in s.tasks
      ensures TaskOk(k', s.tasks[i])
    {
      TaskIs(s, i);
      Phased(k, k', s.tasks[i]);
    }
    InitAlike(s, s');
    Whole(s');
  }

  lemma WireAlike(k: Core, k': Core)
    requires WireOk(k) && k' == k.(chain := k'.chain)
    ensures WireOk(k')
  {
    hide T.Inv;
  }

  lemma InitAlike(s: World, s': World)
    requires PastOk(s) && LockOk(s) && Driven(s) && s.c.cts in s.chains && s.c.cts in s'.chains
    requires s' == s.(chains := s.chains[s.c.cts := s'.chains[s.c.cts]])
    requires s'.chains[s.c.cts].phase == s.chains[s.c.cts].phase
    ensures PastOk(s') && LockOk(s') && Driven(s')
  {
    hide PastChainOk, T.Inv;
  }

  /** `connect_request_tce` may be set, once, by someone entitled to; the timer may have fired on the way. */
  ghost predicate InitOk(k: Core, chain: Chain, after: Chain) {
    && (chain.init == Unset || after.init == chain.init)
    && (after.init == Unset ==> after.timer == chain.timer)
    && (after.init == Released(true) ==> k.canceled || after.init == chain.init)
    && (after.init == Released(false) ==> (k.wire.Some? && T.IsOpen(k.wire.value)) || after.init == chain.init)
    && (k.wire.Some? || after == chain || (chain.timer && !after.timer))
  }

  lemma ChainKept(k: Core, after: Chain)
    requires ChainOk(k) && k.chain.Some? && after.phase == k.chain.value.phase && InitOk(k, k.chain.value, after)
    ensures ChainOk(k.(chain := Some(after)))
  {
  }

  lemma Phased(k: Core, k': Core, t: Task)
    requires TaskOk(k, t) && k'.chain.Some? && k' == k.(chain := k'.chain)
    requires k.chain.Some? && k'.chain.value.phase == k.chain.value.phase
    ensures TaskOk(k', t)
  {
    hide T.Dead, T.IsOpen;
  }

  lemma KeepTimerFires(s: World, g: nat)
    requires Inv(s) && CanTimerFires(s, g)
    ensures Inv(DoTimerFires(s, g))
  {
    hide T.Inv, Unique, TasksOk, WireOk, ChainOk, LockOk;
    InitMoved(s, g, if g in s.c.cancelled then Released(true) else Faulted, false);
  }

  lemma KeepConnectRefused(s: World, g: nat)
    requires Inv(s) && CanConnectRefused(s, g)
    ensures Inv(SetInit(s, g, Faulted))
  {
    hide T.Inv, Unique, TasksOk, WireOk, ChainOk, LockOk;
    assert s.chains[g := s.chains[g].(timer := s.chains[g].timer)] == s.chains;
    InitMoved(s, g, Faulted, s.chains[g].timer);
  }
}
