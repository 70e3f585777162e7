/** What every run of the connection protocol guarantees whose steps are timely. */
module ProtocolTheorems {
  import opened Wrappers
  import opened Protocol
  import opened ProtocolInvariant
  import opened ProtocolKeepStart
  import opened ProtocolKeepTransport
  import opened ProtocolRuns
  import opened ProtocolShapes
  import T = Transport

  // ---- No "internal error", no null transport, no "already connected" ----

  /** None of the branches, asserts, dereferences and throws that the source takes for impossible is ever hit. */
  lemma NoFaults(s: World)
    requires Reachable(s)
    ensures s.faults == {}
  {
    ReachableInv(s);
  }

  /** Every call of `connect` by an attempt is made on the current transport and finds its token cancelled; by
      `start` it is made on a transport whose constructor has just cancelled the token. */
  lemma ConnectNeverThrows(s: World, id: nat)
    requires Reachable(s) && CanTryConnect(s, id) && s.tasks[id].cts !in s.c.cancelled
    ensures s.c.transport == Some(s.c.cts) && s.c.cts in s.wires
    ensures !T.Live(s.wires[s.c.cts]) && T.Can(s.wires[s.c.cts], T.BeginConnect)
    ensures T.Can(T.FRESH_WIRE, T.BeginConnect)
  {
    hide Inv, Reachable, T.Inv, T.EarlierEnded;
    ReachableInv(s);
    CoreIs(s);
    TaskIs(s, id);
    TokenCancelled(CoreOf(s));
  }

  lemma TokenCancelled(k: Core)
    requires WireOk(k) && Quiet(k)
    ensures !T.Live(k.wire.value)
  {
  }

  // ---- The state machine ----

  predicate Edge(a: ConnState, b: ConnState) {
    || (a == Disconnected && b == Connecting)
    || (a == Connecting && (b == Connected || b == Disconnected))
    || (a == Connected && (b == Reconnecting || b == Disconnecting))
    || (a == Reconnecting && (b == Connected || b == Disconnecting))
    || (a == Disconnecting && b == Disconnected)
  }

  lemma EdgeOfStart(s: World, a: StartStep)
    requires Inv(s) && CanStartStep(s, a)
    ensures var s' := DoStartStep(s, a); s'.c.state == s.c.state || Edge(s.c.state, s'.c.state)
  {
    hide Inv, T.DoBeginConnect, T.DoEndConnect, T.CanEndConnect;
    if a.FailStart? { FailsFromConnecting(s, a.g); }
  }

  lemma FailsFromConnecting(s: World, g: nat)
    requires Inv(s) && ChainAt(s, g, Failing)
    ensures s.c.state == Connecting
  {
    hide Inv, WireOk;
    CoreIs(s);
    Current(s, g);
  }

  lemma EdgeOfStop(s: World, a: StopStep)
    requires Inv(s) && CanStopStep(s, a)
    ensures var s' := DoStopStep(s, a); s'.c.state == s.c.state || Edge(s.c.state, s'.c.state)
  {
    hide Inv, T.DoDisconnect, T.CanDisconnect, T.Dead, T.IsOpen;
    if a.id in s.tasks { TaskIs(s, a.id); }
  }

  lemma EdgeOfReconnect(s: World, a: ReconnectStep)
    requires CanReconnectStep(s, a)
    ensures var s' := DoReconnectStep(s, a); s'.c.state == s.c.state || Edge(s.c.state, s'.c.state)
  {
  }

  /** The state takes only the edges of the diagram, although two transitions are unconditional exchanges. */
  lemma OnlyEdges(s: World, a: Action)
    requires Reachable(s) && Can(s, a)
    ensures Do(s, a).c.state == s.c.state || Edge(s.c.state, Do(s, a).c.state)
  {
    hide Inv, Reachable;
    ReachableInv(s);
    match a
    case OfStart(b) => EdgeOfStart(s, b);
    case OfTransport(b) =>
    case OfStop(b) => EdgeOfStop(s, b);
    case OfReconnect(b) => EdgeOfReconnect(s, b);
  }

  /** The transport pointer agrees with the state: null exactly where `start` needs it null, present wherever it is
      dereferenced, and always the transport of the current generation. */
  lemma TransportAgrees(s: World)
    requires Reachable(s)
    ensures s.c.state == Connected || s.c.state == Reconnecting || s.c.state == Disconnecting
            ==> s.c.transport == Some(s.c.cts) && s.c.cts in s.wires
    ensures s.c.state == Disconnected ==> s.c.transport == None
    ensures s.c.transport.Some? ==> s.c.transport == Some(s.c.cts)
  {
    hide Inv, Reachable, WireOk, T.IsOpen;
    ReachableInv(s);
    CoreIs(s);
  }

  // ---- Reconnecting ----

  /** At most one reconnect is in its attempt phase, and then the connection is reconnecting, or connected and about
      to signal that. */
  lemma OneAttempt(s: World, i: nat, j: nat)
    requires Reachable(s)
    requires i in s.tasks && Attempting(s.tasks[i]) && j in s.tasks && Attempting(s.tasks[j])
    ensures i == j
    ensures s.c.state == if s.tasks[i].Signalling? then Connected else Reconnecting
    ensures !s.c.event
  {
    hide Inv, Reachable, T.Dead, T.IsOpen;
    ReachableInv(s);
    TaskIs(s, i);
    UniqueIs(s);
  }

  /** A reconnect superseded during the user callback finds its token cancelled when it takes the lock again, and
      leaves without touching the event, the state or a transport. */
  lemma SupersededExits(s: World, id: nat)
    requires Reachable(s) && CanReconnectResumes(s, id)
    requires s.c.state != Reconnecting || s.tasks[id].cts != s.c.cts
    ensures s.tasks[id].cts in s.c.cancelled
    ensures DoReconnectResumes(s, id) == s.(tasks := s.tasks - {id})
  {
    hide Inv, Reachable, T.Dead, T.Inv, PastChainOk;
    ReachableInv(s);
    TaskIs(s, id);
    PastIs(s);
  }

  /** The loss of a connected transport is not forgotten: its loop is about to report it or a reconnect is on its way. */
  lemma LossNotForgotten(s: World)
    requires Reachable(s) && s.c.state == Connected && s.c.cts !in s.c.cancelled
    ensures s.c.cts in s.wires && s.wires[s.c.cts].loops != []
    ensures !T.Last(s.wires[s.c.cts]).live ==>
              || T.Last(s.wires[s.c.cts]).phase == T.Failing
              || exists i :: i in s.tasks && Carries(s.tasks[i], s.c.cts)
  {
    hide Inv, Reachable, T.Inv, T.Dead, T.EarlierEnded, Carries;
    ReachableInv(s);
    CoreIs(s);
    DrivenIs(s);
  }

  // ---- The task of `start` ----

  /** The task of `start` succeeds only while the connection is connected with the transport of that call, and fails
      only in a connection that went from connecting to disconnected, without a transport. */
  lemma SettlesTruly(s: World, g: nat)
    requires Reachable(s)
    ensures ChainAt(s, g, Announcing) ==>
              && s.c.state == Connected && s.c.transport == Some(g)
              && DoAnnounceStart(s, g).c == s.c.(event := true)
    ensures ChainAt(s, g, Failing) ==>
              && s.c.state == Connecting && s.c.cts == g
              && DoFailStart(s, g).c.state == Disconnected && DoFailStart(s, g).c.transport == None
    ensures ChainAt(s, g, Unsignalled) ==>
              && s.c.state == Disconnected && s.c.transport == None && s.c.cts == g && !s.c.event
              && DoFailSignals(s, g).c == s.c.(event := true)
  {
    hide Inv, Reachable, WireOk, T.IsOpen;
    ReachableInv(s);
    CoreIs(s);
    if g in s.chains && !s.chains[g].phase.Settled? { Current(s, g); }
  }

  /** Once settled the task of `start` stays as it is, however the run goes on. */
  lemma {:induction false} SettlesOnce(s: World, acts: seq<Action>, g: nat)
    requires Inv(s) && Proper(s, acts) && Legal(s, acts)
    requires g in s.chains && s.chains[g].phase.Settled?
    ensures g in Exec(s, acts).chains && Exec(s, acts).chains[g].phase == s.chains[g].phase
    decreases |acts|
  {
    if acts != [] {
      assert g != s.c.cts + 1;
      hide Inv;
      SettledStays(s, acts[0], g);
      KeepStep(s, acts[0]);
      SettlesOnce(Do(s, acts[0]), acts[1..], g);
    }
  }

  lemma SettledStays(s: World, a: Action, g: nat)
    requires Can(s, a) && g in s.chains && s.chains[g].phase.Settled? && g != s.c.cts + 1
    ensures g in Do(s, a).chains && Do(s, a).chains[g].phase == s.chains[g].phase
  {
    hide CanStartStep, DoStartStep, CanTransportStep, DoTransportStep, CanStopStep, DoStopStep, CanReconnectStep,
      DoReconnectStep;
    match a
    case OfStart(b) => SettledStaysInStart(s, b, g);
    case OfTransport(b) => PhaseStaysInTransport(s, b, g);
    case OfStop(b) => StopShape(s, b);
    case OfReconnect(b) => ReconnectShape(s, b);
  }

  lemma PhaseStaysInTransport(s: World, a: TransportStep, g: nat)
    requires CanTransportStep(s, a) && g in s.chains
    ensures g in DoTransportStep(s, a).chains && DoTransportStep(s, a).chains[g].phase == s.chains[g].phase
  {
    hide T.Do, T.Can, T.CanLoop;
  }

  lemma SettledStaysInStart(s: World, a: StartStep, g: nat)
    requires CanStartStep(s, a) && g in s.chains && s.chains[g].phase.Settled? && g != s.c.cts + 1
    ensures g in DoStartStep(s, a).chains && DoStartStep(s, a).chains[g].phase == s.chains[g].phase
  {
    hide T.DoBeginConnect, T.DoEndConnect;
  }

  /** A connect request released by the timer, which happens only after a stop, never leads to connected. */
  lemma TimerReleaseNeverConnects(s: World, g: nat)
    requires Reachable(s) && g in s.chains && s.chains[g].init == Released(true)
    ensures s.chains[g].phase != StartRequested && s.chains[g].phase != StartAnswered
    ensures s.chains[g].phase != Announcing && s.chains[g].phase != Settled(true)
    ensures g == s.c.cts ==> g in s.c.cancelled
  {
    hide Inv, Reachable, WireOk, T.IsOpen, T.Inv;
    ReachableInv(s);
    CoreIs(s);
    PastIs(s);
  }

  // ---- No deadlock ----

  predicate NeedsLock(a: Action) {
    match a
    case OfStart(Start) => true
    case OfStop(StopLocks(_)) => true
    case OfStop(StopFinishes(_)) => true
    case OfStop(StopResumes(_)) => true
    case OfReconnect(ReconnectLocks(_)) => true
    case OfReconnect(ReconnectResumes(_)) => true
    case _ => false
  }

  predicate LockFree(acts: seq<Action>) {
    forall i | 0 <= i < |acts| :: !NeedsLock(acts[i])
  }

  /** How far the chain is from setting the event. */
  function ChainRank(chain: Chain): nat {
    match chain.phase
    case Negotiating => 9
    case ConnectBegun => 8
    case AwaitingInit => if chain.init == Unset then 7 else 6
    case TransportStored => 5
    case StartRequested => 4
    case StartAnswered => 3
    case Failing => 2
    case Announcing => 1
    case Unsignalled => 1
    case Settled(_) => 0
  }

  function ChainNext(chain: Chain, g: nat, canceled: bool): StartStep {
    match chain.phase
    case Negotiating => ChainFails(g)
    case ConnectBegun => ConnectReturns(g)
    case AwaitingInit =>
      if chain.init == Unset then TimerFires(g) else if chain.init == Faulted then ChainFails(g) else StoreTransport(g)
    case TransportStored => if canceled then ChainFails(g) else RequestStart(g)
    case StartRequested => ChainFails(g)
    case StartAnswered => CompleteStart(g)
    case Failing => FailStart(g)
    case Unsignalled => FailSignals(g)
    case Announcing => AnnounceStart(g)
    case Settled(_) => Start
  }

  /** A step of chain `g` that moves it on; the others only set its `connect_request_tce`. */
  predicate MovesChain(a: Action, g: nat) {
    a.OfStart? && a.start != Start && !a.start.TimerFires? && !a.start.ConnectRefused? && a.start.g == g
  }

  /** Every step that moves the chain is nearer to setting the event, needs no lock, and sets it when it settles. */
  lemma MovesOn(s: World, a: StartStep)
    requires CanStartStep(s, a) && a != Start && MovesChain(OfStart(a), a.g)
    ensures !NeedsLock(OfStart(a)) && a.g in s.chains && a.g in DoStartStep(s, a).chains
    ensures ChainRank(DoStartStep(s, a).chains[a.g]) < ChainRank(s.chains[a.g])
    ensures DoStartStep(s, a).chains[a.g].phase.Settled? ==> DoStartStep(s, a).c.event
  {
    hide T.DoBeginConnect, T.DoEndConnect, T.CanEndConnect;
  }

  lemma ChainCanMove(s: World)
    requires Inv(s) && s.c.cts in s.chains && !s.chains[s.c.cts].phase.Settled?
    ensures CanStartStep(s, ChainNext(s.chains[s.c.cts], s.c.cts, s.c.cts in s.c.cancelled))
    ensures s.chains[s.c.cts].phase == AwaitingInit && s.chains[s.c.cts].init == Unset ==> s.chains[s.c.cts].timer
  {
    hide Inv, WireOk, T.IsOpen, T.Inv;
    CoreIs(s);
    if s.chains[s.c.cts].phase == ConnectBegun { BegunHasLoops(CoreOf(s)); }
  }

  lemma BegunHasLoops(k: Core)
    requires WireOk(k) && k.wire.Some?
    ensures k.wire.value.loops != []
  {
  }

  lemma ChainAdvances(s: World)
    requires Inv(s) && s.c.cts in s.chains && !s.chains[s.c.cts].phase.Settled?
    ensures var a := OfStart(ChainNext(s.chains[s.c.cts], s.c.cts, s.c.cts in s.c.cancelled));
            && Can(s, a) && Timely(s, a) && !NeedsLock(a)
            && var s' := Do(s, a);
               && s'.c.cts == s.c.cts && s'.c.cts in s'.chains && s'.c.lock == s.c.lock
               && ChainRank(s'.chains[s.c.cts]) < ChainRank(s.chains[s.c.cts])
               && (s'.chains[s.c.cts].phase.Settled? ==> s'.c.event)
  {
    hide Inv, CanStartStep, DoStartStep;
    var g := s.c.cts;
    var a := ChainNext(s.chains[g], g, g in s.c.cancelled);
    ChainCanMove(s);
    StartShape(s, a);
    if a.TimerFires? { TimerMovesOn(s, g); } else { MovesOn(s, a); }
  }

  lemma TimerMovesOn(s: World, g: nat)
    requires CanTimerFires(s, g) && ChainAt(s, g, AwaitingInit) && s.chains[g].init == Unset
    ensures g in DoStartStep(s, TimerFires(g)).chains
    ensures var chain := DoStartStep(s, TimerFires(g)).chains[g];
            ChainRank(chain) < ChainRank(s.chains[g]) && !chain.phase.Settled?
  {
  }

  lemma {:induction false} ChainSetsEvent(s: World) returns (acts: seq<Action>)
    requires Inv(s) && s.c.cts in s.chains && !s.chains[s.c.cts].phase.Settled?
    ensures |acts| <= ChainRank(s.chains[s.c.cts]) && LockFree(acts)
    ensures Proper(s, acts) && Legal(s, acts)
    ensures Exec(s, acts).c.event && Exec(s, acts).c.lock == s.c.lock
    decreases ChainRank(s.chains[s.c.cts])
  {
    hide Inv, Do, Can, Timely, ChainRank, ChainNext, NeedsLock, Legal, Proper, Exec;
    var a := OfStart(ChainNext(s.chains[s.c.cts], s.c.cts, s.c.cts in s.c.cancelled));
    ChainAdvances(s);
    KeepStep(s, a);
    EmptyRun(Do(s, a));
    var s' := Do(s, a);
    var rest := [];
    if !s'.chains[s.c.cts].phase.Settled? { rest := ChainSetsEvent(s'); }
    acts := [a] + rest;
    Prepend(s, a, rest);
  }

  function RankOf(s: World, g: nat): nat {
    if g in s.chains then ChainRank(s.chains[g]) else 0
  }

  lemma RankInStart(s: World, a: StartStep, g: nat)
    requires CanStartStep(s, a) && g in s.chains && g != s.c.cts + 1
    ensures g in DoStartStep(s, a).chains && RankOf(DoStartStep(s, a), g) <= RankOf(s, g)
    ensures MovesChain(OfStart(a), g) ==> RankOf(DoStartStep(s, a), g) < RankOf(s, g)
  {
    hide ChainRank, T.DoBeginConnect, T.DoEndConnect, T.CanEndConnect;
    if MovesChain(OfStart(a), g) {
      MovesOn(s, a);
    } else if a == Start || !(a.TimerFires? || a.ConnectRefused?) {
      assert DoStartStep(s, a).chains[g] == s.chains[g];
    } else {
      InitOnlyLowers(s, a, g);
    }
  }

  lemma InitOnlyLowers(s: World, a: StartStep, g: nat)
    requires CanStartStep(s, a) && g in s.chains && (a.TimerFires? || a.ConnectRefused?)
    ensures g in DoStartStep(s, a).chains && RankOf(DoStartStep(s, a), g) <= RankOf(s, g)
  {
  }

  lemma RankInTransport(s: World, a: TransportStep, g: nat)
    requires CanTransportStep(s, a) && g in s.chains
    ensures g in DoTransportStep(s, a).chains && RankOf(DoTransportStep(s, a), g) <= RankOf(s, g)
  {
    hide T.Do, T.Can, T.CanLoop;
  }

  /** No step sends a chain back. */
  lemma RankNeverRises(s: World, a: Action, g: nat)
    requires Inv(s) && Can(s, a) && g in s.chains
    ensures g in Do(s, a).chains && RankOf(Do(s, a), g) <= RankOf(s, g)
    ensures MovesChain(a, g) ==> RankOf(Do(s, a), g) < RankOf(s, g)
  {
    hide Inv, RankOf, CanStartStep, DoStartStep, CanTransportStep, DoTransportStep, CanStopStep, DoStopStep,
      CanReconnectStep, DoReconnectStep;
    IsKnown(s, g);
    match a
    case OfStart(b) => RankInStart(s, b, g);
    case OfTransport(b) => RankInTransport(s, b, g);
    case OfStop(b) =>
      StopShape(s, b);
      SameRank(s, Do(s, a), g);
    case OfReconnect(b) =>
      ReconnectShape(s, b);
      SameRank(s, Do(s, a), g);
  }

  lemma SameRank(s: World, s': World, g: nat)
    requires s'.chains == s.chains
    ensures RankOf(s', g) == RankOf(s, g)
  {
  }

  lemma IsKnown(s: World, g: nat)
    requires Inv(s) && g in s.chains
    ensures 1 <= g <= s.c.cts
  {
    hide Inv, PastChainOk, T.Inv;
    PastIs(s);
  }

  /** How often a run moves chain `g`. */
  function Moves(acts: seq<Action>, g: nat): nat {
    if acts == [] then 0 else (if MovesChain(acts[0], g) then 1 else 0) + Moves(acts[1..], g)
  }

  /** In every run, whatever fails or succeeds in it, a chain makes no more moves than its rank allows, at most nine in
      all; and it settles, setting the event, when its rank is used up. */
  lemma {:induction false} ChainMovesBounded(s: World, acts: seq<Action>, g: nat)
    requires Inv(s) && Proper(s, acts) && Legal(s, acts) && g in s.chains
    ensures g in Exec(s, acts).chains && Moves(acts, g) + RankOf(Exec(s, acts), g) <= RankOf(s, g) <= 9
    ensures RankOf(Exec(s, acts), g) == 0 <==> Exec(s, acts).chains[g].phase.Settled?
    decreases |acts|
  {
    RankBounds(s);
    if acts != [] {
      hide Inv, Can, Do, Timely, RankOf, MovesChain, ChainRank;
      RankNeverRises(s, acts[0], g);
      KeepStep(s, acts[0]);
      ChainMovesBounded(Do(s, acts[0]), acts[1..], g);
      RankAtMost(s, g);
    }
  }

  lemma RankAtMost(s: World, g: nat)
    ensures RankOf(s, g) <= 9
  {
  }

  /** Steps an attempt, with its transport, still needs before it sets the event. */
  function AttemptRank(t: Task, dial: T.Dial): nat {
    match t
    case Preparing(_) => 7
    case Trying(_, _) => 6
    case Launching(_, _, _, _) => 5
    case Dialling(_, _, _, _) => if dial == T.Dialing || dial == T.Opened then 4 else 3
    case Retrying(_, _) => 2
    case Succeeding(_) => 2
    case Signalling(_) => 1
    case GivingUp(_) => 1
    case _ => 0
  }

  function LastDial(s: World): T.Dial {
    if s.c.cts in s.wires && s.wires[s.c.cts].loops != [] then T.Last(s.wires[s.c.cts]).dial else T.Refused
  }

  function AttemptNext(s: World, id: nat): Action
    requires id in s.tasks
  {
    var n := if s.c.cts in s.wires && s.wires[s.c.cts].loops != [] then |s.wires[s.c.cts].loops| - 1 else 0;
    match s.tasks[id]
    case Preparing(_) => OfReconnect(BuildUrl(id))
    case Trying(_, _) => OfReconnect(TryConnect(id))
    case Launching(_, _, _, _) => OfReconnect(LaunchReturns(id))
    case Dialling(_, _, _, _) =>
      if LastDial(s) == T.Dialing then OfTransport(WireStep(s.c.cts, T.Refuse(n)))
      else if LastDial(s) == T.Opened then OfTransport(WireStep(s.c.cts, T.Announce(n)))
      else OfReconnect(DialDone(id))
    case Retrying(_, _) => OfReconnect(GiveUp(id))
    case Succeeding(_) => OfReconnect(CompleteReconnect(id))
    case Signalling(_) => OfReconnect(AnnounceReconnect(id))
    case _ => OfReconnect(AbandonReconnect(id))
  }

  /** The event is set or the attempt is closer to setting it. */
  predicate Nearer(s: World, s': World, id: nat)
    requires id in s.tasks
  {
    s'.c.event || (id in s'.tasks && Attempting(s'.tasks[id])
                 && AttemptRank(s'.tasks[id], LastDial(s')) < AttemptRank(s.tasks[id], LastDial(s)))
  }

  /** The next step of an attempt is enabled, and leaves the event set or an attempt closer to setting it. */
  ghost predicate Advances(s: World, id: nat, a: Action)
    requires id in s.tasks
  {
    && Can(s, a) && Timely(s, a) && !NeedsLock(a) && 0 < AttemptRank(s.tasks[id], LastDial(s))
    && var s' := Do(s, a);
       && s'.c.lock == s.c.lock
       && Nearer(s, s', id)
  }

  lemma AttemptAdvances(s: World, id: nat)
    requires Inv(s) && id in s.tasks && Attempting(s.tasks[id])
    ensures Advances(s, id, AttemptNext(s, id))
  {
    hide Inv, T.EarlierEnded, T.Inv, Advances, AttemptNext;
    TaskIs(s, id);
    CoreIs(s);
    WireShape(CoreOf(s));
    match s.tasks[id]
    case Trying(_, _) => TryingAdvances(s, id);
    case Launching(_, _, _, _) => LaunchingAdvances(s, id);
    case Dialling(_, _, _, _) => DiallingAdvances(s, id);
    case _ => OthersAdvance(s, id);
  }

  lemma OthersAdvance(s: World, id: nat)
    requires id in s.tasks && Attempting(s.tasks[id])
    requires !s.tasks[id].Trying? && !s.tasks[id].Launching? && !s.tasks[id].Dialling?
    ensures Advances(s, id, AttemptNext(s, id))
  {
    hide Advances, AttemptNext;
    if s.tasks[id].Preparing? || s.tasks[id].Retrying? {
      BeginningAdvances(s, id);
    } else {
      EndingAdvances(s, id);
    }
  }

  lemma BeginningAdvances(s: World, id: nat)
    requires id in s.tasks && (s.tasks[id].Preparing? || s.tasks[id].Retrying?)
    ensures Advances(s, id, AttemptNext(s, id))
  {
    hide LastDial;
  }

  lemma EndingAdvances(s: World, id: nat)
    requires id in s.tasks && (s.tasks[id].Succeeding? || s.tasks[id].Signalling? || s.tasks[id].GivingUp?)
    ensures Advances(s, id, AttemptNext(s, id))
  {
    hide LastDial;
  }

  lemma TryingAdvances(s: World, id: nat)
    requires id in s.tasks && s.tasks[id].Trying? && s.tasks[id].cts == s.c.cts && s.c.cts in s.wires
    requires s.c.cts in s.c.cancelled || s.c.transport == Some(s.c.cts)
    requires s.c.transport == None || s.c.transport == Some(s.c.cts)
    requires !s.wires[s.c.cts].connecting && !T.Live(s.wires[s.c.cts])
    ensures Advances(s, id, AttemptNext(s, id))
  {
  }

  lemma LaunchingAdvances(s: World, id: nat)
    requires id in s.tasks && s.tasks[id].Launching? && s.tasks[id].wire in s.wires
    requires s.wires[s.tasks[id].wire].connecting && s.wires[s.tasks[id].wire].loops != []
    ensures Advances(s, id, AttemptNext(s, id))
  {
  }

  lemma DiallingAdvances(s: World, id: nat)
    requires id in s.tasks && s.tasks[id].Dialling? && s.c.cts in s.wires && s.tasks[id].wire == s.c.cts
    requires s.tasks[id].loop + 1 == |s.wires[s.c.cts].loops|
    ensures Advances(s, id, AttemptNext(s, id))
  {
    hide Advances, AttemptNext;
    if LastDial(s) == T.Dialing || LastDial(s) == T.Opened { DialAdvances(s, id); } else { DialDoneAdvances(s, id); }
  }

  lemma DialAdvances(s: World, id: nat)
    requires id in s.tasks && s.tasks[id].Dialling? && s.c.cts in s.wires && s.tasks[id].wire == s.c.cts
    requires s.tasks[id].loop + 1 == |s.wires[s.c.cts].loops| && (LastDial(s) == T.Dialing || LastDial(s) == T.Opened)
    ensures Advances(s, id, AttemptNext(s, id))
  {
    var w, n := s.wires[s.c.cts], s.tasks[id].loop;
    DialEnds(w);
    hide T.Can, T.Do;
    var step := if LastDial(s) == T.Dialing then T.Refuse(n) else T.Announce(n);
    assert AttemptNext(s, id) == OfTransport(WireStep(s.c.cts, step));
  }

  lemma DialEnds(w: T.Wire)
    requires w.loops != []
    ensures var n := |w.loops| - 1;
            && (T.Last(w).dial == T.Dialing ==> T.Can(w, T.Refuse(n)) && |T.Do(w, T.Refuse(n)).loops| == |w.loops|
                                                && T.Last(T.Do(w, T.Refuse(n))).dial == T.Refused)
            && (T.Last(w).dial == T.Opened ==> T.Can(w, T.Announce(n)) && |T.Do(w, T.Announce(n)).loops| == |w.loops|
                                               && T.Last(T.Do(w, T.Announce(n))).dial == T.Announced)
  {
  }

  lemma DialDoneAdvances(s: World, id: nat)
    requires id in s.tasks && s.tasks[id].Dialling? && s.c.cts in s.wires && s.tasks[id].wire == s.c.cts
    requires s.tasks[id].loop + 1 == |s.wires[s.c.cts].loops| && LastDial(s) != T.Dialing && LastDial(s) != T.Opened
    ensures Advances(s, id, AttemptNext(s, id))
  {
  }

  /** Every own step of an attempt other than a repetition needs no lock, and sets the event or leaves the attempt closer
      to setting it. */
  lemma AttemptMovesOn(s: World, id: nat, a: ReconnectStep)
    requires Inv(s) && id in s.tasks && Attempting(s.tasks[id]) && CanReconnectStep(s, a) && a.id == id && !a.Retry?
    ensures !NeedsLock(OfReconnect(a))
    ensures Nearer(s, DoReconnectStep(s, a), id)
  {
    hide Inv, T.EarlierEnded, T.Inv, Nearer, DoTryConnect, DoLaunchReturns, DoDialDone;
    TaskIs(s, id);
    CoreIs(s);
    WireShape(CoreOf(s));
    match a
    case TryConnect(_) => TryMovesOn(s, id);
    case LaunchReturns(_) => LaunchMovesOn(s, id);
    case DialDone(_) => DialMovesOn(s, id);
    case _ =>
      hide ChainOk, WireOk, TaskOk;
      OthersMoveOn(s, id, a);
  }

  lemma OthersMoveOn(s: World, id: nat, a: ReconnectStep)
    requires id in s.tasks && Attempting(s.tasks[id]) && CanReconnectStep(s, a) && a.id == id && !a.Retry?
    requires !a.TryConnect? && !a.LaunchReturns? && !a.DialDone?
    ensures !NeedsLock(OfReconnect(a)) && Nearer(s, DoReconnectStep(s, a), id)
  {
    hide LastDial;
  }

  lemma TryMovesOn(s: World, id: nat)
    requires CanTryConnect(s, id) && s.tasks[id].cts == s.c.cts && s.c.cts in s.wires
    requires s.c.cts in s.c.cancelled || s.c.transport == Some(s.c.cts)
    requires !T.Live(s.wires[s.c.cts])
    ensures Nearer(s, DoTryConnect(s, id), id)
  {
  }

  lemma LaunchMovesOn(s: World, id: nat)
    requires CanLaunchReturns(s, id)
    ensures Nearer(s, DoLaunchReturns(s, id), id)
  {
  }

  lemma DialMovesOn(s: World, id: nat)
    requires CanDialDone(s, id) && s.c.cts in s.wires && s.tasks[id].wire == s.c.cts
    requires s.tasks[id].loop + 1 == |s.wires[s.c.cts].loops|
    ensures Nearer(s, DoDialDone(s, id), id)
  {
  }

  lemma WireShape(k: Core)
    requires WireOk(k) && k.wire.Some?
    ensures 2 <= |k.wire.value.loops|
    ensures k.wire.value.token == |k.wire.value.loops| - (if k.wire.value.connecting then 2 else 1)
    ensures T.Dead(k.wire.value) ==> !T.Last(k.wire.value).live
  {
  }

  lemma {:induction false} AttemptSetsEvent(s: World, id: nat) returns (acts: seq<Action>)
    requires Inv(s) && id in s.tasks && Attempting(s.tasks[id])
    ensures |acts| <= AttemptRank(s.tasks[id], LastDial(s)) && LockFree(acts)
    ensures Proper(s, acts) && Legal(s, acts)
    ensures Exec(s, acts).c.event && Exec(s, acts).c.lock == s.c.lock
    decreases AttemptRank(s.tasks[id], LastDial(s))
  {
    hide Inv, Do, Can, Timely, AttemptRank, LastDial, Attempting, AttemptNext, NeedsLock, Legal, Proper, Exec;
    var a := AttemptNext(s, id);
    AttemptAdvances(s, id);
    KeepStep(s, a);
    EmptyRun(Do(s, a));
    var s' := Do(s, a);
    var rest := [];
    if !s'.c.event { rest := AttemptSetsEvent(s', id); }
    acts := [a] + rest;
    Prepend(s, a, rest);
  }

  lemma RankBounds(s: World)
    ensures forall chain :: ChainRank(chain) <= 9
    ensures forall t, dial :: AttemptRank(t, dial) <= 9
  {
  }

  lemma NoSteps(s: World)
    ensures LockFree([]) && Proper(s, []) && Legal(s, []) && Exec(s, []) == s
  {
  }

  /** Whoever waits for the event, holding the lock or not, waits for a chain or an attempt that can set it within
      nine steps, none of which needs the lock. */
  lemma EventCanBeSet(s: World) returns (acts: seq<Action>)
    requires Reachable(s) && 1 <= s.c.cts
    ensures |acts| <= 9 && LockFree(acts) && Proper(s, acts) && Legal(s, acts)
    ensures Exec(s, acts).c.event && Exec(s, acts).c.lock == s.c.lock
  {
    hide Inv, Reachable, Attempting, ChainRank, AttemptRank, WireOk, Legal, Proper, Exec, LockFree;
    ReachableInv(s);
    RankBounds(s);
    PastIs(s);
    DrivenIs(s);
    if s.c.event {
      acts := [];
      NoSteps(s);
    } else if !s.chains[s.c.cts].phase.Settled? {
      acts := ChainSetsEvent(s);
    } else {
      assert SomeAttempt(s.tasks);
      var id :| id in s.tasks && Attempting(s.tasks[id]);
      acts := AttemptSetsEvent(s, id);
    }
  }

  /** Who waits with the lock held: a `stop` or a `reconnect` of a connection that was started. */
  lemma WaitersAwaitAGeneration(s: World)
    requires Reachable(s) && s.c.lock.Some?
    ensures 1 <= s.c.cts && s.c.lock.value in s.tasks && Holds(s.tasks[s.c.lock.value])
    ensures s.tasks[s.c.lock.value].StopWaiting? || s.tasks[s.c.lock.value].ReconnectWaiting? || s.c.event
  {
    hide Inv, Reachable, T.Dead, T.IsOpen, WireOk;
    ReachableInv(s);
    LockIs(s);
    CoreIs(s);
    TaskIs(s, s.c.lock.value);
    PastIs(s);
    hide PastChainOk, T.Inv;
  }

  /** Once the event is set, the holder of the lock releases it by its own next steps. */
  lemma HolderReleases(s: World) returns (acts: seq<Action>)
    requires Reachable(s) && s.c.lock.Some? && s.c.event
    ensures |acts| <= 3 && LockFree(acts) && Legal(s, acts) && Exec(s, acts).c.lock == None
  {
    hide Reachable, Inv;
    WaitersAwaitAGeneration(s);
    var id := s.c.lock.value;
    match s.tasks[id]
    case StopWaiting =>
      var wake := OfStop(StopWakes(id));
      acts := StopReleases(Do(s, wake), id);
      Prepend(s, wake, acts);
      acts := [wake] + acts;
    case StopAwake => acts := StopReleases(s, id);
    case StopCommitting => acts := [OfStop(StopCommits(id))];
    case ReconnectWaiting(_) =>
      var wake, claim := OfReconnect(ReconnectWakes(id)), OfReconnect(ReconnectClaims(id));
      Prepend(Do(s, wake), claim, []);
      Prepend(s, wake, [claim]);
      acts := [wake, claim];
    case ReconnectAwake(_) => acts := [OfReconnect(ReconnectClaims(id))];
  }

  lemma StopReleases(s: World, id: nat) returns (acts: seq<Action>)
    requires TaskAt(s, id, StopAwake)
    ensures |acts| <= 2 && LockFree(acts) && Legal(s, acts) && Exec(s, acts).c.lock == None
  {
    var read := OfStop(StopReads(id));
    if s.c.state == Disconnected {
      acts := [read];
    } else {
      acts := [read, OfStop(StopCommits(id))];
      CommitReleases(Do(s, read), id);
      Prepend(s, read, acts[1..]);
    }
  }

  lemma CommitReleases(s: World, id: nat)
    requires TaskAt(s, id, StopCommitting)
    ensures var acts := [OfStop(StopCommits(id))]; Legal(s, acts) && Exec(s, acts).c.lock == None
  {
    EmptyRun(DoStopCommits(s, id));
  }

  // ---- The destructor ----

  /** Nobody owns the connection: no chain is under way, and the only work left holds weak pointers, that is, a
      reconnect that waits for a dial or sleeps between two attempts. */
  ghost predicate Unowned(s: World) {
    && (s.c.cts in s.chains ==> s.chains[s.c.cts].phase.Settled?)
    && forall i | i in s.tasks :: s.tasks[i].Dialling? || s.tasks[i].Retrying?
  }

  lemma OnlyWeakWork(s: World)
    requires Unowned(s)
    ensures !SomeClosing(s.tasks) && forall i | i in s.tasks :: !Holds(s.tasks[i])
  {
  }

  /** The destructor can run to its end: `shutdown` does not return the cancelled task that the destructor asserts
      against, the lock is free, and the transport it uses is there and not inside `connect`. */
  lemma DestructorCompletes(s: World)
    requires Reachable(s) && Unowned(s)
    ensures s.c.lock == None
    ensures s.c.state == Disconnected || s.c.state == Connected || s.c.state == Reconnecting
    ensures s.c.state != Disconnected ==>
              s.c.transport == Some(s.c.cts) && s.c.cts in s.wires && T.CanDisconnect(s.wires[s.c.cts])
  {
    hide Inv, Reachable, T.Inv, T.EarlierEnded, T.Dead;
    ReachableInv(s);
    CoreIs(s);
    LockIs(s);
    DrivenIs(s);
    if s.c.cts in s.wires { WireShape(CoreOf(s)); }
    OnlyWeakWork(s);
    if !s.c.event && s.c.state != Disconnected {
      var i :| i in s.tasks && Attempting(s.tasks[i]);
      TaskIs(s, i);
    }
  }

  /** The destructor has to set the event itself: if it is unset, the one task that would set it is a reconnect that
      can no longer get hold of the connection, and `shutdown` would wait for it. */
  lemma DestructorMustSignal(s: World)
    requires Reachable(s) && Unowned(s) && !s.c.event && 1 <= s.c.cts
    ensures s.c.state == Reconnecting
    ensures exists i :: i in s.tasks && (s.tasks[i].Dialling? || s.tasks[i].Retrying?)
  {
    hide Inv, Reachable, T.Inv, PastChainOk, T.Dead, T.IsOpen;
    ReachableInv(s);
    DrivenIs(s);
    PastIs(s);
    var i :| i in s.tasks && Attempting(s.tasks[i]);
    TaskIs(s, i);
  }
}
