/** The inductive invariant of the connection protocol. */
module ProtocolInvariant {
  import opened Wrappers
  import opened Protocol
  import T = Transport

  // ---- Kinds of tasks ----

  /** Holds `m_stop_lock`. */
  predicate Holds(t: Task) {
    HoldsForStop(t) || t.ReconnectWaiting? || t.ReconnectAwake?
  }

  predicate HoldsForStop(t: Task) {
    t.StopWaiting? || t.StopAwake? || t.StopCommitting?
  }

  predicate Closing(t: Task) {
    t.StopAborting? || t.StopClosing?
  }

  /** A reconnect in its attempt phase: from resetting the event to setting it. */
  predicate Attempting(t: Task) {
    || t.Preparing? || t.Trying? || t.Launching? || t.Dialling? || t.Retrying?
    || t.Succeeding? || t.Signalling? || t.GivingUp?
  }

  /** A call of `reconnect` made by generation `g` that has not changed the state yet. */
  predicate PendingFor(t: Task, g: nat) {
    (t.ReconnectCalled? || t.ReconnectWaiting? || t.ReconnectAwake?) && t.origin == g
  }

  /** Carries the news that generation `g` lost its transport and has not begun to replace it. */
  predicate Carries(t: Task, g: nat) {
    || PendingFor(t, g)
    || ((t.Notifying? || t.Preparing? || t.Trying? || t.Retrying?) && t.cts == g)
  }

  ghost predicate SomeAttempt(tasks: map<nat, Task>) {
    exists i :: i in tasks && Attempting(tasks[i])
  }

  ghost predicate SomeCarrier(tasks: map<nat, Task>, g: nat) {
    exists i :: i in tasks && Carries(tasks[i], g)
  }

  // ---- The part of the world that belongs to the current generation ----

  datatype Core = Core(state: ConnState, transport: Option<nat>, cts: nat, canceled: bool, event: bool, token: Option<nat>,
                       chain: Option<Chain>, wire: Option<T.Wire>)

  function CoreOf(s: World): Core {
    var g := s.c.cts;
    Core(s.c.state, s.c.transport, g, g in s.c.cancelled, s.c.event, s.c.token,
         if g in s.chains then Some(s.chains[g]) else None,
         if g in s.wires then Some(s.wires[g]) else None)
  }

  /** `start` is under way and its wire, if there is one, is at its first dial. */
  ghost predicate UnderWay(k: Core) {
    k.state == Connecting && !k.event && (k.wire.Some? ==> |k.wire.value.loops| == 2)
  }

  /** `start` is under way and its first `connect` has returned. */
  ghost predicate Connects(k: Core) {
    UnderWay(k) && k.wire.Some? && !k.wire.value.connecting && k.token == Some(k.cts)
  }

  /** The current chain against the shared state. */
  ghost predicate ChainOk(k: Core) {
    match k.chain
    case None => k.cts == 0 && k.state == Disconnected && k.transport == None
    case Some(Chain(phase, init, timer)) =>
      && (init == Released(true) ==> k.canceled)
      && (!phase.Settled? && init == Released(false) ==> k.wire.Some? && T.IsOpen(k.wire.value))
      && match phase
         case Negotiating => UnderWay(k) && k.wire == None && k.transport == None && init == Unset && !timer
         case ConnectBegun =>
           && UnderWay(k) && k.wire.Some? && k.wire.value.connecting && k.transport == None
           && k.token == Some(k.cts) && (init == Unset ==> timer)
         case AwaitingInit => Connects(k) && k.transport == None && (init == Unset ==> timer)
         case TransportStored => Connects(k) && k.transport == Some(k.cts) && init.Released?
         case StartRequested => Connects(k) && k.transport == Some(k.cts) && init == Released(false)
         case StartAnswered => Connects(k) && k.transport == Some(k.cts) && init == Released(false)
         case Announcing =>
           && k.state == Connected && !k.event && k.wire.Some? && !k.wire.value.connecting
           && k.transport == Some(k.cts) && k.token == Some(k.cts) && init == Released(false)
         case Failing =>
           && UnderWay(k) && (k.wire.Some? ==> !k.wire.value.connecting)
           && (k.transport.Some? ==> k.transport == Some(k.cts))
         case Unsignalled =>
           && k.state == Disconnected && k.transport == None && !k.event
           && (k.wire.Some? ==> !k.wire.value.connecting)
         case Settled(true) =>
           && k.state != Connecting && k.wire.Some? && k.token == Some(k.cts) && init == Released(false)
           && (if k.state == Disconnected then k.transport == None && k.canceled && k.event
               else k.transport == Some(k.cts))
         case Settled(false) => k.state == Disconnected && k.transport == None && k.event
  }

  ghost predicate WireOk(k: Core) {
    k.wire.Some? ==>
      var w := k.wire.value;
      && T.Inv(w)
      && 2 <= |w.loops|
      && T.EarlierEnded(w)
      && (k.event ==> !w.connecting)
      && (k.state == Connected ==> T.IsOpen(w))
      && (k.state == Reconnecting && k.event && !k.canceled ==> T.Dead(w))
      && (T.Last(w).dial == T.Dialing ==> T.Last(w).live || k.canceled)
  }

  /** A transport in use was lost: the latest loop is open, its token is cancelled, nobody asked for it. */
  ghost predicate Lost(k: Core) {
    && k.wire.Some?
    && !k.canceled
    && (k.state == Connecting || k.state == Connected || k.state == Reconnecting)
    && T.Gone(k.wire.value)
  }

  ghost predicate Quiet(k: Core) {
    k.wire.Some? && T.Dead(k.wire.value) && !k.wire.value.connecting
  }

  /** A task in its attempt phase: the connection is reconnecting, nobody else can set the event. */
  ghost predicate AttemptOk(k: Core, cts: nat) {
    && cts == k.cts && k.chain.Some? && k.chain.value.phase == Settled(true) && k.wire.Some?
    && !k.event && k.state == Reconnecting
  }

  ghost predicate DialOk(k: Core, cts: nat, wire: nat, n: nat) {
    AttemptOk(k, cts) && wire == cts && n + 1 == |k.wire.value.loops|
  }

  ghost predicate PendingOk(k: Core, origin: nat) {
    && 1 <= origin <= k.cts
    && (origin == k.cts ==>
          && k.wire.Some? && T.Dead(k.wire.value) && T.IsOpen(k.wire.value)
          && (k.state == Reconnecting ==> !k.event || k.canceled))
  }

  ghost predicate TaskOk(k: Core, t: Task) {
    match t
    case StopCalled => true
    case StopWaiting => k.canceled && k.state != Disconnecting
    case StopAwake => k.canceled && k.state != Disconnecting && k.event
    case StopCommitting => k.canceled && k.event && (k.state == Connected || k.state == Reconnecting)
    case StopAborting => k.state == Disconnecting
    case StopClosing => k.state == Disconnecting
    case StopFound => true
    case ReconnectCalled(o) => PendingOk(k, o)
    case ReconnectWaiting(o) => PendingOk(k, o)
    case ReconnectAwake(o) => PendingOk(k, o) && k.event
    case Notifying(cts) =>
      && 1 <= cts <= k.cts
      && (cts == k.cts ==> k.event && Quiet(k) && (!k.canceled ==> k.state == Reconnecting))
    case Preparing(cts) => AttemptOk(k, cts) && Quiet(k)
    case Trying(cts, _) => AttemptOk(k, cts) && Quiet(k)
    case Launching(cts, _, wire, n) => DialOk(k, cts, wire, n) && k.wire.value.connecting
    case Dialling(cts, _, wire, n) => DialOk(k, cts, wire, n) && !k.wire.value.connecting
    case Retrying(cts, _) =>
      AttemptOk(k, cts) && Quiet(k) && T.Last(k.wire.value).dial == T.Refused
    case Succeeding(cts) => AttemptOk(k, cts) && !k.wire.value.connecting && T.IsOpen(k.wire.value)
    case Signalling(cts) =>
      && cts == k.cts && k.chain.Some? && k.chain.value.phase == Settled(true) && k.wire.Some?
      && !k.event && k.state == Connected && !k.wire.value.connecting
    case GivingUp(cts) =>
      AttemptOk(k, cts) && Quiet(k) && (k.canceled || T.Last(k.wire.value).dial == T.Refused)
  }

  // ---- The rest of the world ----

  ghost predicate PastChainOk(chain: Chain, canceled: bool) {
    chain.phase.Settled? && (chain.phase.ok ==> chain.init == Released(false) && canceled)
  }

  /** Generations that are over: their chains are settled, and if a task still carries their token it is cancelled. */
  ghost predicate PastOk(s: World) {
    && (forall g :: g in s.chains <==> 1 <= g <= s.c.cts)
    && (forall g | g in s.chains && g < s.c.cts :: PastChainOk(s.chains[g], g in s.c.cancelled))
    && (forall g | g in s.wires :: g in s.chains && T.Inv(s.wires[g]))
    && (forall g | g in s.c.cancelled :: g in s.chains)
    && (forall i | i in s.tasks && s.tasks[i].Notifying? && s.tasks[i].cts < s.c.cts :: s.tasks[i].cts in s.c.cancelled)
  }

  ghost predicate LockOk(s: World) {
    && (forall i | i in s.tasks :: Holds(s.tasks[i]) <==> s.c.lock == Some(i))
    && (s.c.lock.Some? ==> s.c.lock.value in s.tasks)
    && (s.c.cts in s.c.cancelled ==>
          || s.c.state == Disconnecting || s.c.state == Disconnected
          || (s.c.lock.Some? && s.c.lock.value in s.tasks && HoldsForStop(s.tasks[s.c.lock.value])))
    && (s.c.state == Disconnecting ==> s.c.event && s.c.cts in s.c.cancelled)
  }

  /** At most one task attempts, at most one carries the loss, at most one closes. */
  ghost predicate Unique(tasks: map<nat, Task>, g: nat) {
    && (forall i, j | i in tasks && j in tasks && Attempting(tasks[i]) && Attempting(tasks[j]) :: i == j)
    && (forall i, j | i in tasks && j in tasks && Carries(tasks[i], g) && Carries(tasks[j], g) :: i == j)
    && (forall i, j | i in tasks && j in tasks && Closing(tasks[i]) && Closing(tasks[j]) :: i == j)
  }

  ghost predicate SomeClosing(tasks: map<nat, Task>) {
    exists i :: i in tasks && Closing(tasks[i])
  }

  /** The event will be set, the loss of a transport in use is not forgotten, a stop that began closing goes on. */
  ghost predicate Driven(s: World) {
    && (s.c.event || s.c.cts !in s.chains || !s.chains[s.c.cts].phase.Settled? || SomeAttempt(s.tasks))
    && (Lost(CoreOf(s)) ==> SomeCarrier(s.tasks, s.c.cts))
    && (s.c.state == Disconnecting ==> SomeClosing(s.tasks))
  }

  ghost predicate TasksOk(k: Core, tasks: map<nat, Task>) {
    forall i | i in tasks :: TaskOk(k, tasks[i])
  }

  ghost predicate Inv(s: World) {
    && PastOk(s)
    && LockOk(s)
    && ChainOk(CoreOf(s))
    && WireOk(CoreOf(s))
    && TasksOk(CoreOf(s), s.tasks)
    && Unique(s.tasks, s.c.cts)
    && Driven(s)
    && s.faults == {}
  }

  // ---- The parts of the invariant ----

  lemma Parts(s: World)
    requires Inv(s)
    ensures PastOk(s) && LockOk(s) && Unique(s.tasks, s.c.cts) && Driven(s) && s.faults == {}
    ensures ChainOk(CoreOf(s)) && WireOk(CoreOf(s)) && TasksOk(CoreOf(s), s.tasks)
  {
    hide PastOk, LockOk, ChainOk, WireOk, TasksOk, Unique, Driven, CoreOf;
  }

  lemma Whole(s: World)
    requires PastOk(s) && LockOk(s) && Unique(s.tasks, s.c.cts) && Driven(s) && s.faults == {}
    requires ChainOk(CoreOf(s)) && WireOk(CoreOf(s)) && TasksOk(CoreOf(s), s.tasks)
    ensures Inv(s)
  {
    hide PastOk, LockOk, ChainOk, WireOk, TasksOk, Unique, Driven, CoreOf;
  }

  lemma PastIs(s: World)
    requires Inv(s)
    ensures PastOk(s)
  {
    hide PastOk, LockOk, ChainOk, WireOk, TasksOk, Unique, Driven, CoreOf;
  }

  lemma CoreIs(s: World)
    requires Inv(s)
    ensures ChainOk(CoreOf(s)) && WireOk(CoreOf(s))
  {
    hide PastOk, LockOk, ChainOk, WireOk, TasksOk, Unique, Driven, CoreOf;
  }

  lemma TaskIs(s: World, id: nat)
    requires Inv(s) && id in s.tasks
    ensures TaskOk(CoreOf(s), s.tasks[id])
  {
    hide PastOk, LockOk, ChainOk, WireOk, TaskOk, Unique, Driven, CoreOf;
  }

  lemma LockIs(s: World)
    requires Inv(s)
    ensures LockOk(s)
  {
    hide PastOk, LockOk, ChainOk, WireOk, TasksOk, Unique, Driven, CoreOf;
  }

  lemma TasksAre(s: World)
    requires Inv(s)
    ensures TasksOk(CoreOf(s), s.tasks)
  {
    hide PastOk, LockOk, ChainOk, WireOk, TasksOk, Unique, Driven, CoreOf;
  }

  lemma DrivenIs(s: World)
    requires Inv(s)
    ensures Driven(s)
  {
    hide PastOk, LockOk, ChainOk, WireOk, TasksOk, Unique, Driven, CoreOf;
  }

  lemma UniqueIs(s: World)
    requires Inv(s)
    ensures Unique(s.tasks, s.c.cts)
  {
    hide PastOk, LockOk, ChainOk, WireOk, TasksOk, Unique, Driven, CoreOf;
  }

  lemma StartedIs(s: World)
    requires Inv(s) && s.c.state != Disconnected
    ensures s.c.cts in s.chains
  {
    hide Inv, WireOk, T.Inv;
    CoreIs(s);
  }

  lemma Initially()
    ensures Inv(INITIAL)
  {
  }
}
