/** The connection protocol of `connection_impl` as atomic steps over shared state.

    A generation is one successful call of `start`; its number names its cancellation token, its chain of
    continuations and the transport it creates. Calls of `stop` and `reconnect` are tasks; any number may be pending.
    A chain notices cancellation only at its token-guarded continuations. A step that needs `m_stop_lock` is enabled
    only when no other task holds it; a wait is a step enabled only when the event is signalled. */
module Protocol {
  import opened Wrappers
  import opened Frames
  import T = Transport

  // ---- Shared state ----

  datatype ConnState = Disconnected | Connecting | Connected | Reconnecting | Disconnecting

  /** The fields of `connection_impl`. `cts` names the token source in `m_disconnect_cts`; copies of a source share its
      flag, so one set `cancelled` holds for all of them. `lock` names the task that holds `m_stop_lock` while it waits.
      `token` names the generation whose negotiation filled `m_connection_token`. */
  datatype Connection = Connection(state: ConnState, transport: Option<nat>, cts: nat, cancelled: set<nat>,
                                   event: bool, lock: Option<nat>, token: Option<nat>, cursor: Cursor)

  /** The inputs of `build_reconnect` that change while a connection lives. */
  datatype Url = Url(token: Option<nat>, messageId: string, groupsToken: string)

  function UrlOf(c: Connection): Url {
    Url(c.token, c.cursor.messageId, c.cursor.groupsToken)
  }

  // ---- Pending work ----

  datatype Phase =
    | Negotiating         // until the guarded continuation at 105
    | ConnectBegun        // `transport->connect` runs, called at 271
    | AwaitingInit        // waits for `connect_request_tce`
    | TransportStored     // 122 has run
    | StartRequested      // the guarded continuation at 125 has run
    | StartAnswered       // about to change the state at 136
    | Announcing          // state changed, about to set the event at 145
    | Failing             // about to run 163-164
    | Unsignalled         // disconnected, about to set the event at 165
    | Settled(ok: bool)   // `start_tce` is set

  /** `connect_request_tce`: the first setter wins. */
  datatype Init = Unset | Released(byTimer: bool) | Faulted

  datatype Chain = Chain(phase: Phase, init: Init, timer: bool)

  datatype Task =
    | StopCalled
    | StopWaiting                    // holds the lock, waits at 475
    | StopAwake                      // holds the lock, about to read the state at 483
    | StopCommitting                 // holds the lock, about to exchange the state at 490
    | StopAborting                   // about to use the transport at 494 and 509
    | StopClosing                    // waits for the transport, then runs 421-426
    | StopFound                      // found the connection disconnected at 457 or 483, about to run 421-426
    | ReconnectCalled(origin: nat)   // `origin` is the generation whose error callback made the call
    | ReconnectWaiting(origin: nat)  // holds the lock, waits at 524
    | ReconnectAwake(origin: nat)    // holds the lock, about to change the state at 531
    | Notifying(cts: nat)            // runs the user callback, keeps the token copied at 539
    | Preparing(cts: nat)            // reset the event at 593, about to read the URL parts at 596
    | Trying(cts: nat, url: Url)     // at 662
    | Launching(cts: nat, url: Url, wire: nat, loop: nat)  // inside `connect`, called at 672
    | Dialling(cts: nat, url: Url, wire: nat, loop: nat)   // waits for the task `connect` returned
    | Retrying(cts: nat, url: Url)   // the attempt failed, between 690 and 721
    | Succeeding(cts: nat)           // about to change the state at 617
    | Signalling(cts: nat)           // state changed, about to set the event at 628
    | GivingUp(cts: nat)             // about to set the event at 652

  /** The branches and conditions the source claims cannot happen. */
  datatype Fault =
    | TransportLeft              // the assert at 87
    | StartUnexpectedState       // the branch at 136-143
    | StopUnexpectedState        // the assert at 488
    | ReconnectUnexpectedState   // the branch at 617-624
    | NullTransport              // a null `m_transport` used at 128, 494, 509, 596 or 672
    | AlreadyConnected           // `connect` throws at 53 of websocket_transport.cpp out of `try_reconnect`

  /** A processed frame and the generation whose transport handed it on. */
  datatype Processed = Processed(generation: nat, frame: Frame)

  /** `seen` records the frames processed since the last `start`, `built` how many of them there were when the URL of
      the latest reconnect was built, and `faults` what happened of the claims above. */
  datatype World = World(c: Connection, chains: map<nat, Chain>, tasks: map<nat, Task>, wires: map<nat, T.Wire>,
                         seen: seq<Processed>, built: nat, faults: set<Fault>)

  const INITIAL := World(
    Connection(Disconnected, None, 0, {}, false, None, None, EMPTY_CURSOR), map[], map[], map[], [], 0, {})

  // ---- The sections of connection_impl that run without interruption ----

  /** The lock section of `start` (79-92), when the state admits it. */
  function StartSection(c: Connection): Connection {
    if c.state != Disconnected then c
    else c.(state := Connecting, cts := c.cts + 1, event := false, token := None, cursor := EMPTY_CURSOR)
  }

  /** `change_state(old, new)`. */
  function ChangeState(c: Connection, oldState: ConnState, newState: ConnState): Connection {
    if c.state == oldState then c.(state := newState) else c
  }

  /** Lines 163-164. */
  function FailSection(c: Connection): Connection {
    c.(transport := None, state := Disconnected)
  }

  /** `shutdown` from taking the lock up to the wait (453-473); it keeps the lock only if it goes on to wait. */
  function ShutdownSection(c: Connection, id: nat): Connection {
    if c.state == Disconnected || c.state == Disconnecting then c
    else c.(cancelled := c.cancelled + {c.cts}, lock := Some(id))
  }

  /** Lines 421-426. */
  function FinishSection(c: Connection): Connection {
    if c.state == Disconnecting then c.(state := Disconnected, transport := None) else c
  }

  /** Lines 531-540, with the end of the lock. */
  function ClaimSection(c: Connection): Connection {
    ChangeState(c, Connected, Reconnecting).(lock := None)
  }

  /** Does the second lock section of `reconnect` (562-594) go on to the attempts? */
  predicate MayResume(c: Connection, cts: nat) {
    cts !in c.cancelled && c.state == Reconnecting
  }

  function ResumeSection(c: Connection, cts: nat): Connection {
    if MayResume(c, cts) then c.(event := false) else c
  }

  /** `process_response` on the two fields. */
  function ReceiveSection(c: Connection, f: Frame): Connection {
    c.(cursor := Process(c.cursor, f))
  }

  // ---- Steps ----

  datatype StartStep =
    | Start
    | Negotiated(g: nat)
    | ConnectReturns(g: nat)
    | ConnectRefused(g: nat)
    | TimerFires(g: nat)
    | StoreTransport(g: nat)
    | RequestStart(g: nat)
    | AnswerStart(g: nat)
    | CompleteStart(g: nat)
    | AnnounceStart(g: nat)
    | ChainFails(g: nat)
    | FailStart(g: nat)
    | FailSignals(g: nat)

  datatype TransportStep =
    | WireStep(g: nat, step: T.Action)
    | HandFrame(g: nat, n: nat)
    | ReportLoss(g: nat, n: nat, id: nat)

  datatype StopStep =
    | CallStop(id: nat)
    | StopLocks(id: nat)
    | StopWakes(id: nat)
    | StopReads(id: nat)
    | StopCommits(id: nat)
    | StopAborts(id: nat)
    | StopFinishes(id: nat)
    | StopResumes(id: nat)

  datatype ReconnectStep =
    | ReconnectLocks(id: nat)
    | ReconnectWakes(id: nat)
    | ReconnectClaims(id: nat)
    | ReconnectResumes(id: nat)
    | BuildUrl(id: nat)
    | TryConnect(id: nat)
    | LaunchReturns(id: nat)
    | DialDone(id: nat)
    | Retry(id: nat)
    | GiveUp(id: nat)
    | CompleteReconnect(id: nat)
    | AnnounceReconnect(id: nat)
    | AbandonReconnect(id: nat)

  datatype Action =
    | OfStart(start: StartStep)
    | OfTransport(transport: TransportStep)
    | OfStop(stop: StopStep)
    | OfReconnect(reconnect: ReconnectStep)

  predicate ChainAt(s: World, g: nat, phase: Phase) {
    g in s.chains && s.chains[g].phase == phase
  }

  predicate TaskAt(s: World, id: nat, task: Task) {
    id in s.tasks && s.tasks[id] == task
  }

  /** The object `m_transport` points to, if any, is one of the transports. */
  predicate TransportNamed(s: World) {
    s.c.transport.Some? ==> s.c.transport.value in s.wires
  }

  function SetPhase(s: World, g: nat, phase: Phase): World
    requires g in s.chains
  {
    s.(chains := s.chains[g := s.chains[g].(phase := phase)])
  }

  /** The first setter of `connect_request_tce` wins. */
  function SetInit(s: World, g: nat, init: Init): World
    requires g in s.chains
  {
    if s.chains[g].init == Unset then s.(chains := s.chains[g := s.chains[g].(init := init)]) else s
  }

  function SetTask(s: World, id: nat, task: Task): World {
    s.(tasks := s.tasks[id := task])
  }

  function DropTask(s: World, id: nat): World {
    s.(tasks := s.tasks - {id})
  }

  function Raise(s: World, unless: bool, fault: Fault): World {
    if unless then s else s.(faults := s.faults + {fault})
  }

  // ---- start ----

  predicate CanStart(s: World) {
    s.c.lock == None && s.c.state == Disconnected
  }

  function DoStart(s: World): World {
    var t := Raise(s, s.c.transport == None, TransportLeft);
    t.(c := StartSection(s.c), chains := s.chains[s.c.cts + 1 := Chain(Negotiating, Unset, false)], seen := [], built := 0)
  }

  predicate CanNegotiated(s: World, g: nat) {
    ChainAt(s, g, Negotiating) && g !in s.c.cancelled
  }

  /** Lines 107-119, 238-258 and `transport->connect` at 271 on the transport just created. */
  function DoNegotiated(s: World, g: nat): World
    requires CanNegotiated(s, g)
  {
    s.(c := s.c.(token := Some(g)),
       chains := s.chains[g := s.chains[g].(phase := ConnectBegun, timer := true)],
       wires := s.wires[g := T.DoBeginConnect(T.FRESH_WIRE)])
  }

  predicate CanConnectReturns(s: World, g: nat) {
    ChainAt(s, g, ConnectBegun) && g in s.wires && T.CanEndConnect(s.wires[g])
  }

  function DoConnectReturns(s: World, g: nat): World
    requires CanConnectReturns(s, g)
  {
    SetPhase(s, g, AwaitingInit).(wires := s.wires[g := T.DoEndConnect(s.wires[g])])
  }

  predicate CanConnectRefused(s: World, g: nat) {
    g in s.chains && g in s.wires && 1 < |s.wires[g].loops| && s.wires[g].loops[1].dial == T.Refused
  }

  predicate CanTimerFires(s: World, g: nat) {
    g in s.chains && s.chains[g].timer
  }

  /** Lines 250-257. */
  function DoTimerFires(s: World, g: nat): World
    requires CanTimerFires(s, g)
  {
    var t := s.(chains := s.chains[g := s.chains[g].(timer := false)]);
    SetInit(t, g, if g in s.c.cancelled then Released(true) else Faulted)
  }

  predicate CanStoreTransport(s: World, g: nat) {
    ChainAt(s, g, AwaitingInit) && s.chains[g].init.Released?
  }

  function DoStoreTransport(s: World, g: nat): World
    requires CanStoreTransport(s, g)
  {
    SetPhase(s, g, TransportStored).(c := s.c.(transport := Some(g)))
  }

  predicate CanRequestStart(s: World, g: nat) {
    ChainAt(s, g, TransportStored) && g !in s.c.cancelled
  }

  function DoRequestStart(s: World, g: nat): World
    requires CanRequestStart(s, g)
  {
    SetPhase(Raise(s, s.c.transport.Some?, NullTransport), g, StartRequested)
  }

  /** Lines 136-143. */
  function DoCompleteStart(s: World, g: nat): World
    requires ChainAt(s, g, StartAnswered)
  {
    var t := Raise(s, s.c.state == Connecting, StartUnexpectedState);
    SetPhase(t, g, Announcing).(c := ChangeState(s.c, Connecting, Connected))
  }

  /** Lines 145-146. */
  function DoAnnounceStart(s: World, g: nat): World
    requires ChainAt(s, g, Announcing)
  {
    SetPhase(s, g, Settled(true)).(c := s.c.(event := true))
  }

  /** When a chain may leave for the final continuation with an exception: a request fails, the token is found
      cancelled, the server is incompatible, or `connect_request_tce` holds an exception. */
  predicate CanChainFails(s: World, g: nat) {
    g in s.chains &&
    match s.chains[g].phase
    case Negotiating => true
    case AwaitingInit => s.chains[g].init == Faulted
    case TransportStored => g in s.c.cancelled
    case StartRequested => true
    case _ => false
  }

  function DoFailStart(s: World, g: nat): World
    requires ChainAt(s, g, Failing)
  {
    SetPhase(s, g, Unsignalled).(c := FailSection(s.c))
  }

  /** Lines 165-166. */
  function DoFailSignals(s: World, g: nat): World
    requires ChainAt(s, g, Unsignalled)
  {
    SetPhase(s, g, Settled(false)).(c := s.c.(event := true))
  }

  // ---- transports ----

  predicate CanWireStep(s: World, g: nat, step: T.Action) {
    g in s.wires && T.Internal(step) && T.Can(s.wires[g], step)
  }

  function DoWireStep(s: World, g: nat, step: T.Action): World
    requires CanWireStep(s, g, step)
  {
    s.(wires := s.wires[g := T.Do(s.wires[g], step)])
  }

  predicate CanHandFrame(s: World, g: nat, n: nat) {
    && g in s.wires && g in s.chains
    && n < |s.wires[g].loops| && T.CanLoop(s.wires[g].loops[n], T.Hand(n))
  }

  /** The frame `receive()` returned last. */
  function FrameInHand(s: World, g: nat, n: nat): Frame
    requires CanHandFrame(s, g, n)
  {
    s.wires[g].loops[n].sent[s.wires[g].loops[n].taken - 1]
  }

  /** Lines 189-209 with 292-350: the token check and what is kept of the frame. */
  function DoHandFrame(s: World, g: nat, n: nat): World
    requires CanHandFrame(s, g, n)
  {
    var f := FrameInHand(s, g, n);
    var t := s.(wires := s.wires[g := T.Do(s.wires[g], T.Hand(n))]);
    if g in s.c.cancelled then t
    else
      var u := t.(c := ReceiveSection(s.c, f), seen := s.seen + [Processed(g, f)]);
      if IsInit(f) then SetInit(u, g, Released(false)) else u
  }

  predicate CanReportLoss(s: World, g: nat, n: nat, id: nat) {
    && g in s.wires && g in s.chains && id !in s.tasks
    && n < |s.wires[g].loops| && T.CanLoop(s.wires[g].loops[n], T.Report(n))
  }

  /** Lines 212-236: the token check, then a call of `reconnect` that has not taken the lock yet. */
  function DoReportLoss(s: World, g: nat, n: nat, id: nat): World
    requires CanReportLoss(s, g, n, id)
  {
    var t := s.(wires := s.wires[g := T.Do(s.wires[g], T.Report(n))]);
    if g in s.c.cancelled then t
    else SetTask(SetInit(t, g, Faulted), id, ReconnectCalled(g))
  }

  // ---- stop ----

  predicate CanStopLocks(s: World, id: nat) {
    TaskAt(s, id, StopCalled) && s.c.lock == None
  }

  function DoStopLocks(s: World, id: nat): World
    requires CanStopLocks(s, id)
  {
    if s.c.state == Disconnected then SetTask(s, id, StopFound)
    else if s.c.state == Disconnecting then DropTask(s, id)
    else SetTask(s, id, StopWaiting).(c := ShutdownSection(s.c, id))
  }

  predicate CanStopWakes(s: World, id: nat) {
    TaskAt(s, id, StopWaiting) && s.c.event
  }

  /** Lines 483-488. */
  function DoStopReads(s: World, id: nat): World
    requires TaskAt(s, id, StopAwake)
  {
    if s.c.state == Disconnected then SetTask(s, id, StopFound).(c := s.c.(lock := None))
    else SetTask(Raise(s, s.c.state == Connected || s.c.state == Reconnecting, StopUnexpectedState), id, StopCommitting)
  }

  /** Line 490 and the end of the lock. */
  function DoStopCommits(s: World, id: nat): World
    requires TaskAt(s, id, StopCommitting)
  {
    SetTask(s, id, StopAborting).(c := s.c.(state := Disconnecting, lock := None))
  }

  predicate CanStopAborts(s: World, id: nat) {
    && TaskAt(s, id, StopAborting) && TransportNamed(s)
    && (s.c.transport.Some? ==> T.CanDisconnect(s.wires[s.c.transport.value]))
  }

  /** Lines 494-509. */
  function DoStopAborts(s: World, id: nat): World
    requires CanStopAborts(s, id)
  {
    if s.c.transport == None then DropTask(Raise(s, false, NullTransport), id)
    else
      var g := s.c.transport.value;
      SetTask(s, id, StopClosing).(wires := s.wires[g := T.DoDisconnect(s.wires[g])])
  }

  predicate CanStopFinishes(s: World, id: nat) {
    TaskAt(s, id, StopClosing) && s.c.lock == None
  }

  function DoStopFinishes(s: World, id: nat): World
    requires CanStopFinishes(s, id)
  {
    DropTask(s, id).(c := FinishSection(s.c))
  }

  /** A stop that found the connection disconnected runs the same lines; by now the state may be another. */
  predicate CanStopResumes(s: World, id: nat) {
    TaskAt(s, id, StopFound) && s.c.lock == None
  }

  function DoStopResumes(s: World, id: nat): World
    requires CanStopResumes(s, id)
  {
    DropTask(s, id).(c := FinishSection(s.c))
  }

  // ---- reconnect ----

  predicate CanReconnectLocks(s: World, id: nat) {
    id in s.tasks && s.tasks[id].ReconnectCalled? && s.c.lock == None
  }

  function DoReconnectLocks(s: World, id: nat): World
    requires CanReconnectLocks(s, id)
  {
    SetTask(s, id, ReconnectWaiting(s.tasks[id].origin)).(c := s.c.(lock := Some(id)))
  }

  predicate CanReconnectWakes(s: World, id: nat) {
    id in s.tasks && s.tasks[id].ReconnectWaiting? && s.c.event
  }

  function DoReconnectWakes(s: World, id: nat): World
    requires CanReconnectWakes(s, id)
  {
    SetTask(s, id, ReconnectAwake(s.tasks[id].origin))
  }

  predicate CanReconnectClaims(s: World, id: nat) {
    id in s.tasks && s.tasks[id].ReconnectAwake?
  }

  /** Lines 531-540. */
  function DoReconnectClaims(s: World, id: nat): World
    requires CanReconnectClaims(s, id)
  {
    var t := if s.c.state == Connected then SetTask(s, id, Notifying(s.c.cts)) else DropTask(s, id);
    t.(c := ClaimSection(s.c))
  }

  predicate CanReconnectResumes(s: World, id: nat) {
    id in s.tasks && s.tasks[id].Notifying? && s.c.lock == None
  }

  /** Lines 562-594. */
  function DoReconnectResumes(s: World, id: nat): World
    requires CanReconnectResumes(s, id)
  {
    var cts := s.tasks[id].cts;
    var t := if MayResume(s.c, cts) then SetTask(s, id, Preparing(cts)) else DropTask(s, id);
    t.(c := ResumeSection(s.c, cts))
  }

  predicate CanBuildUrl(s: World, id: nat) {
    id in s.tasks && s.tasks[id].Preparing?
  }

  /** Lines 596-597. */
  function DoBuildUrl(s: World, id: nat): World
    requires CanBuildUrl(s, id)
  {
    SetTask(Raise(s, s.c.transport.Some?, NullTransport), id, Trying(s.tasks[id].cts, UrlOf(s.c))).(built := |s.seen|)
  }

  predicate CanTryConnect(s: World, id: nat) {
    && id in s.tasks && s.tasks[id].Trying? && TransportNamed(s)
    && (s.c.transport.Some? ==> !s.wires[s.c.transport.value].connecting)
  }

  /** Lines 662-672. An exception of `connect` leaves `try_reconnect` and `reconnect`: the task is gone. */
  function DoTryConnect(s: World, id: nat): World
    requires CanTryConnect(s, id)
  {
    var Trying(cts, url) := s.tasks[id];
    if cts in s.c.cancelled then SetTask(s, id, GivingUp(cts))
    else if s.c.transport == None then DropTask(Raise(s, false, NullTransport), id)
    else
      var g := s.c.transport.value;
      if T.Live(s.wires[g]) then DropTask(Raise(s, false, AlreadyConnected), id)
      else
        SetTask(s, id, Launching(cts, url, g, |s.wires[g].loops|))
          .(wires := s.wires[g := T.DoBeginConnect(s.wires[g])])
  }

  predicate CanLaunchReturns(s: World, id: nat) {
    && id in s.tasks && s.tasks[id].Launching?
    && s.tasks[id].wire in s.wires && T.CanEndConnect(s.wires[s.tasks[id].wire])
  }

  function DoLaunchReturns(s: World, id: nat): World
    requires CanLaunchReturns(s, id)
  {
    var Launching(cts, url, g, n) := s.tasks[id];
    SetTask(s, id, Dialling(cts, url, g, n)).(wires := s.wires[g := T.DoEndConnect(s.wires[g])])
  }

  predicate CanDialDone(s: World, id: nat) {
    && id in s.tasks && s.tasks[id].Dialling?
    && s.tasks[id].wire in s.wires && s.tasks[id].loop < |s.wires[s.tasks[id].wire].loops|
    && var dial := s.wires[s.tasks[id].wire].loops[s.tasks[id].loop].dial;
       dial == T.Announced || dial == T.Refused
  }

  /** Lines 676-688. */
  function DoDialDone(s: World, id: nat): World
    requires CanDialDone(s, id)
  {
    var Dialling(cts, url, g, n) := s.tasks[id];
    SetTask(s, id, if s.wires[g].loops[n].dial == T.Announced then Succeeding(cts) else Retrying(cts, url))
  }

  predicate CanRetry(s: World, id: nat) {
    id in s.tasks && s.tasks[id].Retrying? && s.tasks[id].cts !in s.c.cancelled
  }

  function DoRetry(s: World, id: nat): World
    requires CanRetry(s, id)
  {
    SetTask(s, id, Trying(s.tasks[id].cts, s.tasks[id].url))
  }

  predicate CanGiveUp(s: World, id: nat) {
    id in s.tasks && s.tasks[id].Retrying?
  }

  function DoGiveUp(s: World, id: nat): World
    requires CanGiveUp(s, id)
  {
    SetTask(s, id, GivingUp(s.tasks[id].cts))
  }

  predicate CanCompleteReconnect(s: World, id: nat) {
    id in s.tasks && s.tasks[id].Succeeding?
  }

  /** Lines 617-624. */
  function DoCompleteReconnect(s: World, id: nat): World
    requires CanCompleteReconnect(s, id)
  {
    var t := Raise(s, s.c.state == Reconnecting, ReconnectUnexpectedState);
    SetTask(t, id, Signalling(s.tasks[id].cts)).(c := ChangeState(s.c, Reconnecting, Connected))
  }

  predicate CanAnnounceReconnect(s: World, id: nat) {
    id in s.tasks && s.tasks[id].Signalling?
  }

  function DoAnnounceReconnect(s: World, id: nat): World
    requires CanAnnounceReconnect(s, id)
  {
    DropTask(s, id).(c := s.c.(event := true))
  }

  predicate CanAbandonReconnect(s: World, id: nat) {
    id in s.tasks && s.tasks[id].GivingUp?
  }

  /** Lines 652-654: the event, then a call of `stop`. */
  function DoAbandonReconnect(s: World, id: nat): World
    requires CanAbandonReconnect(s, id)
  {
    SetTask(s, id, StopCalled).(c := s.c.(event := true))
  }

  // ---- All steps ----

  predicate CanStartStep(s: World, a: StartStep) {
    match a
    case Start => CanStart(s)
    case Negotiated(g) => CanNegotiated(s, g)
    case ConnectReturns(g) => CanConnectReturns(s, g)
    case ConnectRefused(g) => CanConnectRefused(s, g)
    case TimerFires(g) => CanTimerFires(s, g)
    case StoreTransport(g) => CanStoreTransport(s, g)
    case RequestStart(g) => CanRequestStart(s, g)
    case AnswerStart(g) => ChainAt(s, g, StartRequested)
    case CompleteStart(g) => ChainAt(s, g, StartAnswered)
    case AnnounceStart(g) => ChainAt(s, g, Announcing)
    case ChainFails(g) => CanChainFails(s, g)
    case FailStart(g) => ChainAt(s, g, Failing)
    case FailSignals(g) => ChainAt(s, g, Unsignalled)
  }

  function DoStartStep(s: World, a: StartStep): World
    requires CanStartStep(s, a)
  {
    match a
    case Start => DoStart(s)
    case Negotiated(g) => DoNegotiated(s, g)
    case ConnectReturns(g) => DoConnectReturns(s, g)
    case ConnectRefused(g) => SetInit(s, g, Faulted)
    case TimerFires(g) => DoTimerFires(s, g)
    case StoreTransport(g) => DoStoreTransport(s, g)
    case RequestStart(g) => DoRequestStart(s, g)
    case AnswerStart(g) => SetPhase(s, g, StartAnswered)
    case CompleteStart(g) => DoCompleteStart(s, g)
    case AnnounceStart(g) => DoAnnounceStart(s, g)
    case ChainFails(g) => SetPhase(s, g, Failing)
    case FailStart(g) => DoFailStart(s, g)
    case FailSignals(g) => DoFailSignals(s, g)
  }

  predicate CanTransportStep(s: World, a: TransportStep) {
    match a
    case WireStep(g, step) => CanWireStep(s, g, step)
    case HandFrame(g, n) => CanHandFrame(s, g, n)
    case ReportLoss(g, n, id) => CanReportLoss(s, g, n, id)
  }

  function DoTransportStep(s: World, a: TransportStep): World
    requires CanTransportStep(s, a)
  {
    match a
    case WireStep(g, step) => DoWireStep(s, g, step)
    case HandFrame(g, n) => DoHandFrame(s, g, n)
    case ReportLoss(g, n, id) => DoReportLoss(s, g, n, id)
  }

  predicate CanStopStep(s: World, a: StopStep) {
    match a
    case CallStop(id) => id !in s.tasks
    case StopLocks(id) => CanStopLocks(s, id)
    case StopWakes(id) => CanStopWakes(s, id)
    case StopReads(id) => TaskAt(s, id, StopAwake)
    case StopCommits(id) => TaskAt(s, id, StopCommitting)
    case StopAborts(id) => CanStopAborts(s, id)
    case StopFinishes(id) => CanStopFinishes(s, id)
    case StopResumes(id) => CanStopResumes(s, id)
  }

  function DoStopStep(s: World, a: StopStep): World
    requires CanStopStep(s, a)
  {
    match a
    case CallStop(id) => SetTask(s, id, StopCalled)
    case StopLocks(id) => DoStopLocks(s, id)
    case StopWakes(id) => SetTask(s, id, StopAwake)
    case StopReads(id) => DoStopReads(s, id)
    case StopCommits(id) => DoStopCommits(s, id)
    case StopAborts(id) => DoStopAborts(s, id)
    case StopFinishes(id) => DoStopFinishes(s, id)
    case StopResumes(id) => DoStopResumes(s, id)
  }

  predicate CanReconnectStep(s: World, a: ReconnectStep) {
    match a
    case ReconnectLocks(id) => CanReconnectLocks(s, id)
    case ReconnectWakes(id) => CanReconnectWakes(s, id)
    case ReconnectClaims(id) => CanReconnectClaims(s, id)
    case ReconnectResumes(id) => CanReconnectResumes(s, id)
    case BuildUrl(id) => CanBuildUrl(s, id)
    case TryConnect(id) => CanTryConnect(s, id)
    case LaunchReturns(id) => CanLaunchReturns(s, id)
    case DialDone(id) => CanDialDone(s, id)
    case Retry(id) => CanRetry(s, id)
    case GiveUp(id) => CanGiveUp(s, id)
    case CompleteReconnect(id) => CanCompleteReconnect(s, id)
    case AnnounceReconnect(id) => CanAnnounceReconnect(s, id)
    case AbandonReconnect(id) => CanAbandonReconnect(s, id)
  }

  function DoReconnectStep(s: World, a: ReconnectStep): World
    requires CanReconnectStep(s, a)
  {
    match a
    case ReconnectLocks(id) => DoReconnectLocks(s, id)
    case ReconnectWakes(id) => DoReconnectWakes(s, id)
    case ReconnectClaims(id) => DoReconnectClaims(s, id)
    case ReconnectResumes(id) => DoReconnectResumes(s, id)
    case BuildUrl(id) => DoBuildUrl(s, id)
    case TryConnect(id) => DoTryConnect(s, id)
    case LaunchReturns(id) => DoLaunchReturns(s, id)
    case DialDone(id) => DoDialDone(s, id)
    case Retry(id) => DoRetry(s, id)
    case GiveUp(id) => DoGiveUp(s, id)
    case CompleteReconnect(id) => DoCompleteReconnect(s, id)
    case AnnounceReconnect(id) => DoAnnounceReconnect(s, id)
    case AbandonReconnect(id) => DoAbandonReconnect(s, id)
  }

  predicate Can(s: World, a: Action) {
    match a
    case OfStart(b) => CanStartStep(s, b)
    case OfTransport(b) => CanTransportStep(s, b)
    case OfStop(b) => CanStopStep(s, b)
    case OfReconnect(b) => CanReconnectStep(s, b)
  }

  function Do(s: World, a: Action): World
    requires Can(s, a)
  {
    match a
    case OfStart(b) => DoStartStep(s, b)
    case OfTransport(b) => DoTransportStep(s, b)
    case OfStop(b) => DoStopStep(s, b)
    case OfReconnect(b) => DoReconnectStep(s, b)
  }

  // ---- Runs ----

  /** A step is not overtaken by a later generation: a call of `reconnect` takes a connected connection away only if the
      generation whose error callback made it is still the current one, `start` is called only when the task of the
      start before it is settled, and a stop that found the connection disconnected does not resume while another one
      is disconnecting it. Every other step is timely by construction. */
  predicate Timely(s: World, a: Action) {
    match a
    case OfReconnect(ReconnectClaims(id)) =>
      id in s.tasks && s.tasks[id].ReconnectAwake? && s.c.state == Connected ==> s.tasks[id].origin == s.c.cts
    case OfStart(Start) => s.c.cts in s.chains ==> s.chains[s.c.cts].phase.Settled?
    case OfStop(StopResumes(_)) => s.c.state != Disconnecting
    case _ => true
  }

  /** Every step of the run is enabled. */
  predicate Legal(s: World, acts: seq<Action>)
    decreases |acts|
  {
    acts == [] || (Can(s, acts[0]) && Legal(Do(s, acts[0]), acts[1..]))
  }

  /** Every step of the run is enabled and timely. */
  predicate Proper(s: World, acts: seq<Action>)
    decreases |acts|
  {
    acts == [] || (Can(s, acts[0]) && Timely(s, acts[0]) && Proper(Do(s, acts[0]), acts[1..]))
  }

  function Exec(s: World, acts: seq<Action>): World
    requires Legal(s, acts)
    decreases |acts|
  {
    if acts == [] then s else Exec(Do(s, acts[0]), acts[1..])
  }
}
