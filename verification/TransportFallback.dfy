/** How one `start` of the JavaScript client settles on a transport: `initialize` tries the transports one after the
    other, and an `InitHandler` lets at most one of them issue the start request. A transport may report init, failure
    or both, at any time and also from within its own `start`; `stop` of the connection ends in a step of its own, so
    that transports may report between its two halves. */
module TransportFallback {
  datatype State = Connecting | Connected | Disconnected

  datatype Request = NotSent | InFlight | Over

  /** One `InitHandler.start`: `timer` tells that its timeout is set, `running` that the transport's `start` has not
      returned. */
  datatype Attempt = Attempt(index: nat, failCalled: bool, timer: bool, running: bool)

  /** The variables of the start, with counts of the start requests and of the calls of `onFallback`. The last attempt
      owns `transportTimeoutHandle`. `stopping` tells that `connection.stop` has changed the state and has not yet
      stopped the handler. */
  datatype Handler = Handler(transports: nat, state: State, attempts: seq<Attempt>, startRequested: bool,
                             startCompleted: bool, connectionStopped: bool, stopping: bool, exhausted: bool,
                             request: Request, requests: nat, fallbacks: nat)

  // ---- Steps ----

  function New(transports: nat): Handler {
    Initialize(Handler(transports, Connecting, [], false, false, false, false, false, NotSent, 0, 0), 0)
  }

  /** `clearTimeout(transportTimeoutHandle)`. */
  function ClearTimer(h: Handler): Handler {
    if h.attempts == [] then h else Update(h, |h.attempts| - 1, h.attempts[|h.attempts| - 1].(timer := false))
  }

  function Update(h: Handler, k: nat, a: Attempt): Handler
    requires k < |h.attempts|
  {
    h.(attempts := h.attempts[k := a])
  }

  /** `connection.stop` up to the stop of the handler (900-930). */
  function BeginStop(h: Handler): Handler {
    if h.state == Disconnected then h else h.(state := Disconnected, stopping := true)
  }

  /** `InitHandler.stop` (1089-1093). */
  function EndStop(h: Handler): Handler {
    ClearTimer(h).(stopping := false, connectionStopped := true, request := if h.request == InFlight then Over else h.request)
  }

  /** `initialize` (553-640). */
  function Initialize(h: Handler, index: nat): Handler {
    if index >= h.transports then BeginStop(h.(exhausted := true))
    else if h.state == Disconnected then h
    else StartTransport(h, index)
  }

  /** `InitHandler.start` (1057-1072). */
  function StartTransport(h: Handler, index: nat): Handler {
    if h.startRequested || h.connectionStopped then h
    else h.(attempts := h.attempts + [Attempt(index, false, true, true)])
  }

  /** `onFallback` (581-583). */
  function Fallback(h: Handler, index: nat): Handler {
    Initialize(h.(fallbacks := h.fallbacks + 1), index)
  }

  /** `transportFailed` (1118-1150). */
  function TransportFailed(h: Handler, index: nat): Handler {
    if h.connectionStopped then h
    else
      var t := ClearTimer(h);
      if !h.startRequested then Fallback(t, index + 1)
      else if !h.startCompleted then BeginStop(t)
      else t
  }

  /** The transport of attempt `k` reports a failure (1076-1082). */
  function Fail(h: Handler, k: nat): Handler
    requires k < |h.attempts|
  {
    var a := h.attempts[k];
    if a.failCalled then h else TransportFailed(Update(h, k, a.(failCalled := true)), a.index)
  }

  /** The timeout of attempt `k` expires (1064-1070). */
  function Timeout(h: Handler, k: nat): Handler
    requires k < |h.attempts|
  {
    Fail(Update(h, k, h.attempts[k].(timer := false)), k)
  }

  /** The transport of attempt `k` reports init (1072-1075, 1095-1112). */
  function Init(h: Handler, k: nat): Handler
    requires k < |h.attempts|
  {
    if h.attempts[k].failCalled || h.startRequested || h.connectionStopped then h
    else ClearTimer(h).(startRequested := true, request := InFlight, requests := h.requests + 1)
  }

  /** The start request succeeds (1112-1115, 588-634). */
  function RequestSucceeds(h: Handler): Handler {
    h.(request := Over, startCompleted := true, state := if h.state == Connecting then Connected else h.state)
  }

  /** The start request fails, and `ajaxStart` stops the connection (1421-1472). */
  function RequestFails(h: Handler): Handler {
    BeginStop(h.(request := Over))
  }

  /** The `start` of the transport of attempt `k` throws (636-639). */
  function Throw(h: Handler, k: nat): Handler
    requires k < |h.attempts|
  {
    Fallback(Update(h, k, h.attempts[k].(running := false)), h.attempts[k].index + 1)
  }

  datatype Action =
    | DoFail(k: nat)
    | DoTimeout(k: nat)
    | DoInit(k: nat)
    | DoReturn(k: nat)
    | DoThrow(k: nat)
    | DoRequestSucceeds
    | DoRequestFails
    | DoBeginStop
    | DoEndStop

  predicate Can(h: Handler, a: Action) {
    match a
    case DoFail(k) => k < |h.attempts|
    case DoTimeout(k) => k < |h.attempts| && h.attempts[k].timer
    case DoInit(k) => k < |h.attempts|
    case DoReturn(k) => k < |h.attempts| && h.attempts[k].running
    case DoThrow(k) => k < |h.attempts| && h.attempts[k].running
    case DoRequestSucceeds => h.request == InFlight
    case DoRequestFails => h.request == InFlight
    case DoBeginStop => true
    case DoEndStop => h.stopping
  }

  function Do(h: Handler, a: Action): Handler
    requires Can(h, a)
  {
    match a
    case DoFail(k) => Fail(h, k)
    case DoTimeout(k) => Timeout(h, k)
    case DoInit(k) => Init(h, k)
    case DoReturn(k) => Update(h, k, h.attempts[k].(running := false))
    case DoThrow(k) => Throw(h, k)
    case DoRequestSucceeds => RequestSucceeds(h)
    case DoRequestFails => RequestFails(h)
    case DoBeginStop => BeginStop(h)
    case DoEndStop => EndStop(h)
  }

  predicate Legal(h: Handler, acts: seq<Action>)
    decreases |acts|
  {
    acts == [] || (Can(h, acts[0]) && Legal(Do(h, acts[0]), acts[1..]))
  }

  function Exec(h: Handler, acts: seq<Action>): Handler
    requires Legal(h, acts)
    decreases |acts|
  {
    if acts == [] then h else Exec(Do(h, acts[0]), acts[1..])
  }

  predicate NoThrow(acts: seq<Action>) {
    forall i | 0 <= i < |acts| :: !acts[i].DoThrow?
  }

  // ---- The invariant ----

  /** The transports were tried in order, each once. */
  predicate InOrder(h: Handler) {
    forall j | 0 <= j < |h.attempts| :: h.attempts[j].index == j
  }

  /** An attempt gave way to the next one only by failing, and its timeout is off. */
  predicate OlderFailed(h: Handler) {
    forall j | 0 <= j < |h.attempts| - 1 :: h.attempts[j].failCalled && !h.attempts[j].timer
  }

  /** The last attempt has not failed, and its timeout is set. */
  predicate LastLive(h: Handler) {
    h.attempts != [] && !h.attempts[|h.attempts| - 1].failCalled && h.attempts[|h.attempts| - 1].timer
  }

  ghost predicate Counts(h: Handler) {
    && h.requests == (if h.startRequested then 1 else 0)
    && (h.request == NotSent <==> !h.startRequested)
    && (h.startCompleted ==> h.startRequested && h.request == Over)
    && (h.stopping || h.connectionStopped || h.exhausted ==> h.state == Disconnected)
    && (h.state == Disconnected ==> h.stopping || h.connectionStopped)
  }

  ghost predicate Books(h: Handler) {
    && Counts(h) && InOrder(h) && OlderFailed(h) && |h.attempts| <= h.transports
    && (h.state == Connecting && !h.startRequested ==> |h.attempts| == h.fallbacks + 1)
    && (h.state == Connecting && h.startRequested ==> h.request == InFlight)
    && (h.state == Connected ==> h.startCompleted)
    && (h.exhausted ==> !h.startRequested && |h.attempts| == h.transports && AllFailed(h))
  }

  predicate AllFailed(h: Handler) {
    forall j | 0 <= j < |h.attempts| :: h.attempts[j].failCalled && !h.attempts[j].timer
  }

  /** The last attempt has not failed. */
  predicate LastUnfailed(h: Handler) {
    h.attempts != [] && !h.attempts[|h.attempts| - 1].failCalled
  }

  ghost predicate Inv(h: Handler) {
    && Books(h)
    && (h.state == Connecting ==> LastUnfailed(h))
    && (h.state == Connecting && !h.startRequested ==> LastLive(h))
  }

  lemma NewKept(transports: nat)
    ensures Inv(New(transports))
  {
  }

  /** All attempts so far have failed. */
  lemma FallbackKept(h: Handler, index: nat)
    requires Books(h) && !h.startRequested && !h.connectionStopped && index == |h.attempts|
    requires AllFailed(h)
    ensures Inv(Fallback(h, index))
  {
  }

  lemma KeepLastFail(h: Handler, k: nat)
    requires Books(h) && k == |h.attempts| - 1 && !h.attempts[k].failCalled
    ensures Inv(Fail(h, k))
  {
    var t := Update(h, k, h.attempts[k].(failCalled := true));
    var c := ClearTimer(t);
    assert c.attempts == h.attempts[k := h.attempts[k].(failCalled := true, timer := false)];
    if !h.connectionStopped && !h.startRequested {
      assert Books(c);
      FallbackKept(c, k + 1);
    }
  }

  lemma KeepFail(h: Handler, k: nat)
    requires Inv(h) && k < |h.attempts|
    ensures Inv(Fail(h, k))
  {
    if !h.attempts[k].failCalled { KeepLastFail(h, k); }
  }

  lemma KeepTimeout(h: Handler, k: nat)
    requires Inv(h) && k < |h.attempts| && h.attempts[k].timer
    ensures Inv(Timeout(h, k))
  {
    var t := Update(h, k, h.attempts[k].(timer := false));
    assert Books(t);
    if !h.attempts[k].failCalled { KeepLastFail(t, k); }
  }

  lemma KeepInit(h: Handler, k: nat)
    requires Inv(h) && k < |h.attempts|
    ensures Inv(Init(h, k))
  {
  }

  lemma Keep(h: Handler, a: Action)
    requires Inv(h) && Can(h, a) && !a.DoThrow?
    ensures Inv(Do(h, a))
  {
    match a
    case DoFail(k) => KeepFail(h, k);
    case DoTimeout(k) => KeepTimeout(h, k);
    case DoInit(k) => KeepInit(h, k);
    case _ =>
  }

  lemma {:induction false} KeepRun(h: Handler, acts: seq<Action>)
    requires Inv(h) && Legal(h, acts) && NoThrow(acts)
    ensures Inv(Exec(h, acts))
    decreases |acts|
  {
    hide Inv;
    if acts != [] {
      Keep(h, acts[0]);
      KeepRun(Do(h, acts[0]), acts[1..]);
    }
  }

  // ---- What every run guarantees ----

  /** What every step keeps, also when transports throw. */
  predicate Grown(h: Handler, t: Handler) {
    && t.transports == h.transports
    && |h.attempts| <= |t.attempts| && (forall j | 0 <= j < |h.attempts| :: h.attempts[j].index == t.attempts[j].index)
    && t.requests - h.requests == (if t.startRequested then 1 else 0) - (if h.startRequested then 1 else 0)
    && (h.startRequested ==> t.startRequested && |t.attempts| == |h.attempts|)
  }

  lemma UpdateGrown(h: Handler, k: nat, a: Attempt)
    requires k < |h.attempts| && a.index == h.attempts[k].index
    ensures Grown(h, Update(h, k, a))
  {
  }

  lemma ClearGrown(h: Handler)
    ensures Grown(h, ClearTimer(h)) && |ClearTimer(h).attempts| == |h.attempts|
  {
  }

  lemma FallbackGrown(h: Handler, index: nat)
    ensures Grown(h, Fallback(h, index))
  {
  }

  lemma GrownTwice(h: Handler, t: Handler, u: Handler)
    requires Grown(h, t) && Grown(t, u)
    ensures Grown(h, u)
  {
  }

  lemma FailGrown(h: Handler, k: nat)
    requires k < |h.attempts|
    ensures Grown(h, Fail(h, k)) && (h.startRequested ==> Fail(h, k).fallbacks == h.fallbacks)
  {
    var t := Update(h, k, h.attempts[k].(failCalled := true));
    UpdateGrown(h, k, t.attempts[k]);
    ClearGrown(t);
    FallbackGrown(ClearTimer(t), h.attempts[k].index + 1);
  }

  lemma TimeoutGrown(h: Handler, k: nat)
    requires k < |h.attempts|
    ensures Grown(h, Timeout(h, k)) && (h.startRequested ==> Timeout(h, k).fallbacks == h.fallbacks)
  {
    hide Fail, Grown;
    var t := Update(h, k, h.attempts[k].(timer := false));
    UpdateGrown(h, k, t.attempts[k]);
    FailGrown(t, k);
    GrownTwice(h, t, Fail(t, k));
  }

  lemma ThrowGrown(h: Handler, k: nat)
    requires k < |h.attempts|
    ensures Grown(h, Throw(h, k))
  {
    hide Fallback, Grown;
    var t := Update(h, k, h.attempts[k].(running := false));
    UpdateGrown(h, k, t.attempts[k]);
    FallbackGrown(t, h.attempts[k].index + 1);
    GrownTwice(h, t, Throw(h, k));
  }

  lemma StepGrown(h: Handler, a: Action)
    requires Can(h, a)
    ensures Grown(h, Do(h, a)) && (h.startRequested && !a.DoThrow? ==> Do(h, a).fallbacks == h.fallbacks)
  {
    hide Fail, Timeout, Throw;
    match a
    case DoFail(k) => FailGrown(h, k);
    case DoTimeout(k) => TimeoutGrown(h, k);
    case DoThrow(k) => ThrowGrown(h, k);
    case DoEndStop => ClearGrown(h);
    case DoInit(_) => ClearGrown(h);
    case DoReturn(k) => UpdateGrown(h, k, h.attempts[k].(running := false));
    case DoRequestSucceeds =>
    case DoRequestFails =>
    case DoBeginStop =>
  }

  lemma {:induction false} RunGrown(h: Handler, acts: seq<Action>)
    requires Legal(h, acts)
    ensures Grown(h, Exec(h, acts))
    decreases |acts|
  {
    hide Do, Can;
    if acts != [] {
      StepGrown(h, acts[0]);
      RunGrown(Do(h, acts[0]), acts[1..]);
    }
  }

  /** As long as no transport throws, the transports are tried in the order they are given, each at most once, and the
      start ends with "no transport" only after every one of them failed. */
  lemma TriedInOrder(transports: nat, acts: seq<Action>)
    requires Legal(New(transports), acts) && NoThrow(acts)
    ensures var h := Exec(New(transports), acts);
            && |h.attempts| <= transports
            && (forall j | 0 <= j < |h.attempts| :: h.attempts[j].index == j)
            && (h.exhausted ==> |h.attempts| == transports && forall j | 0 <= j < |h.attempts| :: h.attempts[j].failCalled)
  {
    NewKept(transports);
    KeepRun(New(transports), acts);
    RunGrown(New(transports), acts);
  }

  /** A start that is still connecting never hangs: it has a start request under way, or its last attempt has not failed
      and has a timeout. Each failure so far led to the next transport. */
  lemma NeverHangs(transports: nat, acts: seq<Action>)
    requires Legal(New(transports), acts) && NoThrow(acts)
    requires Exec(New(transports), acts).state == Connecting
    ensures var h := Exec(New(transports), acts);
            if h.startRequested then h.request == InFlight
            else LastLive(h) && |h.attempts| == h.fallbacks + 1
  {
    NewKept(transports);
    KeepRun(New(transports), acts);
  }

  /** When the last attempt of a connecting start fails before the start request, the next transport is started, or the
      connection is stopped if there is none. */
  lemma FailureFallsBack(transports: nat, acts: seq<Action>)
    requires Legal(New(transports), acts) && NoThrow(acts)
    requires Exec(New(transports), acts).state == Connecting && !Exec(New(transports), acts).startRequested
    ensures var h := Exec(New(transports), acts);
            && h.attempts != []
            && var t := Fail(h, |h.attempts| - 1);
               if |h.attempts| < transports then
                 |t.attempts| == |h.attempts| + 1 && t.state == Connecting && LastLive(t) && !t.exhausted
               else
                 |t.attempts| == |h.attempts| && t.state == Disconnected && t.exhausted
    ensures var h := Exec(New(transports), acts);
            && Can(h, DoTimeout(|h.attempts| - 1))
            && Timeout(h, |h.attempts| - 1) == Fail(h, |h.attempts| - 1)
  {
    NewKept(transports);
    KeepRun(New(transports), acts);
    RunGrown(New(transports), acts);
    hide Legal, Exec;
    TimeoutIsFailure(Exec(New(transports), acts));
  }

  /** The timeout of a live last attempt does what its failure does. */
  lemma TimeoutIsFailure(h: Handler)
    requires LastLive(h) && !h.connectionStopped
    ensures Timeout(h, |h.attempts| - 1) == Fail(h, |h.attempts| - 1)
  {
    hide TransportFailed, ClearTimer;
    var k := |h.attempts| - 1;
    var a := h.attempts[k];
    var t, u := Update(h, k, a.(failCalled := true)), Update(h, k, a.(timer := false, failCalled := true));
    assert h.attempts[k := a.(timer := false)][k := a.(timer := false, failCalled := true)] == u.attempts;
    ClearedAlike(h, k, a.(failCalled := true));
    FailedAlike(t, u, a.index);
  }

  lemma ClearedAlike(h: Handler, k: nat, a: Attempt)
    requires k + 1 == |h.attempts|
    ensures ClearTimer(Update(h, k, a)) == ClearTimer(Update(h, k, a.(timer := false)))
  {
    assert h.attempts[k := a][k := a.(timer := false)] == h.attempts[k := a.(timer := false)];
  }

  lemma FailedAlike(h: Handler, t: Handler, index: nat)
    requires ClearTimer(h) == ClearTimer(t) && !h.connectionStopped && !t.connectionStopped
    requires h.startRequested == t.startRequested && h.startCompleted == t.startCompleted
    ensures TransportFailed(h, index) == TransportFailed(t, index)
  {
    hide Fallback, BeginStop, ClearTimer;
  }

  /** A connecting start stands on a transport that has not failed, before its start request and while it is in flight. */
  lemma ConnectingIsUnfailed(transports: nat, acts: seq<Action>)
    requires Legal(New(transports), acts) && NoThrow(acts)
    requires Exec(New(transports), acts).state == Connecting
    ensures var h := Exec(New(transports), acts);
            h.attempts != [] && !h.attempts[|h.attempts| - 1].failCalled
  {
    NewKept(transports);
    KeepRun(New(transports), acts);
  }

  // ---- How a start ends ----

  /** Both are stopped, with as many attempts. */
  predicate StaysStopped(h: Handler, t: Handler) {
    h.state == Disconnected ==> t.state == Disconnected && |t.attempts| == |h.attempts|
  }

  lemma StoppedFallsNowhere(h: Handler, index: nat)
    ensures StaysStopped(h, Fallback(h, index))
  {
  }

  lemma StoppedFails(h: Handler, index: nat)
    ensures StaysStopped(h, TransportFailed(h, index))
  {
    hide Fallback;
    StoppedFallsNowhere(ClearTimer(h), index + 1);
  }

  lemma DisconnectedStep(h: Handler, a: Action)
    requires Can(h, a)
    ensures StaysStopped(h, Do(h, a))
  {
    hide TransportFailed, Fallback;
    match a
    case DoFail(k) => StoppedFails(Update(h, k, h.attempts[k].(failCalled := true)), h.attempts[k].index);
    case DoTimeout(k) =>
      var a := h.attempts[k].(timer := false);
      var t := Update(h, k, a);
      StoppedFails(Update(t, k, a.(failCalled := true)), a.index);
    case DoThrow(k) => StoppedFallsNowhere(Update(h, k, h.attempts[k].(running := false)), h.attempts[k].index + 1);
    case _ =>
  }

  /** A stopped connection stays disconnected and starts no other transport, whatever the transports report. */
  lemma {:induction false} DisconnectedForGood(h: Handler, acts: seq<Action>)
    requires Legal(h, acts) && h.state == Disconnected
    ensures Exec(h, acts).state == Disconnected && |Exec(h, acts).attempts| == |h.attempts|
    decreases |acts|
  {
    hide Do, Can;
    if acts != [] {
      DisconnectedStep(h, acts[0]);
      DisconnectedForGood(Do(h, acts[0]), acts[1..]);
    }
  }

  lemma SilentStep(h: Handler, a: Action)
    requires Can(h, a) && h.connectionStopped && !a.DoThrow?
    ensures var t := Do(h, a);
            && t.connectionStopped && t.fallbacks == h.fallbacks && t.exhausted == h.exhausted
            && t.requests == h.requests && |t.attempts| == |h.attempts|
  {
    hide TransportFailed;
    match a
    case DoFail(k) => StoppedIgnores(Update(h, k, h.attempts[k].(failCalled := true)), h.attempts[k].index);
    case DoTimeout(k) =>
      var a := h.attempts[k].(timer := false);
      StoppedIgnores(Update(Update(h, k, a), k, a.(failCalled := true)), a.index);
    case _ =>
  }

  lemma StoppedIgnores(h: Handler, index: nat)
    requires h.connectionStopped
    ensures TransportFailed(h, index) == h
  {
  }

  /** Once the handler is stopped nothing falls back, no start request is issued and "no transport" is not reported,
      whatever the transports and timeouts that are left do. */
  lemma {:induction false} SilentOnceStopped(h: Handler, acts: seq<Action>)
    requires Legal(h, acts) && h.connectionStopped && NoThrow(acts)
    ensures var t := Exec(h, acts);
            && t.fallbacks == h.fallbacks && t.exhausted == h.exhausted
            && t.requests == h.requests && |t.attempts| == |h.attempts|
    decreases |acts|
  {
    if acts != [] {
      hide Do, Can;
      assert !acts[0].DoThrow? && NoThrow(acts[1..]);
      SilentStep(h, acts[0]);
      SilentOnceStopped(Do(h, acts[0]), acts[1..]);
    }
  }

  /** The stop of the connection ends with the handler stopped. */
  lemma StopEndsSilent(h: Handler, acts: seq<Action>)
    requires Can(h, DoEndStop) && Legal(Do(h, DoEndStop), acts) && NoThrow(acts)
    ensures var t, u := Do(h, DoEndStop), Exec(Do(h, DoEndStop), acts);
            u.requests == h.requests && u.fallbacks == h.fallbacks && |u.attempts| == |h.attempts|
            && t.request != InFlight
  {
    SilentOnceStopped(Do(h, DoEndStop), acts);
  }

  /** A transport that fails while the start request is in flight stops the connection: no continuation connects. */
  lemma FailureDuringStart(h: Handler, k: nat, acts: seq<Action>)
    requires k < |h.attempts| && !h.attempts[k].failCalled
    requires h.startRequested && !h.startCompleted && !h.connectionStopped
    requires Legal(Do(h, DoFail(k)), acts)
    ensures Exec(Do(h, DoFail(k)), acts).state == Disconnected
  {
    DisconnectedForGood(Do(h, DoFail(k)), acts);
  }

  /** So does a start request that fails. */
  lemma FailedRequest(h: Handler, acts: seq<Action>)
    requires Can(h, DoRequestFails) && Legal(Do(h, DoRequestFails), acts)
    ensures Exec(Do(h, DoRequestFails), acts).state == Disconnected
  {
    DisconnectedForGood(Do(h, DoRequestFails), acts);
  }

  /** And so does the user. */
  lemma StoppedByUser(h: Handler, acts: seq<Action>)
    requires Legal(Do(h, DoBeginStop), acts)
    ensures Exec(Do(h, DoBeginStop), acts).state == Disconnected
  {
    DisconnectedForGood(Do(h, DoBeginStop), acts);
  }

  /** A start that is still connecting can connect: its last attempt has only to report init, unless it has, and the
      start request to succeed. */
  lemma CanConnect(transports: nat, acts: seq<Action>)
    requires Legal(New(transports), acts) && NoThrow(acts)
    requires Exec(New(transports), acts).state == Connecting
    ensures var h := Exec(New(transports), acts);
            && h.attempts != []
            && var t := if h.startRequested then h else Do(h, DoInit(|h.attempts| - 1));
               && Can(t, DoRequestSucceeds) && t.state == Connecting
               && Do(t, DoRequestSucceeds).state == Connected && Do(t, DoRequestSucceeds).startCompleted
               && forall j | 0 <= j < |t.attempts| - 1 :: !t.attempts[j].timer
  {
    NewKept(transports);
    KeepRun(New(transports), acts);
    hide Legal, Exec;
  }

  /** A connection is connected only if its start request succeeded, which no failure after it undoes. */
  lemma ConnectedBySuccess(transports: nat, acts: seq<Action>, k: nat)
    requires Legal(New(transports), acts) && NoThrow(acts)
    requires Exec(New(transports), acts).state == Connected
    ensures var h := Exec(New(transports), acts);
            && h.startCompleted && h.requests == 1 && h.request == Over
            && (k < |h.attempts| ==> Fail(h, k).state == Connected)
  {
    NewKept(transports);
    KeepRun(New(transports), acts);
    hide Legal, Exec;
  }

  /** At most one start request is ever issued, even if transports throw. */
  lemma OneStartRequest(transports: nat, acts: seq<Action>)
    requires Legal(New(transports), acts)
    ensures Exec(New(transports), acts).requests <= 1
  {
    RunGrown(New(transports), acts);
  }

  /** Once the start request is issued no other transport is started, even if one throws; and if none throws, nothing
      falls back any more. */
  lemma {:induction false} NoFallbackAfterRequest(h: Handler, acts: seq<Action>)
    requires Legal(h, acts) && h.startRequested
    ensures Exec(h, acts).startRequested && |Exec(h, acts).attempts| == |h.attempts|
    ensures NoThrow(acts) ==> Exec(h, acts).fallbacks == h.fallbacks
    decreases |acts|
  {
    if acts != [] {
      StepGrown(h, acts[0]);
      hide Do, Can;
      assert NoThrow(acts) ==> !acts[0].DoThrow? && NoThrow(acts[1..]);
      NoFallbackAfterRequest(Do(h, acts[0]), acts[1..]);
    }
  }

  // ---- Transports that throw ----

  /** The attempt whose failure, timeout or exception calls `onFallback` in this step, if it does. */
  predicate FallsBackFrom(h: Handler, a: Action, k: nat)
    requires Can(h, a)
  {
    match a
    case DoThrow(j) => j == k
    case DoFail(j) => j == k && !h.attempts[k].failCalled
    case DoTimeout(j) => j == k && !h.attempts[k].failCalled
    case _ => false
  }

  /** The step starts a transport again: an attempt that is not the last one falls back. */
  predicate Repeats(h: Handler, a: Action)
    requires Can(h, a)
  {
    && h.state != Disconnected && !h.startRequested && !h.connectionStopped
    && exists k: nat :: k + 1 < |h.attempts| && k + 1 < h.transports && FallsBackFrom(h, a, k)
  }

  predicate RepeatsIn(h: Handler, acts: seq<Action>)
    requires Legal(h, acts)
    decreases |acts|
  {
    acts != [] && (Repeats(h, acts[0]) || RepeatsIn(Do(h, acts[0]), acts[1..]))
  }

  lemma StepInOrderIff(h: Handler, a: Action)
    requires InOrder(h) && Can(h, a)
    ensures InOrder(Do(h, a)) <==> !Repeats(h, a)
  {
    match a
    case DoThrow(k) =>
      FallbackInOrderIff(Update(h, k, h.attempts[k].(running := false)), k);
      assert FallsBackFrom(h, a, k);
    case DoFail(k) =>
      FailInOrderIff(h, k);
      assert FallsBackFrom(h, a, k) == !h.attempts[k].failCalled;
    case DoTimeout(k) =>
      FailInOrderIff(Update(h, k, h.attempts[k].(timer := false)), k);
      assert FallsBackFrom(h, a, k) == !h.attempts[k].failCalled;
    case _ =>
  }

  lemma FallbackInOrderIff(h: Handler, k: nat)
    requires InOrder(h) && k < |h.attempts|
    ensures var t := Fallback(h, k + 1);
            InOrder(t) <==> h.state == Disconnected || h.startRequested || h.connectionStopped
                            || k + 1 >= h.transports || k + 1 == |h.attempts|
  {
    var t := Fallback(h, k + 1);
    if |t.attempts| > |h.attempts| {
      assert t.attempts[|h.attempts|].index == k + 1;
    }
  }

  lemma FailInOrderIff(h: Handler, k: nat)
    requires InOrder(h) && k < |h.attempts|
    ensures InOrder(Fail(h, k)) <==> h.attempts[k].failCalled || h.state == Disconnected || h.startRequested
                                     || h.connectionStopped || k + 1 >= h.transports || k + 1 == |h.attempts|
  {
    if !h.attempts[k].failCalled && !h.connectionStopped && !h.startRequested {
      FallbackInOrderIff(ClearTimer(Update(h, k, h.attempts[k].(failCalled := true))), k);
    }
  }

  lemma OutOfOrderStays(h: Handler, t: Handler)
    requires Grown(h, t)
    ensures InOrder(t) ==> InOrder(h)
  {
  }

  lemma {:induction false} ExecInOrderIff(h: Handler, acts: seq<Action>)
    requires InOrder(h) && Legal(h, acts)
    ensures InOrder(Exec(h, acts)) <==> !RepeatsIn(h, acts)
    decreases |acts|
  {
    hide Do, Can, Repeats, InOrder;
    if acts != [] {
      var t := Do(h, acts[0]);
      StepInOrderIff(h, acts[0]);
      if Repeats(h, acts[0]) {
        RunGrown(t, acts[1..]);
        OutOfOrderStays(t, Exec(t, acts[1..]));
      } else {
        ExecInOrderIff(t, acts[1..]);
      }
    }
  }

  /** Transports may throw: they are tried in order, each at most once, exactly if no step of the run falls back from
      an attempt that is not the last one while another transport can be started. */
  lemma InOrderIff(transports: nat, acts: seq<Action>)
    requires Legal(New(transports), acts)
    ensures InOrder(Exec(New(transports), acts)) <==> !RepeatsIn(New(transports), acts)
  {
    ExecInOrderIff(New(transports), acts);
  }

  /** It does happen: the first transport throws, which leaves its timeout set, and when that expires the second one is
      started again. */
  lemma ThrowRepeats()
    ensures var acts := [DoThrow(0), DoTimeout(0)];
            && Legal(New(2), acts)
            && |Exec(New(2), acts).attempts| == 3
            && Exec(New(2), acts).attempts[1].index == Exec(New(2), acts).attempts[2].index == 1
  {
    var acts := [DoThrow(0), DoTimeout(0)];
    var h1 := Do(New(2), acts[0]);
    assert acts[1..] == [DoTimeout(0)] && acts[1..][1..] == [];
    assert h1.attempts == [Attempt(0, false, true, false), Attempt(1, false, true, true)];
    var h2 := Do(h1, acts[1]);
    assert Exec(h1, acts[1..]) == Exec(h2, []) == h2;
  }
}
