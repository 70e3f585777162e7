/** One `websocket_transport`: its receive loops, their tokens, and the interleaved steps of `connect`, `disconnect`
    and `receive_loop`. Loop 0 stands for the token the constructor cancels; the k-th `connect` creates loop k. */
module Transport {
  import opened Frames

  /** How far the continuation of `websocket_client->connect` has come. */
  datatype Dial =
    | Dialing    // the socket is still connecting
    | Opened     // `receive_loop` was entered, `connect_tce` is not set yet
    | Announced  // `connect_tce` is set
    | Refused    // the token is cancelled and `connect_tce` holds an exception

  datatype Phase =
    | Idle        // `receive_loop` has not been entered
    | Receiving   // a `receive()` is pending
    | Processing  // the guarded continuation runs, its frame is not yet handed on
    | Handed      // the frame was handed on, the token is about to be read again
    | Failing     // the observer cancelled the token and is about to call `error`
    | Ended

  /** A receive loop with its token (`live` means not cancelled), the client its pending `receive()` was issued on,
      the frames the server put on that socket and what the loop did with them. */
  datatype Loop = Loop(live: bool, dial: Dial, phase: Phase, client: nat,
                       sent: seq<Frame>, taken: nat, handed: seq<Frame>, errors: nat)

  /** `token` is the loop whose token is in `m_receive_loop_cts`, `client` the one that `m_websocket_client` belongs to;
      `connecting` means that a `connect` holds `m_start_stop_lock` between lines 70 and 93. */
  datatype Wire = Wire(loops: seq<Loop>, token: nat, client: nat, connecting: bool)

  const CONSTRUCTED_LOOP := Loop(false, Refused, Ended, 0, [], 0, [], 0)

  const FRESH_LOOP := Loop(true, Dialing, Idle, 0, [], 0, [], 0)

  const FRESH_WIRE := Wire([CONSTRUCTED_LOOP], 0, 0, false)

  // ---- Steps ----

  datatype Action =
    | Open(n: nat)              // line 78 runs
    | Announce(n: nat)          // line 79
    | Refuse(n: nat)            // lines 81-90: the dial failed, or entering the loop threw
    | Arrive(n: nat, f: Frame)  // the server puts a frame on the socket
    | Take(n: nat)              // `receive()` completed and the continuation starts
    | Hand(n: nat)              // line 167
    | Resume(n: nat)            // lines 169-172
    | Throw(n: nat)             // the continuation leaves with an exception, the observer runs up to `error`
    | Fault(n: nat)             // `receive()` failed, the observer runs up to `error`
    | Quit(n: nat)              // the observer sees that the continuation was cancelled
    | Report(n: nat)            // lines 206-210 or 227-231: the error callback
    | BeginConnect              // lines 49-91
    | EndConnect                // line 93 and the end of the lock
    | Disconnect                // lines 110-120

  predicate Live(w: Wire) {
    w.token < |w.loops| && w.loops[w.token].live
  }

  predicate Can(w: Wire, a: Action) {
    match a
    case BeginConnect => !w.connecting && !Live(w)
    case EndConnect => CanEndConnect(w)
    case Disconnect => CanDisconnect(w)
    case _ => a.n < |w.loops| && CanLoop(w.loops[a.n], a)
  }

  predicate CanEndConnect(w: Wire) {
    w.connecting && w.loops != []
  }

  predicate CanDisconnect(w: Wire) {
    !w.connecting && w.token < |w.loops|
  }

  predicate CanLoop(l: Loop, a: Action) {
    match a
    case Open(_) => l.dial == Dialing
    case Announce(_) => l.dial == Opened
    case Refuse(_) => l.dial == Dialing
    case Arrive(_, _) => true
    case Take(_) => l.phase == Receiving && l.live && l.taken < |l.sent|
    case Hand(_) => l.phase == Processing && 0 < l.taken <= |l.sent|
    case Resume(_) => l.phase == Handed
    case Throw(_) => l.phase == Handed
    case Fault(_) => l.phase == Receiving && l.live
    case Quit(_) => l.phase == Receiving && !l.live
    case Report(_) => l.phase == Failing
    case _ => false
  }

  /** What a step of one loop leaves of that loop, `client` being the current `m_websocket_client`. */
  function DoLoop(l: Loop, client: nat, a: Action): Loop
    requires CanLoop(l, a)
  {
    match a
    case Open(_) => l.(dial := Opened, phase := Receiving, client := client)
    case Announce(_) => l.(dial := Announced)
    case Refuse(_) => l.(live := false, dial := Refused, phase := Ended)
    case Arrive(_, f) => l.(sent := l.sent + [f])
    case Take(_) => l.(phase := Processing, taken := l.taken + 1)
    case Hand(_) => l.(phase := Handed, handed := l.handed + [l.sent[l.taken - 1]])
    case Resume(_) => if l.live then l.(phase := Receiving, client := client) else l.(phase := Ended)
    case Throw(_) => l.(live := false, phase := Failing)
    case Fault(_) => l.(live := false, phase := Failing)
    case Quit(_) => l.(phase := Ended)
    case Report(_) => l.(phase := Ended, errors := l.errors + 1)
  }

  function DoBeginConnect(w: Wire): Wire {
    w.(loops := w.loops + [FRESH_LOOP], client := |w.loops|, connecting := true)
  }

  function DoEndConnect(w: Wire): Wire
    requires CanEndConnect(w)
  {
    w.(token := |w.loops| - 1, connecting := false)
  }

  function DoDisconnect(w: Wire): Wire
    requires CanDisconnect(w)
  {
    w.(loops := w.loops[w.token := w.loops[w.token].(live := false)])
  }

  function Do(w: Wire, a: Action): Wire
    requires Can(w, a)
  {
    match a
    case BeginConnect => DoBeginConnect(w)
    case EndConnect => DoEndConnect(w)
    case Disconnect => DoDisconnect(w)
    case _ => w.(loops := w.loops[a.n := DoLoop(w.loops[a.n], w.client, a)])
  }

  predicate Legal(w: Wire, acts: seq<Action>)
    decreases |acts|
  {
    acts == [] || (Can(w, acts[0]) && Legal(Do(w, acts[0]), acts[1..]))
  }

  /** The transport after a run: any interleaving of the steps above. */
  function Exec(w: Wire, acts: seq<Action>): Wire
    requires Legal(w, acts)
    decreases |acts|
  {
    if acts == [] then w else Exec(Do(w, acts[0]), acts[1..])
  }

  // ---- The invariant ----

  ghost predicate LoopOk(l: Loop) {
    && (l.phase == Idle <==> l.dial == Dialing)
    && (l.dial == Refused ==> !l.live && l.phase == Ended)
    && (l.phase == Failing ==> !l.live && l.errors == 0)
    && (l.phase == Ended ==> !l.live)
    && (l.errors == 0 || (l.errors == 1 && l.phase == Ended))
    && l.taken <= |l.sent|
    && (l.phase == Processing ==> 0 < l.taken)
    && l.handed == l.sent[..if l.phase == Processing then l.taken - 1 else l.taken]
  }

  ghost predicate Inv(w: Wire) {
    && 1 <= |w.loops|
    && w.token == (if w.connecting then |w.loops| - 2 else |w.loops| - 1)
    && w.client == |w.loops| - 1
    && (forall n | 0 <= n < |w.loops| - 1 :: !w.loops[n].live)
    && (forall n | 0 <= n < |w.loops| :: LoopOk(w.loops[n]))
    && (forall n | 0 <= n < |w.loops| ::
          w.loops[n].live && w.loops[n].dial != Dialing ==> w.loops[n].client == n)
  }

  lemma KeepLoopOk(l: Loop, client: nat, a: Action)
    requires LoopOk(l) && CanLoop(l, a)
    ensures LoopOk(DoLoop(l, client, a))
  {
  }

  lemma KeepLoop(w: Wire, n: nat, a: Action)
    requires Inv(w) && n < |w.loops| && CanLoop(w.loops[n], a) && !a.BeginConnect? && !a.EndConnect? && !a.Disconnect?
    ensures Inv(w.(loops := w.loops[n := DoLoop(w.loops[n], w.client, a)]))
  {
    KeepLoopOk(w.loops[n], w.client, a);
    hide LoopOk;
  }

  lemma Keep(w: Wire, a: Action)
    requires Inv(w) && Can(w, a)
    ensures Inv(Do(w, a))
  {
    if !a.BeginConnect? && !a.EndConnect? && !a.Disconnect? {
      KeepLoop(w, a.n, a);
      hide Inv;
    }
  }

  lemma KeepAll(w: Wire)
    requires Inv(w)
    ensures forall a | Can(w, a) :: Inv(Do(w, a))
  {
    forall a | Can(w, a)
      ensures Inv(Do(w, a))
    {
      Keep(w, a);
    }
  }

  lemma {:induction false} Reached(w: Wire, acts: seq<Action>)
    requires Inv(w) && Legal(w, acts)
    ensures Inv(Exec(w, acts))
    decreases |acts|
  {
    if acts != [] {
      hide Inv;
      Keep(w, acts[0]);
      Reached(Do(w, acts[0]), acts[1..]);
    }
  }

  // ---- What every run guarantees ----

  /** At most one receive loop has an uncancelled token, in every reachable state of a transport. */
  lemma OneLiveLoop(acts: seq<Action>, i: nat, j: nat)
    requires Legal(FRESH_WIRE, acts)
    requires i < |Exec(FRESH_WIRE, acts).loops| && j < |Exec(FRESH_WIRE, acts).loops|
    requires Exec(FRESH_WIRE, acts).loops[i].live && Exec(FRESH_WIRE, acts).loops[j].live
    ensures i == j
  {
    Reached(FRESH_WIRE, acts);
  }

  /** Every loop hands the frames of its own socket on in the order sent, each once: what it handed is a prefix of
      what was sent, short of what it took by at most the frame in hand. */
  lemma HandsFramesInOrder(acts: seq<Action>, n: nat)
    requires Legal(FRESH_WIRE, acts) && n < |Exec(FRESH_WIRE, acts).loops|
    ensures var l := Exec(FRESH_WIRE, acts).loops[n];
            && l.handed <= l.sent
            && |l.handed| <= l.taken <= |l.handed| + 1
            && (l.phase != Processing ==> |l.handed| == l.taken)
            && l.errors <= 1
  {
    Reached(FRESH_WIRE, acts);
  }

  /** Once the error callback was fired the loop hands nothing on and fires nothing, however the run goes on. */
  lemma {:induction false} NothingAfterEnded(w: Wire, acts: seq<Action>, n: nat)
    requires Inv(w) && Legal(w, acts)
    requires n < |w.loops| && w.loops[n].phase == Ended
    ensures n < |Exec(w, acts).loops|
    ensures Exec(w, acts).loops[n].phase == Ended
    ensures Exec(w, acts).loops[n].handed == w.loops[n].handed
    ensures Exec(w, acts).loops[n].errors == w.loops[n].errors
    decreases |acts|
  {
    if acts != [] {
      Keep(w, acts[0]);
      NothingAfterEnded(Do(w, acts[0]), acts[1..], n);
    }
  }

  /** A loop whose token was cancelled while a `receive()` is pending fires neither callback again. */
  lemma {:induction false} SilentOnceCancelled(w: Wire, acts: seq<Action>, n: nat)
    requires Inv(w) && Legal(w, acts)
    requires n < |w.loops| && w.loops[n].phase == Receiving && !w.loops[n].live
    ensures n < |Exec(w, acts).loops|
    ensures Exec(w, acts).loops[n].handed == w.loops[n].handed
    ensures Exec(w, acts).loops[n].errors == w.loops[n].errors
    decreases |acts|
  {
    if acts != [] {
      var next := Do(w, acts[0]);
      Keep(w, acts[0]);
      if next.loops[n].phase == Ended {
        NothingAfterEnded(next, acts[1..], n);
      } else {
        SilentOnceCancelled(next, acts[1..], n);
      }
    }
  }

  /** A loop that was cancelled while it handles a frame calls `receive()` no more. */
  lemma {:induction false} NoReceiveOnceCancelled(w: Wire, acts: seq<Action>, n: nat)
    requires Inv(w) && Legal(w, acts)
    requires n < |w.loops| && !w.loops[n].live && w.loops[n].phase != Receiving && w.loops[n].phase != Idle
    ensures n < |Exec(w, acts).loops| && !Exec(w, acts).loops[n].live && Exec(w, acts).loops[n].phase != Receiving
    decreases |acts|
  {
    hide Inv;
    if acts != [] {
      Keep(w, acts[0]);
      StaysCancelled(w, acts[0], n);
      NoReceiveOnceCancelled(Do(w, acts[0]), acts[1..], n);
    }
  }

  lemma StaysCancelled(w: Wire, a: Action, n: nat)
    requires Inv(w) && Can(w, a)
    requires n < |w.loops| && !w.loops[n].live && w.loops[n].phase != Receiving && w.loops[n].phase != Idle
    ensures var t := Do(w, a);
            n < |t.loops| && !t.loops[n].live && t.loops[n].phase != Receiving && t.loops[n].phase != Idle
  {
  }

  /** `disconnect` cancels the one live loop, so that after it no loop takes another frame until the next `connect`,
      and the client it closes is the one that loop receives from. */
  lemma DisconnectStopsAll(w: Wire)
    requires Inv(w) && Can(w, Disconnect)
    ensures var w' := Do(w, Disconnect);
            && (forall n | 0 <= n < |w'.loops| :: !w'.loops[n].live)
            && (forall n | 0 <= n < |w'.loops| :: !Can(w', Take(n)) && !Can(w', Fault(n)))
            && (Live(w) ==> w.client == w.token)
            && (Live(w) && w.loops[w.token].dial != Dialing ==> w.loops[w.token].client == w.client)
  {
  }

  // ---- The view the connection has ----

  predicate Internal(a: Action) {
    !a.Hand? && !a.Report? && !a.BeginConnect? && !a.EndConnect? && !a.Disconnect?
  }

  function Last(w: Wire): Loop
    requires w.loops != []
  {
    w.loops[|w.loops| - 1]
  }

  /** The latest loop is over, and so are all before it. */
  ghost predicate Dead(w: Wire) {
    && w.loops != []
    && Last(w).phase == Ended
    && EarlierEnded(w)
  }

  ghost predicate EarlierEnded(w: Wire) {
    forall n | 0 <= n < |w.loops| - 1 :: w.loops[n].phase == Ended
  }

  predicate IsOpen(w: Wire) {
    w.loops != [] && (Last(w).dial == Opened || Last(w).dial == Announced)
  }

  /** The latest loop was lost: it was entered, its token is cancelled, and it is not about to report that. */
  ghost predicate Gone(w: Wire) {
    IsOpen(w) && !Last(w).live && Last(w).phase != Failing
  }

  /** What a step other than `connect`, `disconnect` and the report leaves of that view. */
  lemma InternalStep(w: Wire, a: Action)
    requires Inv(w) && Can(w, a) && (Internal(a) || a.Hand?)
    requires EarlierEnded(w)
    ensures var w' := Do(w, a);
            && |w'.loops| == |w.loops| && w'.token == w.token && w'.connecting == w.connecting
            && EarlierEnded(w') && (Dead(w) ==> Dead(w'))
            && (IsOpen(w) ==> IsOpen(w'))
            && (Gone(w') ==> Gone(w) || (Last(w).dial == Dialing && !Last(w).live))
            && (Last(w).dial == Refused ==> Last(w').dial == Refused)
            && (Last(w').dial == Dialing ==> Last(w).dial == Dialing && Last(w').live == Last(w).live)
  {
  }
}
