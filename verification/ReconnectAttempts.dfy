/** How often one reconnect connects: its repetitions in the protocol, and the window that bounds them. */
module ReconnectAttempts {
  import opened Protocol
  import opened ProtocolInvariant
  import opened ProtocolShapes
  import T = Transport
  import W = ReconnectWindow

  /** Task `id` is in its attempt phase all along the run. */
  predicate Lasts(s: World, acts: seq<Action>, id: nat)
    requires Legal(s, acts)
    decreases |acts|
  {
    && id in s.tasks && Attempting(s.tasks[id])
    && (acts == [] || Lasts(Do(s, acts[0]), acts[1..], id))
  }

  function Count(acts: seq<Action>, a: Action): nat {
    if acts == [] then 0 else (if acts[0] == a then 1 else 0) + Count(acts[1..], a)
  }

  /** A connect is due before the next repetition. */
  function Due(t: Task): nat {
    if t.Preparing? || t.Trying? then 1 else 0
  }

  lemma DueStep(s: World, a: Action, id: nat)
    requires Can(s, a) && id in s.tasks && Attempting(s.tasks[id])
    requires id in Do(s, a).tasks && Attempting(Do(s, a).tasks[id])
    ensures Due(Do(s, a).tasks[id]) + (if a == OfReconnect(TryConnect(id)) then 1 else 0)
         <= Due(s.tasks[id]) + (if a == OfReconnect(Retry(id)) then 1 else 0)
  {
    hide CanStartStep, DoStartStep, CanTransportStep, DoTransportStep, CanStopStep, DoStopStep;
    hide CanReconnectStep, DoReconnectStep;
    match a
    case OfStart(b) => StartShape(s, b);
    case OfTransport(b) => TransportShape(s, b, id);
    case OfStop(b) => StopShape(s, b);
    case OfReconnect(b) =>
      ReconnectShape(s, b);
      if b.id == id { DueReconnect(s, b); }
  }

  lemma DueReconnect(s: World, a: ReconnectStep)
    requires CanReconnectStep(s, a) && Attempting(s.tasks[a.id])
    requires a.id in DoReconnectStep(s, a).tasks && Attempting(DoReconnectStep(s, a).tasks[a.id])
    ensures Due(DoReconnectStep(s, a).tasks[a.id]) + (if a.TryConnect? then 1 else 0)
         <= Due(s.tasks[a.id]) + (if a.Retry? then 1 else 0)
  {
    hide T.DoBeginConnect, T.DoEndConnect, T.CanEndConnect, T.Live;
    if a.TryConnect? { TryIsDue(s, a.id); }
    hide DoTryConnect;
  }

  lemma TryIsDue(s: World, id: nat)
    requires CanTryConnect(s, id)
    ensures s.tasks[id].Trying?
    ensures id in DoTryConnect(s, id).tasks ==> Due(DoTryConnect(s, id).tasks[id]) == 0
  {
    hide T.DoBeginConnect, T.Live;
  }

  /** Between two connects of an attempt lies a repetition. */
  lemma {:induction false} ConnectsByRetries(s: World, acts: seq<Action>, id: nat)
    requires Legal(s, acts) && Lasts(s, acts, id)
    ensures Count(acts, OfReconnect(TryConnect(id))) <= Due(s.tasks[id]) + Count(acts, OfReconnect(Retry(id)))
    decreases |acts|
  {
    if acts != [] {
      hide Do, Can, Due;
      DueStep(s, acts[0], id);
      ConnectsByRetries(Do(s, acts[0]), acts[1..], id);
    }
  }

  /** The k-th repetition of the run passes the tests of the k-th call of `try_reconnect`. */
  ghost predicate Timed(acts: seq<Action>, id: nat, rounds: W.Rounds, start: int, window: int, delay: int) {
    W.RepeatsFor(rounds, Count(acts, OfReconnect(Retry(id))), start, window, delay)
  }

  lemma RetriesFit(rounds: W.Rounds, n: nat, start: int, window: int, delay: int)
    requires W.Clock(rounds, start, delay) && 0 < delay && 0 <= window && W.RepeatsFor(rounds, n, start, window, delay)
    ensures n <= window / delay
  {
    if n > 0 {
      W.RepetitionsCost(rounds, n - 1, start, window, delay);
      assert W.Repeats(rounds(n - 1), start, window, delay);
      assert n * (delay * W.TICKS) == (n - 1) * (delay * W.TICKS) + delay * W.TICKS;
      W.Quotient(n, window, delay);
    } else {
      assert 0 <= window / delay;
    }
  }

  /** One reconnect makes at most 1 + window / delay connects, however its steps interleave with those of others. */
  lemma ConnectsBounded(s: World, acts: seq<Action>, id: nat, rounds: W.Rounds, start: int, window: int, delay: int)
    requires Legal(s, acts) && Lasts(s, acts, id)
    requires W.Clock(rounds, start, delay) && 0 < delay && 0 <= window && Timed(acts, id, rounds, start, window, delay)
    ensures Count(acts, OfReconnect(TryConnect(id))) <= 1 + window / delay
  {
    ConnectsByRetries(s, acts, id);
    RetriesFit(rounds, Count(acts, OfReconnect(Retry(id))), start, window, delay);
  }
}
