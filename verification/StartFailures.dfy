/** Starts that cannot succeed any more: the first dial was refused, its loop broke down, the timer fired, or a stop
    cancelled the start before its request was sent. */
module StartFailures {
  import opened Protocol
  import opened ProtocolInvariant
  import opened ProtocolRuns
  import opened ProtocolShapes
  import T = Transport

  /** The chain of generation `g` has failed, or the first continuation that looks at it will fail. */
  predicate Doomed(s: World, g: nat) {
    && g <= s.c.cts && g in s.chains
    && match s.chains[g].phase
       case Negotiating => g in s.c.cancelled || s.chains[g].init == Faulted
       case ConnectBegun => g in s.c.cancelled || s.chains[g].init == Faulted
       case AwaitingInit => g in s.c.cancelled || s.chains[g].init == Faulted
       case TransportStored => g in s.c.cancelled
       case Failing => true
       case Unsignalled => true
       case Settled(ok) => !ok
       case _ => false
  }

  /** A step that leaves the phase alone, and an init that is set. */
  lemma DoomKept(s: World, s': World, g: nat)
    requires Doomed(s, g) && s.c.cts <= s'.c.cts && s.c.cancelled <= s'.c.cancelled && g in s'.chains
    requires s'.chains[g].phase == s.chains[g].phase
    requires s.chains[g].init == Faulted ==> s'.chains[g].init == Faulted
    ensures Doomed(s', g)
  {
  }

  lemma DoomInStart(s: World, a: StartStep, g: nat)
    requires Doomed(s, g) && CanStartStep(s, a)
    ensures Doomed(DoStartStep(s, a), g)
  {
    hide T.DoBeginConnect, T.DoEndConnect, T.CanEndConnect;
    if a == Start || a.g != g { OtherChain(s, a, g); } else { OwnChain(s, a); }
    hide CanStartStep, DoStartStep;
  }

  lemma OtherChain(s: World, a: StartStep, g: nat)
    requires Doomed(s, g) && CanStartStep(s, a) && (a == Start || a.g != g)
    ensures Doomed(DoStartStep(s, a), g)
  {
    hide Doomed, T.DoBeginConnect, T.DoEndConnect, T.CanEndConnect;
    StartShape(s, a);
    var s' := DoStartStep(s, a);
    assert g <= s.c.cts && g in s.chains && g in s'.chains && s'.chains[g] == s.chains[g] by { IsEarlier(s, g); }
    assert s.c.cts <= s'.c.cts;
    hide CanStartStep, DoStartStep;
    DoomKept(s, s', g);
  }

  lemma IsEarlier(s: World, g: nat)
    requires Doomed(s, g)
    ensures g <= s.c.cts && g in s.chains
  {
  }

  lemma OwnChain(s: World, a: StartStep)
    requires a != Start && Doomed(s, a.g) && CanStartStep(s, a)
    ensures Doomed(DoStartStep(s, a), a.g)
  {
    hide T.DoBeginConnect, T.DoEndConnect, T.CanEndConnect;
  }

  lemma DoomInTransport(s: World, a: TransportStep, g: nat)
    requires Doomed(s, g) && CanTransportStep(s, a)
    ensures Doomed(DoTransportStep(s, a), g)
  {
    hide T.Do, T.Can, T.CanLoop;
    var s' := DoTransportStep(s, a);
    assert s'.c == s.c.(cursor := s'.c.cursor);
    hide Doomed;
    DoomKept(s, s', g);
  }

  lemma StillDoomed(s: World, a: Action, g: nat)
    requires Doomed(s, g) && Can(s, a)
    ensures Doomed(Do(s, a), g)
  {
    hide CanStartStep, DoStartStep, CanTransportStep, DoTransportStep, CanStopStep, DoStopStep, CanReconnectStep,
      DoReconnectStep;
    match a
    case OfStart(b) => DoomInStart(s, b, g);
    case OfTransport(b) => DoomInTransport(s, b, g);
    case OfStop(b) => StopShape(s, b);
    case OfReconnect(b) => ReconnectShape(s, b);
  }

  /** No run sends the start request of such a start, and none connects it. */
  lemma {:induction false} NeverConnects(s: World, acts: seq<Action>, g: nat)
    requires Legal(s, acts) && Doomed(s, g)
    ensures Doomed(Exec(s, acts), g)
    ensures g in Exec(s, acts).chains
    ensures var phase := Exec(s, acts).chains[g].phase;
            phase != StartRequested && phase != StartAnswered && phase != Announcing && phase != Settled(true)
    decreases |acts|
  {
    if acts != [] {
      hide Do, Can, Doomed;
      StillDoomed(s, acts[0], g);
      NeverConnects(Do(s, acts[0]), acts[1..], g);
    }
  }

  /** Before its init frame a start has sent no request. */
  lemma UnreleasedIsEarly(s: World, g: nat)
    requires Inv(s) && g in s.chains && s.chains[g].init == Unset
    ensures g <= s.c.cts
    ensures match s.chains[g].phase
            case Negotiating => true
            case ConnectBegun => true
            case AwaitingInit => true
            case Failing => true
            case Unsignalled => true
            case Settled(ok) => !ok
            case _ => false
  {
    hide Inv, WireOk, T.Inv;
    PastIs(s);
    CoreIs(s);
  }

  /** The dial of the start is refused, or its loop reports a failure, or its timer fires. */
  predicate Fails(s: World, a: Action, g: nat) {
    || a == OfStart(ConnectRefused(g)) || a == OfStart(TimerFires(g))
    || (a.OfTransport? && a.transport.ReportLoss? && a.transport.g == g && g !in s.c.cancelled)
  }

  lemma FailureDooms(s: World, a: Action, g: nat)
    requires Inv(s) && Can(s, a) && Fails(s, a, g) && g in s.chains && s.chains[g].init == Unset
    ensures var s' := Do(s, a);
            && Doomed(s', g) && g in s'.chains && s'.chains[g].init != Unset
            && (s'.chains[g].phase == AwaitingInit ==>
                  if a == OfStart(TimerFires(g)) && g in s.c.cancelled
                  then CanStoreTransport(s', g) && !CanChainFails(s', g) else CanChainFails(s', g))
  {
    hide Inv, T.Do, T.Can, T.CanLoop;
    UnreleasedIsEarly(s, g);
  }

  /** A start that waits for its init frame fails when its dial is refused, its loop is lost or its timer fires: it waits
      no longer, and no run connects it. After a stop the timer does not fail it but lets it run into its cancellation. */
  lemma FailureEndsStart(s: World, a: Action, g: nat, acts: seq<Action>)
    requires Reachable(s) && Can(s, a) && Fails(s, a, g) && g in s.chains && s.chains[g].init == Unset
    requires Legal(Do(s, a), acts)
    ensures g in Do(s, a).chains && Do(s, a).chains[g].init != Unset
    ensures Do(s, a).chains[g].phase == AwaitingInit ==>
              if a == OfStart(TimerFires(g)) && g in s.c.cancelled
              then CanStoreTransport(Do(s, a), g) && !CanChainFails(Do(s, a), g) else CanChainFails(Do(s, a), g)
    ensures g in Exec(Do(s, a), acts).chains
    ensures var phase := Exec(Do(s, a), acts).chains[g].phase;
            phase != StartRequested && phase != StartAnswered && phase != Announcing && phase != Settled(true)
  {
    hide Inv, Reachable, Can, Do, Fails, Doomed, CanStoreTransport, CanChainFails;
    ReachableInv(s);
    FailureDooms(s, a, g);
    NeverConnects(Do(s, a), acts, g);
  }

  /** A stop before the start request ends the start: whatever it was waiting for, no run connects it. */
  lemma StopEndsStart(s: World, g: nat, acts: seq<Action>)
    requires Reachable(s) && g in s.chains && g in s.c.cancelled && Legal(s, acts)
    requires match s.chains[g].phase
             case Negotiating => true
             case ConnectBegun => true
             case AwaitingInit => true
             case TransportStored => true
             case _ => false
    ensures g in Exec(s, acts).chains
    ensures var phase := Exec(s, acts).chains[g].phase;
            phase != StartRequested && phase != StartAnswered && phase != Announcing && phase != Settled(true)
  {
    hide Inv, Reachable, PastChainOk, T.Inv;
    ReachableInv(s);
    PastIs(s);
    NeverConnects(s, acts, g);
  }
}
