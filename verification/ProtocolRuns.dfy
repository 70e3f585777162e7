/** Runs of the connection protocol: what is reachable, and how runs are put together. */
module ProtocolRuns {
  import opened Protocol
  import opened ProtocolInvariant
  import opened ProtocolKeepTransport
  import opened ProtocolUrls

  lemma {:induction false} ProperIsLegal(s: World, acts: seq<Action>)
    requires Proper(s, acts)
    ensures Legal(s, acts)
    decreases |acts|
  {
    if acts != [] {
      ProperIsLegal(Do(s, acts[0]), acts[1..]);
    }
  }

  lemma {:induction false} KeepRun(s: World, acts: seq<Action>)
    requires Inv(s) && Proper(s, acts)
    ensures Legal(s, acts) && Inv(Exec(s, acts))
    decreases |acts|
  {
    hide Inv;
    ProperIsLegal(s, acts);
    if acts != [] {
      KeepStep(s, acts[0]);
      KeepRun(Do(s, acts[0]), acts[1..]);
    }
  }

  /** The worlds that proper runs of a new connection lead to. */
  ghost predicate Reachable(s: World) {
    exists acts :: Proper(INITIAL, acts) && Legal(INITIAL, acts) && Exec(INITIAL, acts) == s
  }

  lemma {:induction false} KeepUrlsRun(s: World, acts: seq<Action>)
    requires Inv(s) && Urls(s) && Proper(s, acts) && Legal(s, acts)
    ensures Urls(Exec(s, acts))
    decreases |acts|
  {
    hide Inv, Urls;
    if acts != [] {
      KeepStep(s, acts[0]);
      KeepUrls(s, acts[0]);
      KeepUrlsRun(Do(s, acts[0]), acts[1..]);
    }
  }

  lemma ReachableUrls(s: World)
    requires Reachable(s)
    ensures Urls(s)
  {
    hide Inv, Urls;
    var acts :| Proper(INITIAL, acts) && Legal(INITIAL, acts) && Exec(INITIAL, acts) == s;
    Initially();
    InitiallyUrls();
    KeepUrlsRun(INITIAL, acts);
  }

  lemma ReachableInv(s: World)
    requires Reachable(s)
    ensures Inv(s)
  {
    var acts :| Proper(INITIAL, acts) && Legal(INITIAL, acts) && Exec(INITIAL, acts) == s;
    Initially();
    KeepRun(INITIAL, acts);
  }

  lemma Prepend(s: World, a: Action, rest: seq<Action>)
    requires Can(s, a) && Legal(Do(s, a), rest)
    ensures Legal(s, [a] + rest) && Exec(s, [a] + rest) == Exec(Do(s, a), rest)
    ensures Timely(s, a) && Proper(Do(s, a), rest) ==> Proper(s, [a] + rest)
  {
    assert ([a] + rest)[1..] == rest;
  }

  lemma EmptyRun(s: World)
    ensures Legal(s, []) && Proper(s, []) && Exec(s, []) == s
  {
  }

  // ---- Runs that lead from one world to another ----

  lemma {:induction false} Concat(s: World, a: seq<Action>, b: seq<Action>)
    requires Legal(s, a) && Proper(s, a) && Legal(Exec(s, a), b) && Proper(Exec(s, a), b)
    ensures Legal(s, a + b) && Proper(s, a + b) && Exec(s, a + b) == Exec(Exec(s, a), b)
    decreases |a|
  {
    hide Do, Can, Timely;
    if a == [] {
      assert a + b == b;
    } else {
      Concat(Do(s, a[0]), a[1..], b);
      assert (a + b)[1..] == a[1..] + b;
    }
  }

  /** The world `s'` is reached from `s` by a proper run. */
  ghost predicate Leads(s: World, s': World) {
    exists acts :: Legal(s, acts) && Proper(s, acts) && Exec(s, acts) == s'
  }

  lemma LeadsOn(s: World, s': World, s'': World)
    requires Leads(s, s') && Leads(s', s'')
    ensures Leads(s, s'')
  {
    var a :| Legal(s, a) && Proper(s, a) && Exec(s, a) == s';
    var b :| Legal(s', b) && Proper(s', b) && Exec(s', b) == s'';
    Concat(s, a, b);
  }

  lemma LeadsTo(s: World, a: Action)
    requires Can(s, a) && Timely(s, a)
    ensures Leads(s, Do(s, a))
  {
    EmptyRun(Do(s, a));
    Prepend(s, a, []);
    assert [a] + [] == [a];
    assert Legal(s, [a]) && Proper(s, [a]) && Exec(s, [a]) == Do(s, a);
  }

  lemma LeadsItself(s: World)
    ensures Leads(s, s)
  {
    EmptyRun(s);
  }

  /** One more step. */
  lemma Then(s0: World, s: World, a: Action) returns (s': World)
    requires Leads(s0, s) && Can(s, a) && Timely(s, a)
    ensures Leads(s0, s') && s' == Do(s, a)
  {
    hide Leads, Can, Do, Timely;
    LeadsTo(s, a);
    s' := Do(s, a);
    LeadsOn(s0, s, s');
  }

  lemma ThenStart(s0: World, s: World, a: StartStep) returns (s': World)
    requires Leads(s0, s) && CanStartStep(s, a) && Timely(s, OfStart(a))
    ensures Leads(s0, s') && s' == DoStartStep(s, a)
  {
    hide Leads, CanStartStep, DoStartStep, Timely;
    s' := Then(s0, s, OfStart(a));
  }

  lemma ThenTransport(s0: World, s: World, a: TransportStep) returns (s': World)
    requires Leads(s0, s) && CanTransportStep(s, a)
    ensures Leads(s0, s') && s' == DoTransportStep(s, a)
  {
    hide Leads, CanTransportStep, DoTransportStep;
    s' := Then(s0, s, OfTransport(a));
  }

  lemma ThenStop(s0: World, s: World, a: StopStep) returns (s': World)
    requires Leads(s0, s) && CanStopStep(s, a) && Timely(s, OfStop(a))
    ensures Leads(s0, s') && s' == DoStopStep(s, a)
  {
    hide Leads, CanStopStep, DoStopStep, Timely;
    s' := Then(s0, s, OfStop(a));
  }

  lemma ThenReconnect(s0: World, s: World, a: ReconnectStep) returns (s': World)
    requires Leads(s0, s) && CanReconnectStep(s, a) && Timely(s, OfReconnect(a))
    ensures Leads(s0, s') && s' == DoReconnectStep(s, a)
  {
    hide Leads, CanReconnectStep, DoReconnectStep, Timely;
    s' := Then(s0, s, OfReconnect(a));
  }

  lemma InvOn(s: World, s': World)
    requires Inv(s) && Leads(s, s')
    ensures Inv(s')
  {
    hide Inv;
    var acts :| Legal(s, acts) && Proper(s, acts) && Exec(s, acts) == s';
    KeepRun(s, acts);
  }

  lemma ReachableOn(s: World)
    requires Leads(INITIAL, s)
    ensures Reachable(s)
  {
  }
}
