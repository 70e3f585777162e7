/** Pieces of runs: a start that dials, receives its init frame and connects, a start that fails, a stop up to the use of
    the transport. Each is a proper run and leaves alone what belongs to others. */
module ProtocolScenarios {
  import opened Wrappers
  import opened Frames
  import opened Protocol
  import opened ProtocolRuns
  import T = Transport

  /** What a run of generation `g` leaves alone. */
  ghost predicate Apart(s: World, s': World, g: nat) {
    && s'.tasks == s.tasks && s'.c.cancelled == s.c.cancelled && s'.c.lock == s.c.lock
    && (forall h | h in s.chains && h != g :: h in s'.chains && s'.chains[h] == s.chains[h])
    && (forall h | h in s'.chains && h != g :: h in s.chains)
    && (forall h | h in s.wires && h != g :: h in s'.wires && s'.wires[h] == s.wires[h])
  }

  const OPEN_LOOP := T.DoLoop(T.FRESH_LOOP, 1, T.Open(1))

  /** Generation `g` has dialled, its loop runs at `l`, and its start waits for the init frame. */
  ghost predicate Looping(s: World, g: nat, l: T.Loop) {
    && s.c.lock == None && g !in s.c.cancelled && s.c.cts == g && s.c.state == Connecting && s.c.transport == None
    && !s.c.event && g in s.chains && s.chains[g] == Chain(AwaitingInit, Unset, true)
    && g in s.wires && s.wires[g] == T.Wire([T.CONSTRUCTED_LOOP, l], 1, 1, false)
  }

  /** A new generation may be started. */
  ghost predicate Startable(s: World) {
    && s.c.lock == None && s.c.state == Disconnected && s.c.transport == None && s.c.cts + 1 !in s.c.cancelled
    && (s.c.cts in s.chains ==> s.chains[s.c.cts].phase.Settled?)
  }

  lemma Dials(s: World) returns (s': World)
    requires Startable(s)
    ensures Leads(s, s') && Looping(s', s.c.cts + 1, OPEN_LOOP) && Apart(s, s', s.c.cts + 1)
    ensures s'.seen == [] && s'.c.cursor == EMPTY_CURSOR
  {
    hide Leads, CanStartStep, DoStartStep;
    var s1 := StartsDialling(s);
    s' := LoopOpens(s1, s.c.cts + 1);
    LeadsOn(s, s1, s');
  }

  lemma StartsDialling(s: World) returns (s': World)
    requires Startable(s)
    ensures Leads(s, s') && Looping(s', s.c.cts + 1, T.FRESH_LOOP) && Apart(s, s', s.c.cts + 1)
    ensures s'.seen == [] && s'.c.cursor == EMPTY_CURSOR
  {
    hide Leads;
    LeadsItself(s);
    var s1 := ThenStart(s, s, Start);
    hide CanStartStep, DoStartStep;
    s' := Negotiates(s1, s.c.cts + 1);
    LeadsOn(s, s1, s');
  }

  lemma Negotiates(s: World, g: nat) returns (s': World)
    requires g in s.chains && s.chains[g] == Chain(Negotiating, Unset, false) && g !in s.c.cancelled
    ensures Leads(s, s')
    ensures s' == s.(c := s.c.(token := Some(g)), chains := s.chains[g := Chain(AwaitingInit, Unset, true)],
                     wires := s.wires[g := T.Wire([T.CONSTRUCTED_LOOP, T.FRESH_LOOP], 1, 1, false)])
  {
    hide Leads;
    LeadsItself(s);
    s' := ThenStart(s, s, Negotiated(g));
    s' := ThenStart(s, s', ConnectReturns(g));
    assert s'.wires[g] == T.Wire([T.CONSTRUCTED_LOOP, T.FRESH_LOOP], 1, 1, false);
    assert s'.chains == s.chains[g := Chain(AwaitingInit, Unset, true)];
    assert s'.wires == s.wires[g := s'.wires[g]];
  }

  lemma LoopOpens(s: World, g: nat) returns (s': World)
    requires Looping(s, g, T.FRESH_LOOP)
    ensures Leads(s, s') && Looping(s', g, OPEN_LOOP) && s' == s.(wires := s.wires[g := s'.wires[g]])
  {
    hide Leads;
    LeadsItself(s);
    s' := ThenTransport(s, s, WireStep(g, T.Open(1)));
    assert s'.wires[g].loops == [T.CONSTRUCTED_LOOP, OPEN_LOOP];
  }

  /** The loop of a start takes a frame. */
  lemma TakesFrame(s: World, g: nat, f: Frame) returns (s': World)
    requires Looping(s, g, OPEN_LOOP)
    ensures Leads(s, s') && Apart(s, s', g) && s'.seen == s.seen && s'.c == s.c
    ensures Looping(s', g, OPEN_LOOP.(sent := [f], taken := 1, phase := T.Processing))
  {
    hide Leads;
    LeadsItself(s);
    s' := ThenTransport(s, s, WireStep(g, T.Arrive(1, f)));
    assert [] + [f] == [f] && s'.wires[g].loops == [T.CONSTRUCTED_LOOP, OPEN_LOOP.(sent := [f])];
    s' := ThenTransport(s, s', WireStep(g, T.Take(1)));
    assert s'.wires[g].loops == [T.CONSTRUCTED_LOOP, OPEN_LOOP.(sent := [f], taken := 1, phase := T.Processing)];
  }

  const INIT_FRAME := Object(Missing, Missing, Array, Text("1"), Number(1))

  /** A start that was released by its init frame is about to store its transport. */
  ghost predicate Released(s: World, g: nat) {
    && s.c.lock == None && g !in s.c.cancelled && s.c.cts == g && s.c.state == Connecting && s.c.transport == None
    && g in s.chains && s.chains[g] == Chain(AwaitingInit, Protocol.Released(false), true)
    && g in s.wires && s.wires[g].loops == [T.CONSTRUCTED_LOOP, INIT_LOOP] && s.wires[g].token == 1
    && !s.wires[g].connecting
  }

  const INIT_LOOP := OPEN_LOOP.(sent := [INIT_FRAME], taken := 1, phase := T.Handed, handed := [INIT_FRAME])

  lemma ReceivesInit(s: World, g: nat) returns (s': World)
    requires Looping(s, g, OPEN_LOOP)
    ensures Leads(s, s') && Apart(s, s', g) && Released(s', g)
    ensures s'.seen == s.seen + [Processed(g, INIT_FRAME)] && s'.c.cursor == Process(s.c.cursor, INIT_FRAME)
  {
    hide Leads, Apart, Looping, Released;
    var s1 := TakesFrame(s, g, INIT_FRAME);
    s' := HandsInit(s1, g);
    LeadsOn(s, s1, s');
    ApartTwice(s, s1, s', g);
  }

  lemma HandsInit(s: World, g: nat) returns (s': World)
    requires Looping(s, g, OPEN_LOOP.(sent := [INIT_FRAME], taken := 1, phase := T.Processing))
    ensures Leads(s, s') && Apart(s, s', g) && Released(s', g)
    ensures s'.seen == s.seen + [Processed(g, INIT_FRAME)] && s'.c.cursor == Process(s.c.cursor, INIT_FRAME)
  {
    hide Leads, DoHandFrame, Process;
    LeadsItself(s);
    s' := ThenTransport(s, s, HandFrame(g, 1));
    InitHanded(s, g);
  }

  lemma InitHanded(s: World, g: nat)
    requires Looping(s, g, OPEN_LOOP.(sent := [INIT_FRAME], taken := 1, phase := T.Processing))
    ensures CanHandFrame(s, g, 1)
    ensures DoHandFrame(s, g, 1)
         == s.(c := ReceiveSection(s.c, INIT_FRAME), seen := s.seen + [Processed(g, INIT_FRAME)],
               chains := s.chains[g := Chain(AwaitingInit, Protocol.Released(false), true)],
               wires := s.wires[g := T.Wire([T.CONSTRUCTED_LOOP, INIT_LOOP], 1, 1, false)])
  {
    hide Process;
    assert [] + [INIT_FRAME] == [INIT_FRAME];
    assert T.Do(s.wires[g], T.Hand(1)).loops == [T.CONSTRUCTED_LOOP, INIT_LOOP];
  }

  lemma ApartTwice(s: World, s': World, s'': World, g: nat)
    requires Apart(s, s', g) && Apart(s', s'', g)
    ensures Apart(s, s'', g)
  {
  }

  /** Connected, with the loop between two frames. */
  ghost predicate IsUp(s: World, g: nat) {
    && s.c.lock == None && g !in s.c.cancelled && s.c.cts == g && s.c.state == Connected && s.c.event
    && s.c.transport == Some(g) && g in s.chains && s.chains[g].phase == Settled(true)
    && g in s.wires && s.wires[g].loops == [T.CONSTRUCTED_LOOP, INIT_LOOP] && s.wires[g].token == 1
    && !s.wires[g].connecting
  }

  lemma Connects(s: World, g: nat) returns (s': World)
    requires Released(s, g)
    ensures Leads(s, s') && Apart(s, s', g) && IsUp(s', g) && s'.seen == s.seen && s'.c.cursor == s.c.cursor
  {
    hide Leads, CanStartStep, DoStartStep;
    var s1 := RequestsStart(s, g);
    s' := StartAnswers(s1, g);
    LeadsOn(s, s1, s');
  }

  lemma RequestsStart(s: World, g: nat) returns (s': World)
    requires Released(s, g)
    ensures Leads(s, s')
    ensures s' == s.(c := s.c.(transport := Some(g)), chains := s.chains[g := s.chains[g].(phase := StartRequested)])
  {
    hide Leads;
    LeadsItself(s);
    s' := ThenStart(s, s, StoreTransport(g));
    s' := ThenStart(s, s', RequestStart(g));
    assert s'.chains == s.chains[g := s.chains[g].(phase := StartRequested)];
  }

  lemma StartAnswers(s: World, g: nat) returns (s': World)
    requires ChainAt(s, g, StartRequested) && s.c.state == Connecting
    ensures Leads(s, s')
    ensures s' == s.(c := s.c.(state := Connected, event := true),
                     chains := s.chains[g := s.chains[g].(phase := Settled(true))])
  {
    hide Leads;
    LeadsItself(s);
    s' := ThenStart(s, s, AnswerStart(g));
    s' := ThenStart(s, s', CompleteStart(g));
    s' := ThenStart(s, s', AnnounceStart(g));
    assert s'.chains == s.chains[g := s.chains[g].(phase := Settled(true))];
  }

  /** A whole start. */
  lemma ComesUp(s: World) returns (s': World)
    requires Startable(s)
    ensures var g := s.c.cts + 1; Leads(s, s') && Apart(s, s', g) && IsUp(s', g)
    ensures s'.seen == [Processed(s.c.cts + 1, INIT_FRAME)] && s'.c.cursor == Process(EMPTY_CURSOR, INIT_FRAME)
  {
    hide Leads, Looping, Released, IsUp;
    var g := s.c.cts + 1;
    var s1 := Dials(s);
    var s2 := ReceivesInit(s1, g);
    LeadsOn(s, s1, s2);
    s' := Connects(s2, g);
    LeadsOn(s, s2, s');
  }

  /** A start whose wait for the init frame ended with an exception settles. */
  lemma Settles(s: World, g: nat) returns (s': World)
    requires s.c.lock == None && s.c.cts == g && s.c.state == Connecting
    requires ChainAt(s, g, AwaitingInit) && s.chains[g].init == Faulted
    ensures Leads(s, s') && s'.c == s.c.(state := Disconnected, transport := None, event := true)
    ensures s' == s.(c := s'.c, chains := s.chains[g := s.chains[g].(phase := Settled(false))])
  {
    hide Leads;
    LeadsItself(s);
    var s1 := ThenStart(s, s, ChainFails(g));
    hide CanStartStep, DoStartStep;
    s' := FailureSettles(s1, g);
    LeadsOn(s, s1, s');
    assert s'.chains == s.chains[g := s.chains[g].(phase := Settled(false))];
  }

  lemma FailureSettles(s: World, g: nat) returns (s': World)
    requires ChainAt(s, g, Failing)
    ensures Leads(s, s') && s'.c == s.c.(state := Disconnected, transport := None, event := true)
    ensures s' == s.(c := s'.c, chains := s.chains[g := s.chains[g].(phase := Settled(false))])
  {
    hide Leads;
    LeadsItself(s);
    s' := ThenStart(s, s, FailStart(g));
    s' := ThenStart(s, s', FailSignals(g));
    assert s'.chains == s.chains[g := s.chains[g].(phase := Settled(false))];
  }

  /** A stop of a connection that is up is about to use the transport. */
  lemma StopAdvances(s: World, id: nat) returns (s': World)
    requires IsUp(s, s.c.cts) && id !in s.tasks
    ensures Leads(s, s') && s'.c.lock == None && s'.c.state == Disconnecting && s'.tasks == s.tasks[id := StopAborting]
    ensures s'.c.transport == s.c.transport && s'.faults == s.faults && s'.wires == s.wires && s'.chains == s.chains
  {
    hide Leads, CanStopStep, DoStopStep;
    var s1 := StopWakesUp(s, id);
    s' := StopCommitted(s1, id);
    LeadsOn(s, s1, s');
  }

  lemma StopWakesUp(s: World, id: nat) returns (s': World)
    requires s.c.lock == None && s.c.event && s.c.state != Disconnected && s.c.state != Disconnecting && id !in s.tasks
    ensures Leads(s, s') && s' == s.(c := ShutdownSection(s.c, id), tasks := s.tasks[id := StopAwake])
  {
    hide Leads;
    LeadsItself(s);
    var s1 := ThenStop(s, s, CallStop(id));
    hide CanStopStep, DoStopStep;
    s' := StopTakesLock(s1, id);
    LeadsOn(s, s1, s');
    assert s'.tasks == s.tasks[id := StopAwake];
  }

  lemma StopTakesLock(s: World, id: nat) returns (s': World)
    requires TaskAt(s, id, StopCalled) && s.c.lock == None && s.c.event
    requires s.c.state != Disconnected && s.c.state != Disconnecting
    ensures Leads(s, s') && s' == s.(c := ShutdownSection(s.c, id), tasks := s.tasks[id := StopAwake])
  {
    hide Leads;
    LeadsItself(s);
    s' := ThenStop(s, s, StopLocks(id));
    s' := ThenStop(s, s', StopWakes(id));
    assert s'.tasks == s.tasks[id := StopAwake];
  }

  lemma StopCommitted(s: World, id: nat) returns (s': World)
    requires TaskAt(s, id, StopAwake) && (s.c.state == Connected || s.c.state == Reconnecting)
    ensures Leads(s, s')
    ensures s' == s.(c := s.c.(state := Disconnecting, lock := None), tasks := s.tasks[id := StopAborting])
  {
    hide Leads;
    LeadsItself(s);
    s' := ThenStop(s, s, StopReads(id));
    s' := ThenStop(s, s', StopCommits(id));
    assert s'.tasks == s.tasks[id := StopAborting];
  }

  lemma {:induction false} FreshId(used: set<nat>) returns (id: nat)
    ensures forall i | i in used :: i < id
    decreases |used|
  {
    if used == {} {
      id := 0;
    } else {
      var i :| i in used;
      var rest := FreshId(used - {i});
      id := if rest <= i then i + 1 else rest;
      assert used == (used - {i}) + {i};
    }
  }
}
