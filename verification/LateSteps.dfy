/** Two steps that a later generation can overtake: the end of a failed start, whose event is set after the state is
    changed, and the end of a stop that found the connection disconnected. This module proves exactly when that does
    harm, and that it happens. */
module LateSteps {
  import opened Protocol
  import opened ProtocolInvariant
  import opened ProtocolKeepStart
  import opened ProtocolKeepTransport
  import opened ProtocolRuns
  import opened ProtocolScenarios
  import T = Transport

  /** Some proper run ends in one of the situations that the source takes for impossible. */
  ghost predicate CanGoWrong(s: World) {
    exists s' :: Leads(s, s') && s'.faults != {}
  }

  lemma NothingGoesWrong(s: World)
    requires Inv(s)
    ensures !CanGoWrong(s)
  {
    hide Inv, Leads;
    forall s' | Leads(s, s')
      ensures s'.faults == {}
    {
      InvOn(s, s');
      Parts(s');
    }
  }

  // ---- A start between 164 and 165 ----

  /** `start` after the old chain changed the state and before it set the event: the old chain then sets the event of
      the new start, and a stop does not wait for that start. */
  lemma EarlyStartGoesWrong(s: World)
    requires Inv(s) && CanStart(s) && !Timely(s, OfStart(Start))
    ensures CanGoWrong(DoStart(s))
  {
    hide Inv, Leads;
    OldIsUnsignalled(s);
    var s1 := DoStart(s);
    LeadsItself(s1);
    var s2 := ThenStart(s1, s1, FailSignals(s.c.cts));
    var id := FreshId(s2.tasks.Keys);
    var s3 := StopWakesUp(s2, id);
    LeadsOn(s1, s2, s3);
    var s4 := ThenStop(s1, s3, StopReads(id));
    assert StopUnexpectedState in s4.faults;
  }

  lemma OldIsUnsignalled(s: World)
    requires Inv(s) && CanStart(s) && !Timely(s, OfStart(Start))
    ensures ChainAt(s, s.c.cts, Unsignalled)
  {
    hide Inv, WireOk;
    CoreIs(s);
  }

  /** A call of `start` in the disconnected state is harmless if and only if the task of the start before it is settled,
      which a caller knows who waited for that task. */
  lemma StartHarmlessIffSettled(s: World)
    requires Reachable(s) && CanStart(s)
    ensures (s.c.cts in s.chains ==> s.chains[s.c.cts].phase.Settled?) <==> !CanGoWrong(DoStart(s))
  {
    hide Inv, Reachable, CanGoWrong;
    ReachableInv(s);
    if Timely(s, OfStart(Start)) {
      KeepStart(s);
      NothingGoesWrong(DoStart(s));
    } else {
      EarlyStartGoesWrong(s);
    }
  }

  /** The situation is reached by a start that fails. */
  lemma EarlyStartHappens() returns (s: World)
    ensures Reachable(s) && CanStart(s) && !Timely(s, OfStart(Start)) && CanGoWrong(DoStart(s))
  {
    hide Leads, Reachable, CanGoWrong;
    LeadsItself(INITIAL);
    s := ThenStart(INITIAL, INITIAL, Start);
    s := ThenStart(INITIAL, s, ChainFails(1));
    s := ThenStart(INITIAL, s, FailStart(1));
    ReachableOn(s);
    StartHarmlessIffSettled(s);
  }

  // ---- A stop that resumes late ----

  /** A stop that found the connection disconnected resumes while another one is disconnecting it: the transport is gone
      when that one, or the next one, uses it. */
  lemma LateStopGoesWrong(s: World, id: nat)
    requires Inv(s) && CanStopResumes(s, id) && s.c.state == Disconnecting
    ensures CanGoWrong(DoStopResumes(s, id))
  {
    hide Inv, Leads, SomeClosing, Startable;
    DrivenIs(s);
    var other := Closer(s, id);
    var s1 := DoStopResumes(s, id);
    if s.tasks[other].StopAborting? {
      LeadsItself(s1);
      var s2 := ThenStop(s1, s1, StopAborts(other));
      assert NullTransport in s2.faults;
    } else {
      Restartable(s, id);
      var s2 := NextStopMeetsNull(s1, other);
      assert NullTransport in s2.faults;
    }
  }

  lemma Closer(s: World, id: nat) returns (other: nat)
    requires Driven(s) && s.c.state == Disconnecting && TaskAt(s, id, StopFound)
    ensures other != id && other in s.tasks && Closing(s.tasks[other])
  {
    hide Lost;
    other :| other in s.tasks && Closing(s.tasks[other]);
  }

  lemma Restartable(s: World, id: nat)
    requires Inv(s) && CanStopResumes(s, id) && s.c.state == Disconnecting
    ensures Startable(DoStopResumes(s, id))
  {
    hide Inv, WireOk, T.Inv;
    CoreIs(s);
    PastIs(s);
  }

  /** The connection comes up again, is stopped again, and the closing stop of before ends in between. */
  lemma NextStopMeetsNull(s: World, other: nat) returns (s': World)
    requires Startable(s) && TaskAt(s, other, StopClosing)
    ensures Leads(s, s') && NullTransport in s'.faults
  {
    hide Leads, Startable, IsUp;
    var s1 := ComesUp(s);
    var id := FreshId(s1.tasks.Keys);
    IsCurrent(s1, s.c.cts + 1);
    var s2 := StopAdvances(s1, id);
    LeadsOn(s, s1, s2);
    var s3 := ThenStop(s, s2, StopFinishes(other));
    s' := ThenStop(s, s3, StopAborts(id));
  }

  lemma IsCurrent(s: World, g: nat)
    requires IsUp(s, g)
    ensures s.c.cts == g
  {
  }

  /** A stop that found the connection disconnected resumes harmlessly if and only if nobody is disconnecting it then. */
  lemma ResumeHarmlessIff(s: World, id: nat)
    requires Reachable(s) && CanStopResumes(s, id)
    ensures s.c.state != Disconnecting <==> !CanGoWrong(DoStopResumes(s, id))
  {
    hide Inv, Reachable, CanGoWrong;
    ReachableInv(s);
    if s.c.state != Disconnecting {
      KeepStep(s, OfStop(StopResumes(id)));
      NothingGoesWrong(DoStopResumes(s, id));
    } else {
      LateStopGoesWrong(s, id);
    }
  }

  /** The situation is reached by a stop before a start and a stop after it. */
  lemma LateStopHappens() returns (s: World, id: nat)
    ensures Reachable(s) && CanStopResumes(s, id) && s.c.state == Disconnecting && CanGoWrong(DoStopResumes(s, id))
  {
    hide Leads, Reachable, CanGoWrong, IsUp;
    id := 0;
    LeadsItself(INITIAL);
    var s1 := ThenStop(INITIAL, INITIAL, CallStop(0));
    s1 := ThenStop(INITIAL, s1, StopLocks(0));
    var s2 := ComesUp(s1);
    LeadsOn(INITIAL, s1, s2);
    IsCurrent(s2, 1);
    s := StopAdvances(s2, 1);
    LeadsOn(INITIAL, s2, s);
    ReachableOn(s);
    ResumeHarmlessIff(s, id);
  }
}
