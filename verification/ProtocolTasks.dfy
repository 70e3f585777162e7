/** How the invariant survives a change of one task. */
module ProtocolTasks {
  import opened Wrappers
  import opened Protocol
  import opened ProtocolInvariant
  import T = Transport

  /** Set, change or drop the task `id`. */
  function Put(tasks: map<nat, Task>, id: nat, after: Option<Task>): map<nat, Task> {
    match after
    case None => tasks - {id}
    case Some(t) => tasks[id := t]
  }

  function At(tasks: map<nat, Task>, id: nat): Option<Task> {
    if id in tasks then Some(tasks[id]) else None
  }

  /** Task `id` is of a unique kind only if it was before, or if no task was. */
  ghost predicate NoRival(tasks: map<nat, Task>, id: nat, after: Option<Task>, g: nat) {
    after.Some? ==>
      && (Attempting(after.value) ==> (id in tasks && Attempting(tasks[id])) || !SomeAttempt(tasks))
      && (Carries(after.value, g) ==> (id in tasks && Carries(tasks[id], g)) || !SomeCarrier(tasks, g))
      && (Closing(after.value) ==> (id in tasks && Closing(tasks[id])) || !SomeClosing(tasks))
  }

  lemma UniqueAfter(tasks: map<nat, Task>, id: nat, after: Option<Task>, g: nat)
    requires Unique(tasks, g) && NoRival(tasks, id, after, g)
    ensures Unique(Put(tasks, id, after), g)
  {
  }

  lemma AttemptAfter(tasks: map<nat, Task>, id: nat, after: Option<Task>)
    requires SomeAttempt(tasks)
    requires id in tasks && Attempting(tasks[id]) ==> after.Some? && Attempting(after.value)
    ensures SomeAttempt(Put(tasks, id, after))
  {
    var i :| i in tasks && Attempting(tasks[i]);
    assert i in Put(tasks, id, after) && Attempting(Put(tasks, id, after)[i]);
  }

  lemma CarrierAfter(tasks: map<nat, Task>, id: nat, after: Option<Task>, g: nat)
    requires SomeCarrier(tasks, g)
    requires id in tasks && Carries(tasks[id], g) ==> after.Some? && Carries(after.value, g)
    ensures SomeCarrier(Put(tasks, id, after), g)
  {
    var i :| i in tasks && Carries(tasks[i], g);
    assert i in Put(tasks, id, after) && Carries(Put(tasks, id, after)[i], g);
  }

  lemma ClosingAfter(tasks: map<nat, Task>, id: nat, after: Option<Task>)
    requires SomeClosing(tasks)
    requires id in tasks && Closing(tasks[id]) ==> after.Some? && Closing(after.value)
    ensures SomeClosing(Put(tasks, id, after))
  {
    var i :| i in tasks && Closing(tasks[i]);
    assert i in Put(tasks, id, after) && Closing(Put(tasks, id, after)[i]);
  }

  // ---- What the shared state says about the kinds of tasks ----

  lemma NoAttemptOnceSignalled(k: Core, tasks: map<nat, Task>)
    requires TasksOk(k, tasks)
    requires k.event || k.state == Connecting || k.state == Disconnecting || k.state == Disconnected
    ensures !SomeAttempt(tasks)
  {
  }

  lemma NoCarrierWhileLooping(k: Core, tasks: map<nat, Task>)
    requires TasksOk(k, tasks)
    requires k.wire.Some? ==> !T.Dead(k.wire.value)
    ensures !SomeCarrier(tasks, k.cts)
  {
  }

  lemma NoClosingBefore(k: Core, tasks: map<nat, Task>)
    requires TasksOk(k, tasks) && k.state != Disconnecting
    ensures !SomeClosing(tasks)
  {
  }

  // ---- The lock ----

  /** `m_stop_lock` after a step of task `id`: it is taken only when free and released only by its holder; a `stop`
      that has cancelled the token releases it only once the connection is disconnecting or disconnected. */
  ghost predicate LockMoved(s: World, id: nat, after: Option<Task>, c: Connection) {
    && c.lock == (if after.Some? && Holds(after.value) then Some(id)
                  else if s.c.lock == Some(id) then None
                  else s.c.lock)
    && (after.Some? && Holds(after.value) ==> s.c.lock == None || s.c.lock == Some(id))
    && (c.state == Disconnecting || c.state == Disconnected
        || (id in s.tasks && HoldsForStop(s.tasks[id]) ==> after.Some? && HoldsForStop(after.value)))
    && (s.c.cts in c.cancelled && s.c.cts !in s.c.cancelled ==> after.Some? && HoldsForStop(after.value))
  }

  lemma LockAfter(s: World, s': World, id: nat, after: Option<Task>)
    requires LockOk(s) && LockMoved(s, id, after, s'.c)
    requires s'.tasks == Put(s.tasks, id, after)
    requires s'.c.cts == s.c.cts
    requires s.c.state == Disconnecting || s.c.state == Disconnected
             ==> s'.c.state == Disconnecting || s'.c.state == Disconnected
    requires s'.c.state == Disconnecting ==> s'.c.event && s'.c.cts in s'.c.cancelled
    ensures LockOk(s')
  {
  }

  // ---- The whole invariant ----

  /** The world after a step that moves one task and changes no field but the lock. */
  function Moved(s: World, id: nat, after: Option<Task>, lock: Option<nat>): World {
    s.(tasks := Put(s.tasks, id, after), c := s.c.(lock := lock))
  }

  lemma TaskMoved(s: World, id: nat, after: Option<Task>, lock: Option<nat>)
    requires Inv(s)
    requires LockMoved(s, id, after, s.c.(lock := lock))
    requires after.Some? ==> TaskOk(CoreOf(s), after.value) && !after.value.Notifying?
    requires NoRival(s.tasks, id, after, s.c.cts)
    requires !s.c.event && id in s.tasks && Attempting(s.tasks[id]) ==> after.Some? && Attempting(after.value)
    requires id in s.tasks && Carries(s.tasks[id], s.c.cts)
             ==> (after.Some? && Carries(after.value, s.c.cts)) || !Lost(CoreOf(s))
    requires id in s.tasks && Closing(s.tasks[id]) ==> after.Some? && Closing(after.value)
    ensures Inv(Moved(s, id, after, lock))
  {
    hide Inv, PastOk, LockOk, ChainOk, WireOk, TasksOk, Unique, Driven, TaskOk, LockMoved, NoRival, Lost;
    var s' := Moved(s, id, after, lock);
    assert CoreOf(s') == CoreOf(s);
    Parts(s);
    LockStays(s, s', id, after);
    UniqueAfter(s.tasks, id, after, s.c.cts);
    PastMoved(s, s', id, after);
    TasksMoved(CoreOf(s), s.tasks, id, after);
    DrivenMoved(s, s', id, after);
    Whole(s');
  }

  lemma LockStays(s: World, s': World, id: nat, after: Option<Task>)
    requires LockOk(s) && LockMoved(s, id, after, s'.c) && s'.tasks == Put(s.tasks, id, after)
    requires s'.c == s.c.(lock := s'.c.lock)
    ensures LockOk(s')
  {
    hide LockMoved, Put;
    assert s.c.state == Disconnecting ==> s.c.event && s.c.cts in s.c.cancelled;
    LockAfter(s, s', id, after);
    hide LockOk;
  }

  lemma PastMoved(s: World, s': World, id: nat, after: Option<Task>)
    requires PastOk(s) && s' == s.(c := s.c.(lock := s'.c.lock), tasks := Put(s.tasks, id, after))
    requires after.Some? ==> !after.value.Notifying?
    ensures PastOk(s')
  {
    hide PastChainOk, T.Inv;
  }

  lemma TasksMoved(k: Core, tasks: map<nat, Task>, id: nat, after: Option<Task>)
    requires TasksOk(k, tasks) && (after.Some? ==> TaskOk(k, after.value))
    ensures TasksOk(k, Put(tasks, id, after))
  {
    hide TaskOk;
  }

  lemma DrivenMoved(s: World, s': World, id: nat, after: Option<Task>)
    requires Driven(s) && s' == s.(c := s.c.(lock := s'.c.lock), tasks := Put(s.tasks, id, after))
    requires CoreOf(s') == CoreOf(s)
    requires !s.c.event && id in s.tasks && Attempting(s.tasks[id]) ==> after.Some? && Attempting(after.value)
    requires id in s.tasks && Carries(s.tasks[id], s.c.cts)
             ==> (after.Some? && Carries(after.value, s.c.cts)) || !Lost(CoreOf(s))
    requires id in s.tasks && Closing(s.tasks[id]) ==> after.Some? && Closing(after.value)
    ensures Driven(s')
  {
    hide Lost, CoreOf, SomeAttempt, SomeCarrier, SomeClosing, Attempting, Carries, Closing, Put;
    if SomeAttempt(s.tasks) && !s.c.event { AttemptAfter(s.tasks, id, after); }
    if Lost(CoreOf(s)) { CarrierAfter(s.tasks, id, after, s.c.cts); }
    if SomeClosing(s.tasks) { ClosingAfter(s.tasks, id, after); }
  }

  /** A step of task `id` that changes fields of the connection and the current wire. */
  ghost predicate CoreStep(s: World, s': World, id: nat, after: Option<Task>) {
    && s' == s.(c := s'.c, wires := s'.wires, tasks := Put(s.tasks, id, after))
    && s'.c.cts == s.c.cts
    && s.c.cancelled <= s'.c.cancelled <= s.c.cancelled + {s.c.cts}
    && (s'.wires == s.wires || (s.c.cts in s'.wires && s'.wires == s.wires[s.c.cts := s'.wires[s.c.cts]]))
    && (after.Some? && after.value.Notifying? ==> after.value.cts == s.c.cts)
  }

  lemma CoreMoved(s: World, s': World, id: nat, after: Option<Task>)
    requires Inv(s) && s.c.cts in s.chains && CoreStep(s, s', id, after)
    requires LockMoved(s, id, after, s'.c)
    requires s.c.state == Disconnecting || s.c.state == Disconnected
             ==> s'.c.state == Disconnecting || s'.c.state == Disconnected
    requires s'.c.state == Disconnecting ==> s'.c.event && s'.c.cts in s'.c.cancelled
    requires ChainOk(CoreOf(s')) && WireOk(CoreOf(s'))
    requires after.Some? ==> TaskOk(CoreOf(s'), after.value)
    requires forall i | i in s.tasks && i != id :: TaskOk(CoreOf(s'), s.tasks[i])
    requires NoRival(s.tasks, id, after, s.c.cts)
    requires s'.c.event || !s.chains[s.c.cts].phase.Settled? || SomeAttempt(s'.tasks)
    requires Lost(CoreOf(s')) ==> SomeCarrier(s'.tasks, s.c.cts)
    requires s'.c.state == Disconnecting ==>
               || (after.Some? && Closing(after.value))
               || (s.c.state == Disconnecting && (id in s.tasks ==> !Closing(s.tasks[id])))
    ensures Inv(s')
  {
    hide Inv, PastOk, LockOk, ChainOk, WireOk, TasksOk, Unique, Driven, LockMoved, NoRival, TaskOk, Lost, CoreOf;
    Parts(s);
    CoreStepIs(s, s', id, after);
    LockAfter(s, s', id, after);
    UniqueAfter(s.tasks, id, after, s.c.cts);
    WireIs(s');
    PastAfter(s, s', id, after);
    TasksCore(CoreOf(s'), s.tasks, id, after);
    DrivenCore(s, s', id, after);
    Whole(s');
  }

  lemma CoreStepIs(s: World, s': World, id: nat, after: Option<Task>)
    requires CoreStep(s, s', id, after)
    ensures s'.tasks == Put(s.tasks, id, after) && s'.c.cts == s.c.cts && s'.faults == s.faults && s'.chains == s.chains
  {
  }

  lemma WireIs(s: World)
    requires WireOk(CoreOf(s))
    ensures s.c.cts in s.wires ==> T.Inv(s.wires[s.c.cts])
  {
    hide T.Inv;
  }

  lemma TasksCore(k: Core, tasks: map<nat, Task>, id: nat, after: Option<Task>)
    requires after.Some? ==> TaskOk(k, after.value)
    requires forall i | i in tasks && i != id :: TaskOk(k, tasks[i])
    ensures TasksOk(k, Put(tasks, id, after))
  {
    hide TaskOk;
  }

  lemma DrivenCore(s: World, s': World, id: nat, after: Option<Task>)
    requires Driven(s) && s'.c.cts == s.c.cts && s'.chains == s.chains && s'.tasks == Put(s.tasks, id, after)
    requires s.c.cts in s.chains
    requires s'.c.event || !s.chains[s.c.cts].phase.Settled? || SomeAttempt(s'.tasks)
    requires Lost(CoreOf(s')) ==> SomeCarrier(s'.tasks, s.c.cts)
    requires s'.c.state == Disconnecting ==>
               || (after.Some? && Closing(after.value))
               || (s.c.state == Disconnecting && (id in s.tasks ==> !Closing(s.tasks[id])))
    ensures Driven(s')
  {
    hide Lost, CoreOf, SomeAttempt, SomeCarrier, Closing;
    if s'.c.state == Disconnecting {
      if after.Some? && Closing(after.value) { assert id in s'.tasks && s'.tasks[id] == after.value; }
      else { ClosingAfter(s.tasks, id, after); }
    }
  }

  lemma PastAfter(s: World, s': World, id: nat, after: Option<Task>)
    requires PastOk(s) && s.c.cts in s.chains && CoreStep(s, s', id, after)
    requires s.c.cts in s'.wires ==> T.Inv(s'.wires[s.c.cts])
    ensures PastOk(s')
  {
    hide PastChainOk, T.Inv;
  }
}
