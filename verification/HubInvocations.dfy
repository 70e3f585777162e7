/** Hub invocations as concurrent steps: registering, sending, receiving, calling back, clearing, destroying. The n-th
    invocation is the n-th registration; `done` holds the completion events that are set, and the first setter wins;
    `reports` are the calls of `on_progress`, each with its invocation. */
module HubInvocations {
  import opened HubMessages
  import opened CallbackIds

  datatype Phase =
    | Issued      // has its id, is not in the map yet (between 23 and 28 of callback_manager.cpp)
    | Sending     // the request is being sent
    | SendFailed  // the completion was set at 240, the callback is about to be removed at 244
    | Sent

  /** A callback copied out of the map, about to be called with a message (49-57 of callback_manager.cpp). */
  datatype Call = Call(invocation: nat, message: Json)

  datatype Hub = Hub(issued: nat, phases: map<nat, Phase>, callbacks: map<string, nat>, calls: map<nat, Call>,
                     done: map<nat, Completion>, reports: seq<(nat, Json)>, alive: bool)

  const INITIAL := Hub(0, map[], map[], map[], map[], [], true)

  const DESTROYED := "connection went out of scope before invocation result was received"

  datatype Action =
    | Issue
    | Insert(n: nat)
    | SendSucceeds(n: nat)
    | SendFails(n: nat)
    | Unregister(n: nat)
    | Receive(id: string, message: Json, call: nat)
    | RunCallback(call: nat)
    | Clear(reason: string)  // `stop` and the wrapped reconnecting callback
    | Destroy

  predicate At(s: Hub, n: nat, phase: Phase) {
    n in s.phases && s.phases[n] == phase
  }

  predicate Can(s: Hub, a: Action) {
    match a
    case Issue => s.alive
    case Insert(n) => s.alive && At(s, n, Issued)
    case SendSucceeds(n) => At(s, n, Sending)
    case SendFails(n) => At(s, n, Sending)
    case Unregister(n) => At(s, n, SendFailed)
    case Receive(id, message, call) => s.alive && Route(message) == ToInvocation(id) && call !in s.calls
    case RunCallback(call) => call in s.calls
    case Clear(_) => s.alive
    // whoever invokes or handles a message keeps the object alive
    case Destroy => s.alive && s.calls == map[] && forall n | n in s.phases :: s.phases[n] != Issued
  }

  function Complete(done: map<nat, Completion>, n: nat, completion: Completion): map<nat, Completion> {
    if n in done then done else done[n := completion]
  }

  /** Under the lock `clear` calls every registered callback. */
  function DoClear(s: Hub, reason: string): Hub {
    var late := map n | n in s.callbacks.Values && n !in s.done :: Error(Text(reason));
    s.(done := s.done + late, callbacks := map[])
  }

  function DoReceive(s: Hub, id: string, message: Json, call: nat): Hub {
    if id !in s.callbacks then s
    else
      s.(calls := s.calls[call := Call(s.callbacks[id], message)],
         callbacks := if IsProgress(message) then s.callbacks else s.callbacks - {id})
  }

  function DoRunCallback(s: Hub, call: nat): Hub
    requires call in s.calls
  {
    var t := s.(calls := s.calls - {call});
    match React(s.calls[call].message)
    case Completes(completion) => t.(done := Complete(s.done, s.calls[call].invocation, completion))
    case Progress(data) => t.(reports := s.reports + [(s.calls[call].invocation, data)])
  }

  function Do(s: Hub, a: Action): Hub
    requires Can(s, a)
  {
    match a
    case Issue => s.(issued := s.issued + 1, phases := s.phases[s.issued := Issued])
    case Insert(n) =>
      s.(phases := s.phases[n := Sending],
         callbacks := if CallbackId(n) in s.callbacks then s.callbacks else s.callbacks[CallbackId(n) := n])
    case SendSucceeds(n) => s.(phases := s.phases[n := Sent])
    case SendFails(n) => s.(phases := s.phases[n := SendFailed], done := Complete(s.done, n, SendFailure))
    case Unregister(n) =>
      s.(phases := s.phases[n := Sent], callbacks := if s.alive then s.callbacks - {CallbackId(n)} else s.callbacks)
    case Receive(id, message, call) => DoReceive(s, id, message, call)
    case RunCallback(call) => DoRunCallback(s, call)
    case Clear(reason) => DoClear(s, reason)
    case Destroy => DoClear(s, DESTROYED).(alive := false)
  }

  predicate Legal(s: Hub, acts: seq<Action>)
    decreases |acts|
  {
    acts == [] || (Can(s, acts[0]) && Legal(Do(s, acts[0]), acts[1..]))
  }

  function Exec(s: Hub, acts: seq<Action>): Hub
    requires Legal(s, acts)
    decreases |acts|
  {
    if acts == [] then s else Exec(Do(s, acts[0]), acts[1..])
  }

  // ---- The invariant ----

  predicate Registered(s: Hub, n: nat) {
    CallbackId(n) in s.callbacks && s.callbacks[CallbackId(n)] == n
  }

  /** A message that will complete invocation `n` is in the hands of a thread. */
  ghost predicate BeingCompleted(s: Hub, n: nat) {
    exists c :: c in s.calls && s.calls[c].invocation == n && React(s.calls[c].message).Completes?
  }

  ghost predicate Kept(s: Hub, n: nat) {
    n in s.done || At(s, n, Issued) || Registered(s, n) || BeingCompleted(s, n)
  }

  ghost predicate Inv(s: Hub) {
    && (forall n: nat :: n in s.phases <==> n < s.issued)
    && (forall k | k in s.callbacks ::
          var n := s.callbacks[k]; n in s.phases && k == CallbackId(n) && s.phases[n] != Issued)
    && (forall n | n in s.phases :: Kept(s, n))
    && (forall n | n in s.phases && s.phases[n] == SendFailed :: n in s.done)
    && (!s.alive ==> s.callbacks == map[] && s.calls == map[] && forall n | n in s.phases :: s.phases[n] != Issued)
  }

  /** Ids have not wrapped onto a registered callback: an insertion finds its id free, a removal finds its own. */
  predicate NoClash(s: Hub, a: Action) {
    match a
    case Insert(n) => CallbackId(n) !in s.callbacks
    case Unregister(n) => CallbackId(n) in s.callbacks ==> s.callbacks[CallbackId(n)] == n
    case _ => true
  }

  lemma KeepInsert(s: Hub, n: nat)
    requires Inv(s) && Can(s, Insert(n)) && CallbackId(n) !in s.callbacks
    ensures Inv(Do(s, Insert(n)))
  {
    hide CallbackId;
    var s' := Do(s, Insert(n));
    forall m | m in s'.phases
      ensures Kept(s', m)
    {
      if m != n {
        assert Kept(s, m);
        if BeingCompleted(s, m) { assert BeingCompleted(s', m); }
        if Registered(s, m) { assert Registered(s', m); }
      }
    }
  }

  lemma KeepPhase(s: Hub, s': Hub, n: nat)
    requires Inv(s) && n in s.phases && s.phases[n] != Issued
    requires s' == s.(phases := s'.phases, done := s'.done) && n in s'.phases && s'.phases == s.phases[n := s'.phases[n]]
    requires s'.phases[n] != Issued && (s'.phases[n] == SendFailed ==> n in s'.done)
    requires forall m | m in s.done :: m in s'.done
    ensures Inv(s')
  {
    hide CallbackId;
    forall m | m in s'.phases
      ensures Kept(s', m)
    {
      assert Kept(s, m);
      if BeingCompleted(s, m) { assert BeingCompleted(s', m); }
      if Registered(s, m) { assert Registered(s', m); }
    }
  }

  lemma KeepUnregister(s: Hub, n: nat)
    requires Inv(s) && Can(s, Unregister(n)) && NoClash(s, Unregister(n))
    ensures Inv(Do(s, Unregister(n)))
  {
    hide CallbackId;
    var s' := Do(s, Unregister(n));
    forall m | m in s'.phases
      ensures Kept(s', m)
    {
      assert Kept(s, m);
      if BeingCompleted(s, m) { assert BeingCompleted(s', m); }
      if Registered(s, m) && m != n { assert Registered(s', m); }
    }
  }

  lemma KeepReceive(s: Hub, id: string, message: Json, call: nat)
    requires Inv(s) && Can(s, Receive(id, message, call))
    ensures Inv(DoReceive(s, id, message, call))
  {
    hide CallbackId, React;
    var s' := DoReceive(s, id, message, call);
    if id in s.callbacks {
      UnregistersOnlyCompleted(message, "");
      forall m | m in s'.phases
        ensures Kept(s', m)
      {
        assert Kept(s, m);
        if BeingCompleted(s, m) {
          var c :| c in s.calls && s.calls[c].invocation == m && React(s.calls[c].message).Completes?;
          assert c in s'.calls && s'.calls[c] == s.calls[c];
        }
        if Registered(s, m) && !Registered(s', m) {
          assert call in s'.calls && s'.calls[call] == Call(m, message);
        }
      }
    }
  }

  lemma KeepRunCallback(s: Hub, call: nat)
    requires Inv(s) && Can(s, RunCallback(call))
    ensures Inv(DoRunCallback(s, call))
  {
    hide CallbackId, React;
    var s' := DoRunCallback(s, call);
    forall m | m in s'.phases
      ensures Kept(s', m)
    {
      assert Kept(s, m);
      if BeingCompleted(s, m) && m !in s'.done {
        var c :| c in s.calls && s.calls[c].invocation == m && React(s.calls[c].message).Completes?;
        assert c in s'.calls && s'.calls[c] == s.calls[c];
      }
      if Registered(s, m) { assert Registered(s', m); }
    }
  }

  lemma KeepClear(s: Hub, reason: string)
    requires Inv(s) && s.alive
    ensures Inv(DoClear(s, reason))
    ensures forall n | n in s.phases :: n in DoClear(s, reason).done || At(s, n, Issued) || BeingCompleted(s, n)
  {
    hide CallbackId, React;
    var s' := DoClear(s, reason);
    forall m | m in s.phases
      ensures Kept(s', m)
      ensures m in s'.done || At(s, m, Issued) || BeingCompleted(s, m)
    {
      assert Kept(s, m);
      if BeingCompleted(s, m) { assert BeingCompleted(s', m); }
      if Registered(s, m) { assert m in s.callbacks.Values; }
    }
  }

  lemma KeepIssue(s: Hub)
    requires Inv(s) && s.alive
    ensures Inv(Do(s, Issue))
  {
    hide CallbackId;
    var s' := Do(s, Issue);
    forall m | m in s'.phases
      ensures Kept(s', m)
    {
      if m != s.issued {
        assert Kept(s, m);
        if BeingCompleted(s, m) { assert BeingCompleted(s', m); }
        if Registered(s, m) { assert Registered(s', m); }
      }
    }
  }

  lemma KeepSend(s: Hub, a: Action)
    requires Inv(s) && Can(s, a) && (a.SendSucceeds? || a.SendFails?)
    ensures Inv(Do(s, a))
  {
    hide Inv, CallbackId;
    KeepPhase(s, Do(s, a), a.n);
  }

  lemma KeepDestroy(s: Hub)
    requires Inv(s) && Can(s, Destroy)
    ensures Inv(Do(s, Destroy))
  {
    KeepClear(s, DESTROYED);
    hide CallbackId, React;
    var t, s' := DoClear(s, DESTROYED), Do(s, Destroy);
    forall m | m in s'.phases
      ensures Kept(s', m)
    {
      assert m in t.done || At(s, m, Issued) || BeingCompleted(s, m);
    }
  }

  lemma Keep(s: Hub, a: Action)
    requires Inv(s) && Can(s, a) && NoClash(s, a)
    ensures Inv(Do(s, a))
  {
    hide Inv, CallbackId, React, Route;
    match a
    case Issue => KeepIssue(s);
    case Insert(n) => KeepInsert(s, n);
    case SendSucceeds(n) => KeepSend(s, a);
    case SendFails(n) => KeepSend(s, a);
    case Unregister(n) => KeepUnregister(s, n);
    case Receive(id, message, call) => KeepReceive(s, id, message, call);
    case RunCallback(call) => KeepRunCallback(s, call);
    case Clear(reason) => KeepClear(s, reason);
    case Destroy => KeepDestroy(s);
  }

  // ---- Clashes ----

  /** An insertion registers its invocation exactly if no older callback still holds the id, and only a callback
      registered a multiple of 2^32 before can. */
  lemma InsertKeepsIffNoClash(s: Hub, n: nat)
    requires Inv(s) && Can(s, Insert(n))
    ensures Registered(Do(s, Insert(n)), n) <==> NoClash(s, Insert(n))
    ensures !NoClash(s, Insert(n)) ==> exists m :: m != n && Registered(s, m) && (n - m) % TWO_TO_32 == 0
  {
    if CallbackId(n) in s.callbacks {
      var m := s.callbacks[CallbackId(n)];
      IdsRepeat(n, m);
      assert m != n && Registered(s, m);
    }
  }

  /** No clash can occur among the first 2^32 invocations. */
  lemma NoClashWithinBound(s: Hub, a: Action)
    requires Inv(s) && Can(s, a) && s.issued <= TWO_TO_32
    ensures NoClash(s, a)
  {
    hide CallbackId;
    if a.Insert? || a.Unregister? {
      if CallbackId(a.n) in s.callbacks {
        var m := s.callbacks[CallbackId(a.n)];
        if m < a.n { ConsecutiveIdsDistinct(m, a.n); }
        if a.n < m { ConsecutiveIdsDistinct(a.n, m); }
      }
    }
  }

  // ---- What every run guarantees ----

  lemma {:induction false} IssuedGrows(s: Hub, acts: seq<Action>)
    requires Legal(s, acts)
    ensures s.issued <= Exec(s, acts).issued
    decreases |acts|
  {
    if acts != [] {
      IssuedGrows(Do(s, acts[0]), acts[1..]);
    }
  }

  /** No step of the run meets a clash of ids. */
  predicate Clashless(s: Hub, acts: seq<Action>)
    requires Legal(s, acts)
    decreases |acts|
  {
    acts == [] || (NoClash(s, acts[0]) && Clashless(Do(s, acts[0]), acts[1..]))
  }

  lemma {:induction false} KeepRun(s: Hub, acts: seq<Action>)
    requires Inv(s) && Legal(s, acts) && Clashless(s, acts)
    ensures Inv(Exec(s, acts))
    decreases |acts|
  {
    hide Inv;
    if acts != [] {
      Keep(s, acts[0]);
      KeepRun(Do(s, acts[0]), acts[1..]);
    }
  }

  /** A run of at most 2^32 invocations meets no clash. */
  lemma {:induction false} BoundedIsClashless(s: Hub, acts: seq<Action>)
    requires Inv(s) && Legal(s, acts) && Exec(s, acts).issued <= TWO_TO_32
    ensures Clashless(s, acts)
    decreases |acts|
  {
    hide Inv;
    if acts != [] {
      IssuedGrows(s, acts);
      NoClashWithinBound(s, acts[0]);
      Keep(s, acts[0]);
      BoundedIsClashless(Do(s, acts[0]), acts[1..]);
    }
  }

  /** No invocation is forgotten: until it completes it waits to be registered, is registered, or a thread holds a
      message that will complete it. */
  lemma Conserved(acts: seq<Action>, n: nat)
    requires Legal(INITIAL, acts) && n < Exec(INITIAL, acts).issued
    requires Clashless(INITIAL, acts) || Exec(INITIAL, acts).issued <= TWO_TO_32
    ensures Kept(Exec(INITIAL, acts), n)
  {
    if Exec(INITIAL, acts).issued <= TWO_TO_32 { BoundedIsClashless(INITIAL, acts); }
    KeepRun(INITIAL, acts);
  }

  /** Once the manager is destroyed every invocation ever made is completed. */
  lemma NoneLeftWhenDestroyed(acts: seq<Action>, n: nat)
    requires Legal(INITIAL, acts) && n < Exec(INITIAL, acts).issued
    requires Clashless(INITIAL, acts) || Exec(INITIAL, acts).issued <= TWO_TO_32
    requires !Exec(INITIAL, acts).alive
    ensures n in Exec(INITIAL, acts).done
  {
    Conserved(acts, n);
    if Exec(INITIAL, acts).issued <= TWO_TO_32 { BoundedIsClashless(INITIAL, acts); }
    KeepRun(INITIAL, acts);
  }

  /** The first completion is final, whatever comes after it. */
  lemma {:induction false} FirstCompletionIsFinal(s: Hub, acts: seq<Action>, n: nat)
    requires Legal(s, acts) && n in s.done
    ensures n in Exec(s, acts).done && Exec(s, acts).done[n] == s.done[n]
    decreases |acts|
  {
    if acts != [] {
      FirstCompletionIsFinal(Do(s, acts[0]), acts[1..], n);
    }
  }

  predicate Unrun(acts: seq<Action>, call: nat) {
    forall i | 0 <= i < |acts| :: acts[i] != RunCallback(call)
  }

  /** A callback copied out of the map waits until its thread runs it. */
  lemma {:induction false} CallWaits(s: Hub, acts: seq<Action>, call: nat)
    requires Legal(s, acts) && call in s.calls && Unrun(acts, call)
    ensures call in Exec(s, acts).calls && Exec(s, acts).calls[call] == s.calls[call]
    decreases |acts|
  {
    if acts != [] {
      assert acts[0] != RunCallback(call);
      CallWaits(Do(s, acts[0]), acts[1..], call);
    }
  }

  lemma RunAnswers(s: Hub, call: nat)
    requires call in s.calls
    ensures var t := DoRunCallback(s, call);
            && Answers(s.calls[call].message, s.calls[call].invocation, s.done, t.done, s.reports, t.reports)
            && t == s.(calls := s.calls - {call}, done := t.done, reports := t.reports)
  {
    ReactSays(s.calls[call].message);
    UnregistersOnlyCompleted(s.calls[call].message, "");
    hide React, Says, Reports;
  }

  /** A message that names a registered invocation is answered when its callback runs, whatever other threads have done
      since the receipt. */
  lemma MessageIsAnswered(s: Hub, id: string, message: Json, call: nat, acts: seq<Action>)
    requires Can(s, Receive(id, message, call)) && id in s.callbacks
    requires Legal(DoReceive(s, id, message, call), acts) && Unrun(acts, call)
    ensures var t := Exec(DoReceive(s, id, message, call), acts);
            && Can(t, RunCallback(call))
            && var u := Do(t, RunCallback(call));
               && Answers(message, s.callbacks[id], t.done, u.done, t.reports, u.reports)
               && u == t.(calls := t.calls - {call}, done := u.done, reports := u.reports)
    ensures Goes(message, ToInvocation(id))
  {
    hide Answers;
    CallWaits(DoReceive(s, id, message, call), acts, call);
    RunAnswers(Exec(DoReceive(s, id, message, call), acts), call);
    RouteGoes(message);
    hide React, Goes, Route, IsProgress;
  }

  // ---- Where completions come from ----

  /** Callbacks are kept under the id of their invocation, and a message that waits for its callback names it. */
  ghost predicate Addressed(s: Hub) {
    && (forall k | k in s.callbacks :: k == CallbackId(s.callbacks[k]))
    && (forall c | c in s.calls :: Goes(s.calls[c].message, ToInvocation(CallbackId(s.calls[c].invocation))))
  }

  lemma KeepAddressed(s: Hub, a: Action)
    requires Addressed(s) && Can(s, a)
    ensures Addressed(Do(s, a))
  {
    hide CallbackId, Goes, Route, React;
    if a.Receive? { RouteGoes(a.message); }
  }

  /** The step completes invocation `n` with `c`: its request failed, a message naming it says so, or it was still
      registered when all were given up for a reason. */
  ghost predicate Causes(s: Hub, a: Action, n: nat, c: Completion)
    requires Can(s, a)
  {
    match a
    case SendFails(m) => m == n && c == SendFailure
    case RunCallback(call) =>
      && s.calls[call].invocation == n && Says(s.calls[call].message, c)
      && Goes(s.calls[call].message, ToInvocation(CallbackId(n)))
    case Clear(reason) => n in s.callbacks.Values && c == Error(Text(reason))
    case Destroy =>
      && n in s.callbacks.Values
      && c == Error(Text("connection went out of scope before invocation result was received"))
    case _ => false
  }

  lemma CompletedByStep(s: Hub, a: Action, n: nat)
    requires Addressed(s) && Can(s, a) && n !in s.done && n in Do(s, a).done
    ensures Causes(s, a, n, Do(s, a).done[n])
  {
    hide CallbackId, Goes, Route, React, Says;
    if a.RunCallback? { ReactSays(s.calls[a.call].message); }
  }

  ghost predicate CausedIn(s: Hub, acts: seq<Action>, n: nat, c: Completion)
    requires Legal(s, acts)
    decreases |acts|
  {
    acts != [] && (Causes(s, acts[0], n, c) || CausedIn(Do(s, acts[0]), acts[1..], n, c))
  }

  lemma {:induction false} Caused(s: Hub, acts: seq<Action>, n: nat)
    requires Addressed(s) && Legal(s, acts) && n !in s.done && n in Exec(s, acts).done
    ensures CausedIn(s, acts, n, Exec(s, acts).done[n])
    decreases |acts|
  {
    hide Addressed, Causes, Do, Can;
    var s' := Do(s, acts[0]);
    KeepAddressed(s, acts[0]);
    if n in s'.done {
      CompletedByStep(s, acts[0], n);
      FirstCompletionIsFinal(s', acts[1..], n);
    } else {
      Caused(s', acts[1..], n);
    }
  }

  /** Every completion has a cause in the run that says just that. */
  lemma CompletionHasCause(acts: seq<Action>, n: nat)
    requires Legal(INITIAL, acts) && n in Exec(INITIAL, acts).done
    ensures CausedIn(INITIAL, acts, n, Exec(INITIAL, acts).done[n])
  {
    Caused(INITIAL, acts, n);
  }

  /** `clear` gives every registered invocation up: those that were not complete fail with its reason, none stays
      registered, and nothing else changes. */
  lemma ClearFailsRegistered(s: Hub, reason: string, n: nat)
    requires Can(s, Clear(reason))
    ensures var t := Do(s, Clear(reason));
            && t.callbacks == map[] && t.calls == s.calls && t.reports == s.reports
            && (n in t.done <==> n in s.done || n in s.callbacks.Values)
            && (n in s.done ==> t.done[n] == s.done[n])
            && (n in s.callbacks.Values && n !in s.done ==> t.done[n] == Error(Text(reason)))
  {
  }

  /** An invocation whose request failed is complete, and once it is removed no message reaches it any more. */
  lemma FailedSendIsForgotten(acts: seq<Action>, n: nat)
    requires Legal(INITIAL, acts) && Can(Exec(INITIAL, acts), Unregister(n)) && Exec(INITIAL, acts).alive
    requires Clashless(INITIAL, acts) || Exec(INITIAL, acts).issued <= TWO_TO_32
    ensures var s := Exec(INITIAL, acts);
            n in s.done && CallbackId(n) !in Do(s, Unregister(n)).callbacks
  {
    if Exec(INITIAL, acts).issued <= TWO_TO_32 { BoundedIsClashless(INITIAL, acts); }
    KeepRun(INITIAL, acts);
    hide CallbackId, Legal, Exec, Clashless;
  }

  /** A progress message without "R" completes and unregisters nothing: neither its receipt does, nor its callback, after
      whatever other threads have done in between; its data is reported. */
  lemma ProgressCompletesNothing(s: Hub, id: string, message: Json, call: nat, acts: seq<Action>)
    requires Can(s, Receive(id, message, call)) && IsProgress(message) && !HasField(message, "R") && id in s.callbacks
    requires Legal(DoReceive(s, id, message, call), acts) && Unrun(acts, call)
    ensures DoReceive(s, id, message, call).done == s.done && DoReceive(s, id, message, call).callbacks == s.callbacks
    ensures var t := Exec(DoReceive(s, id, message, call), acts);
            && call in t.calls && DoRunCallback(t, call).callbacks == t.callbacks && DoRunCallback(t, call).done == t.done
            && exists data :: Reports(message, data)
                              && DoRunCallback(t, call).reports == t.reports + [(s.callbacks[id], data)]
  {
    MessageIsAnswered(s, id, message, call, acts);
    var t := Exec(DoReceive(s, id, message, call), acts);
    var u := Do(t, RunCallback(call));
    hide React, IdOf, Route, Reports, Legal, Exec, DoReceive;
    assert u.reports == t.reports + [u.reports[|t.reports|]];
  }

  /** A callback that will complete its invocation waits, or has completed it. */
  lemma {:induction false} CompletesWhenRun(s: Hub, acts: seq<Action>, call: nat)
    requires Legal(s, acts) && call in s.calls && React(s.calls[call].message).Completes?
    ensures var t, n := Exec(s, acts), s.calls[call].invocation;
            n in t.done || (call in t.calls && t.calls[call] == s.calls[call])
    decreases |acts|
  {
    hide React, Do, Can;
    if acts != [] {
      var s', n := Do(s, acts[0]), s.calls[call].invocation;
      CompletesOrWaits(s, acts[0], call);
      if n in s'.done {
        FirstCompletionIsFinal(s', acts[1..], n);
      } else {
        CompletesWhenRun(s', acts[1..], call);
      }
    }
  }

  lemma CompletesOrWaits(s: Hub, a: Action, call: nat)
    requires Can(s, a) && call in s.calls && React(s.calls[call].message).Completes?
    ensures var t, n := Do(s, a), s.calls[call].invocation;
            n in t.done || (call in t.calls && t.calls[call] == s.calls[call])
  {
    hide React, Route, CallbackId;
  }

  /** A message that is no progress unregisters the invocation its id names and completes it: whatever other threads do
      after the receipt, the invocation is complete or the callback still waits, and running it completes it with what
      the message says, unless it was complete already. */
  lemma ReplyCompletes(s: Hub, id: string, message: Json, call: nat, acts: seq<Action>)
    requires Inv(s) && Can(s, Receive(id, message, call)) && !IsProgress(message) && id in s.callbacks
    requires Legal(DoReceive(s, id, message, call), acts)
    ensures React(message).Completes? && !Registered(DoReceive(s, id, message, call), s.callbacks[id])
    ensures var n, t := s.callbacks[id], Exec(DoReceive(s, id, message, call), acts);
            || n in t.done
            || (call in t.calls && t.calls[call] == Call(n, message)
                && var done := DoRunCallback(t, call).done;
                   n in done && Says(message, done[n]) && done == t.done[n := done[n]])
  {
    UnregistersOnlyCompleted(message, "");
    ReactSays(message);
    hide React, Says;
    CompletesWhenRun(DoReceive(s, id, message, call), acts, call);
  }

  // ---- A clash happens ----

  ghost predicate Reachable(s: Hub) {
    exists acts :: Legal(INITIAL, acts) && Exec(INITIAL, acts) == s
  }

  lemma {:induction false} Append(s: Hub, acts: seq<Action>, a: Action)
    requires Legal(s, acts) && Can(Exec(s, acts), a)
    ensures Legal(s, acts + [a]) && Exec(s, acts + [a]) == Do(Exec(s, acts), a)
    decreases |acts|
  {
    if acts == [] {
      assert [] + [a] == [a] && [a][1..] == [];
      assert Legal(Do(s, a), []);
    } else {
      Append(Do(s, acts[0]), acts[1..], a);
      assert (acts + [a])[1..] == acts[1..] + [a];
    }
  }

  lemma Then(s: Hub, a: Action) returns (s': Hub)
    requires Reachable(s) && Can(s, a)
    ensures Reachable(s') && s' == Do(s, a)
  {
    var acts :| Legal(INITIAL, acts) && Exec(INITIAL, acts) == s;
    Append(INITIAL, acts, a);
    s' := Do(s, a);
  }

  lemma InitiallyReachable()
    ensures Reachable(INITIAL)
  {
    assert Legal(INITIAL, []) && Exec(INITIAL, []) == INITIAL;
  }

  /** `n` invocations were made; only the first one is still waiting for its result. */
  ghost predicate OnlyFirst(s: Hub, n: nat) {
    s.issued == n && s.callbacks == map[CallbackId(0) := 0] && s.calls == map[] && s.alive
  }

  function Reply(id: string): Json {
    Object(map["I" := Text(id)])
  }

  lemma FirstRound() returns (s: Hub)
    ensures Reachable(s) && OnlyFirst(s, 1)
  {
    hide Reachable, CallbackId;
    InitiallyReachable();
    s := Then(INITIAL, Issue);
    s := Then(s, Insert(0));
  }

  lemma ReplyFacts(id: string)
    ensures Route(Reply(id)) == ToInvocation(id) && !IsProgress(Reply(id))
    ensures React(Reply(id)) == Completes(Result(Null))
  {
  }

  /** One more invocation is made and answered. */
  lemma NextRound(s: Hub, n: nat) returns (s': Hub)
    requires Reachable(s) && OnlyFirst(s, n) && 0 < n < TWO_TO_32
    ensures Reachable(s') && OnlyFirst(s', n + 1)
  {
    hide Reachable, CallbackId, Route, React, IsProgress, Reply;
    ConsecutiveIdsDistinct(0, n);
    var id := CallbackId(n);
    ReplyFacts(id);
    var s1 := Then(s, Issue);
    var s2 := Then(s1, Insert(n));
    assert s2.callbacks == map[CallbackId(0) := 0, id := n];
    var s3 := Then(s2, Receive(id, Reply(id), 0));
    assert s3.callbacks == map[CallbackId(0) := 0] && s3.calls == map[0 := Call(n, Reply(id))];
    s' := Then(s3, RunCallback(0));
  }

  lemma {:induction false} Rounds(n: nat) returns (s: Hub)
    requires 0 < n <= TWO_TO_32
    ensures Reachable(s) && OnlyFirst(s, n)
    decreases n
  {
    if n == 1 {
      s := FirstRound();
    } else {
      s := Rounds(n - 1);
      s := NextRound(s, n - 1);
    }
  }

  /** The invocation after 2^32 others, of which the first was never answered, is not registered: nobody will call it
      back. */
  lemma ClashHappens() returns (s: Hub, n: nat)
    ensures Reachable(s) && Can(s, Insert(n)) && !NoClash(s, Insert(n))
    ensures !Registered(Do(s, Insert(n)), n)
  {
    hide Reachable, CallbackId;
    n := TWO_TO_32;
    s := Rounds(n);
    SameIdAfterAll();
    s := Then(s, Issue);
  }

  lemma SameIdAfterAll()
    ensures CallbackId(TWO_TO_32) == CallbackId(0)
  {
    hide CallbackId;
    IdsRepeat(TWO_TO_32, 0);
  }
}
