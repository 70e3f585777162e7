/** `hub_connection_impl` over its callback manager and its proxies, used by one thread: what each call does to the
    registered callbacks and to the invocations. `done` holds the completion events that are set, `reports` the calls of
    `on_progress`; `events` are the invocations of events on proxies. */
module HubConnection {
  import opened CallbackIds
  import opened CallbackManager
  import opened CaseInsensitive
  import opened HubMessages
  import H = HubInvocations

  /** What running a callback does to the completions. */
  function After(done: map<nat, Completion>, call: Call): map<nat, Completion> {
    match React(call.arguments)
    case Completes(completion) => H.Complete(done, call.invocation, completion)
    case Progress(_) => done
  }

  /** What it does to the progress reports. */
  function Reported(reports: seq<(nat, Json)>, call: Call): seq<(nat, Json)> {
    match React(call.arguments)
    case Completes(_) => reports
    case Progress(data) => reports + [(call.invocation, data)]
  }

  /** Both are what the fields of the message say. */
  lemma RunAnswers(done: map<nat, Completion>, reports: seq<(nat, Json)>, call: Call)
    ensures Answers(call.arguments, call.invocation, done, After(done, call), reports, Reported(reports, call))
  {
    ReactSays(call.arguments);
    UnregistersOnlyCompleted(call.arguments, "");
    hide React, Says, Reports;
  }

  function AfterAll(done: map<nat, Completion>, calls: seq<Call>): map<nat, Completion> {
    if calls == [] then done else After(AfterAll(done, calls[..|calls| - 1]), calls[|calls| - 1])
  }

  /** The completions after `clear` with an error (122, 280-281): every registered invocation that was not complete. */
  function ClearedDone(done: map<nat, Completion>, invocations: set<nat>, reason: string): map<nat, Completion> {
    done + map n | n in invocations && n !in done :: Error(Text(reason))
  }

  function Invocations(calls: seq<Call>): set<nat> {
    set i | 0 <= i < |calls| :: calls[i].invocation
  }

  lemma OneMoreError(done: map<nat, Completion>, invocations: set<nat>, n: nat, reason: string)
    ensures After(ClearedDone(done, invocations, reason), Call(n, Cleared(reason)))
         == ClearedDone(done, invocations + {n}, reason)
  {
    assert React(Cleared(reason)) == Completes(Error(Text(reason)));
    hide React;
  }

  lemma LastInvocation(calls: seq<Call>)
    requires calls != []
    ensures Invocations(calls) == Invocations(calls[..|calls| - 1]) + {calls[|calls| - 1].invocation}
  {
    assert forall i | 0 <= i < |calls| - 1 :: calls[i] == calls[..|calls| - 1][i];
  }

  lemma {:induction false} ErrorsAll(done: map<nat, Completion>, calls: seq<Call>, reason: string)
    requires forall i | 0 <= i < |calls| :: calls[i].arguments == Cleared(reason)
    ensures AfterAll(done, calls) == ClearedDone(done, Invocations(calls), reason)
  {
    if calls == [] {
      assert Invocations(calls) == {};
    } else {
      var init, last := calls[..|calls| - 1], calls[|calls| - 1];
      ErrorsAll(done, init, reason);
      LastInvocation(calls);
      OneMoreError(done, Invocations(init), last.invocation, reason);
      hide Invocations, ClearedDone, After;
      assert last == Call(last.invocation, Cleared(reason));
    }
  }

  /** In whatever order `clear` calls them, the callbacks are those of all registered invocations. */
  lemma AllInvocations(callbacks: map<string, nat>, order: seq<string>, arguments: Json, calls: seq<Call>)
    requires CallsAll(callbacks, order, arguments, calls)
    ensures Invocations(calls) == callbacks.Values
  {
    forall n | n in callbacks.Values
      ensures n in Invocations(calls)
    {
      var k :| k in callbacks && callbacks[k] == n;
      var i :| 0 <= i < |order| && order[i] == k;
      assert calls[i].invocation == n;
    }
  }

  /** The calls are those of all callbacks, in some order. */
  ghost predicate CallsEach(callbacks: map<string, nat>, arguments: Json, calls: seq<Call>) {
    exists order: seq<string> :: CallsAll(callbacks, order, arguments, calls)
  }

  /** Running them fails every invocation that was not complete. */
  lemma ClearsAll(done: map<nat, Completion>, callbacks: map<string, nat>, calls: seq<Call>, reason: string)
    requires CallsEach(callbacks, Cleared(reason), calls)
    ensures AfterAll(done, calls) == ClearedDone(done, callbacks.Values, reason)
  {
    var order :| CallsAll(callbacks, order, Cleared(reason), calls);
    AllInvocations(callbacks, order, Cleared(reason), calls);
    ErrorsAll(done, calls, reason);
    hide AfterAll, ClearedDone, Invocations;
  }

  class HubConnection {
    const callbackManager: CallbackManager
    const proxies: NameMap<nat>
    var done: map<nat, Completion>
    var reports: seq<(nat, Json)>
    var events: seq<(nat, string, Json)>

    ghost predicate Valid()
      reads this, callbackManager, proxies, proxies.buckets
    {
      callbackManager.Valid() && proxies.Valid()
    }

    constructor (proxies: NameMap<nat>)
      requires proxies.Valid()
      ensures Valid() && fresh(callbackManager) && this.proxies == proxies
      ensures callbackManager.callbacks == map[] && done == map[] && reports == [] && events == []
    {
      callbackManager := new CallbackManager(Cleared(H.DESTROYED));
      this.proxies, done, reports, events := proxies, map[], [], [];
    }

    /** The registration of an invocation (190-192, 207-209). */
    method Register(invocation: nat) returns (callbackId: string)
      requires Valid()
      modifies callbackManager
      ensures Valid() && callbackId == CallbackId(old(callbackManager.registered))
      ensures var before := old(callbackManager.callbacks);
              callbackManager.callbacks == if callbackId in before then before else before[callbackId := invocation]
    {
      callbackId := callbackManager.RegisterCallback(invocation);
    }

    /** The request could not be sent (238-246). */
    method SendFailed(invocation: nat, callbackId: string)
      requires Valid()
      modifies this`done, callbackManager
      ensures Valid() && done == H.Complete(old(done), invocation, SendFailure)
      ensures callbackManager.callbacks == old(callbackManager.callbacks) - {callbackId}
    {
      if invocation !in done {
        done := done[invocation := SendFailure];
      }
      var _ := callbackManager.RemoveCallback(callbackId);
    }

    /** `invoke_callback` (163-181): the callback of the invocation with the id of the message runs, if there is one,
        and stays registered only for progress. */
    method InvokeCallback(message: Json) returns (handled: bool)
      requires Valid()
      modifies this`done, this`reports, callbackManager
      ensures Valid() && handled == IdOf(message).Some?
      ensures var before := old(callbackManager.callbacks);
              if IdOf(message).Some? && IdOf(message).value in before then
                && Answers(message, before[IdOf(message).value], old(done), done, old(reports), reports)
                && callbackManager.callbacks == (if IsProgress(message) then before else before - {IdOf(message).value})
              else
                done == old(done) && reports == old(reports) && callbackManager.callbacks == before
    {
      var isProgress := HasField(message, "P");
      var idSource := if isProgress then At(message, "P") else message;
      if HasField(idSource, "I") && At(idSource, "I").Text? {
        var callbackId := At(idSource, "I").s;
        var found := callbackManager.InvokeCallback(callbackId, message, !isProgress);
        if found {
          hide React, Answers, IsProgress, IdOf;
          RunLast();
        }
        return true;
      }
      return false;
    }

    /** The call just made runs its callback (306-347). */
    method RunLast()
      requires Valid() && callbackManager.log != []
      modifies this`done, this`reports
      ensures var call := callbackManager.log[|callbackManager.log| - 1];
              Answers(call.arguments, call.invocation, old(done), done, old(reports), reports)
    {
      var call := callbackManager.log[|callbackManager.log| - 1];
      RunAnswers(done, reports, call);
      done, reports := After(done, call), Reported(reports, call);
    }

    /** `process_message` (126-161). */
    method ProcessMessage(message: Json) returns (routing: Routing)
      requires Valid()
      modifies this`done, this`reports, this`events, callbackManager
      ensures Valid() && Goes(message, routing)
      ensures !routing.ToInvocation? ==>
                done == old(done) && reports == old(reports) && callbackManager.callbacks == old(callbackManager.callbacks)
      ensures match routing
              case ToInvocation(id) =>
                var before := old(callbackManager.callbacks);
                && events == old(events)
                && (if id in before then Answers(message, before[id], old(done), done, old(reports), reports)
                    else done == old(done) && reports == old(reports))
                && callbackManager.callbacks == (if IsProgress(message) then before else before - {id})
              case ToProxy(hub, name, args) =>
                var u := Upper(proxies.up, hub);
                events == if u in proxies.contents then old(events) + [(proxies.contents[u], name, args)] else old(events)
              case _ => events == old(events)
    {
      RouteGoes(message);
      hide Goes, Answers;
      if message.Object? {
        if HasField(message, "I") {
          var handled := InvokeCallback(message);
          if handled { return ToInvocation(IdOf(message).value); }
        }
        if HasField(message, "H") && HasField(message, "M") && HasField(message, "A") {
          if !At(message, "H").Text? || !At(message, "M").Text? { return Malformed; }
          var hub, name := At(message, "H").s, At(message, "M").s;
          var proxy := proxies.Find(hub);
          if proxy.Some? {
            events := events + [(proxy.value, name, At(message, "A"))];
          }
          return ToProxy(hub, name, At(message, "A"));
        }
      }
      return Discarded;
    }

    /** `clear` of the manager calls the registered callbacks. */
    method CallAll(reason: string) returns (calls: seq<Call>)
      modifies callbackManager`callbacks, callbackManager`log
      ensures callbackManager.callbacks == map[]
      ensures CallsEach(old(callbackManager.callbacks), Cleared(reason), calls)
    {
      hide CallsAll;
      ghost var before := callbackManager.callbacks;
      var start := |callbackManager.log|;
      callbackManager.Clear(Cleared(reason));
      calls := callbackManager.log[start..];
      ghost var order :| CallsAll(before, order, Cleared(reason), calls);
    }

    /** `clear` of the manager with an error: the callbacks run one by one. */
    method ClearWith(reason: string)
      requires Valid()
      modifies this`done, callbackManager
      ensures Valid() && callbackManager.callbacks == map[]
      ensures done == ClearedDone(old(done), old(callbackManager.callbacks).Values, reason)
    {
      hide CallsEach, AfterAll, ClearedDone, Invocations;
      ghost var before := callbackManager.callbacks;
      var calls := CallAll(reason);
      ClearsAll(done, before, calls, reason);
      RunAll(calls);
    }

    /** The calls just made run their callbacks. */
    method RunAll(calls: seq<Call>)
      modifies this`done
      ensures done == AfterAll(old(done), calls)
    {
      for i := 0 to |calls|
        invariant done == AfterAll(old(done), calls[..i])
      {
        done := After(done, calls[i]);
        assert calls[..i + 1][..i] == calls[..i];
      }
      assert calls[..|calls|] == calls;
    }

    /** `stop` (120-124) before it stops the connection: every pending invocation fails, none stays registered. */
    method Stop()
      requires Valid()
      modifies this`done, callbackManager
      ensures Valid() && callbackManager.callbacks == map[]
      ensures done == ClearedDone(old(done), old(callbackManager.callbacks).Values,
                                  "connection was stopped before invocation result was received")
    {
      ClearWith("connection was stopped before invocation result was received");
    }

    /** The reconnecting callback (275-285) before it calls the one of the user. */
    method Reconnecting(alive: bool)
      requires Valid()
      modifies this`done, callbackManager
      ensures Valid()
      ensures alive ==> callbackManager.callbacks == map[]
                        && done == ClearedDone(old(done), old(callbackManager.callbacks).Values, "connection has been lost")
      ensures !alive ==> callbackManager.callbacks == old(callbackManager.callbacks) && done == old(done)
    {
      if alive {
        ClearWith("connection has been lost");
      }
    }
  }
}
