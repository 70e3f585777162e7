/** `callback_manager`: a map of callbacks under a lock. A callback is named by the invocation it was made for; the
    log records the calls made, in order. */
module CallbackManager {
  import opened HubMessages
  import opened CallbackIds

  datatype Call = Call(invocation: nat, arguments: Json)

  class CallbackManager {
    var id: Int32
    var callbacks: map<string, nat>
    var log: seq<Call>
    const dtorClearArguments: Json
    /** Registrations so far. */
    ghost var registered: nat

    ghost predicate Valid()
      reads this
    {
      id == Counter(registered)
    }

    constructor (dtorClearArguments: Json)
      ensures Valid() && registered == 0 && callbacks == map[] && log == []
      ensures this.dtorClearArguments == dtorClearArguments
    {
      this.dtorClearArguments := dtorClearArguments;
      id, callbacks, log, registered := 0, map[], [], 0;
    }

    /** `get_callback_id` (84-90). */
    method GetCallbackId() returns (callbackId: string)
      requires Valid()
      modifies this`id, this`registered
      ensures Valid() && callbackId == CallbackId(old(registered)) && registered == old(registered) + 1
    {
      callbackId := Decimal(id);
      id := Increment(id);
      registered := registered + 1;
    }

    /** `register_callback` (21-32); `insert` keeps an older callback with the same id. */
    method RegisterCallback(callback: nat) returns (callbackId: string)
      requires Valid()
      modifies this`id, this`registered, this`callbacks
      ensures Valid() && callbackId == CallbackId(old(registered)) && registered == old(registered) + 1
      ensures callbacks == if callbackId in old(callbacks) then old(callbacks) else old(callbacks)[callbackId := callback]
    {
      callbackId := GetCallbackId();
      if callbackId !in callbacks {
        callbacks := callbacks[callbackId := callback];
      }
    }

    /** `invoke_callback` (36-59). */
    method InvokeCallback(callbackId: string, arguments: Json, removeCallback: bool) returns (found: bool)
      modifies this`callbacks, this`log
      ensures found == (callbackId in old(callbacks))
      ensures callbacks == if removeCallback then old(callbacks) - {callbackId} else old(callbacks)
      ensures log == if found then old(log) + [Call(old(callbacks)[callbackId], arguments)] else old(log)
    {
      if callbackId !in callbacks {
        assert callbacks - {callbackId} == callbacks;
        return false;
      }
      var callback := callbacks[callbackId];
      if removeCallback {
        callbacks := callbacks - {callbackId};
      }
      log := log + [Call(callback, arguments)];
      return true;
    }

    /** `remove_callback` (61-68). */
    method RemoveCallback(callbackId: string) returns (removed: bool)
      modifies this`callbacks
      ensures removed == (callbackId in old(callbacks)) && callbacks == old(callbacks) - {callbackId}
    {
      removed := callbackId in callbacks;
      callbacks := callbacks - {callbackId};
    }

    /** `clear` (70-82): every registered callback is called exactly once with the arguments, in some order, and none
        stays registered. */
    method Clear(arguments: Json)
      modifies this`callbacks, this`log
      ensures callbacks == map[] && old(log) <= log
      ensures |log| == |old(log)| + |old(callbacks)|
      ensures exists order: seq<string> :: CallsAll(old(callbacks), order, arguments, log[|old(log)|..])
    {
      var pending := callbacks.Keys;
      ghost var order: seq<string> := [];
      ghost var before, calls := callbacks, [];
      assert pending == before.Keys - (set k | k in order);
      while pending != {}
        invariant log == old(log) + calls && callbacks == before
        invariant pending <= before.Keys && |pending| + |order| == |before|
        invariant forall k :: k in order <==> k in before && k !in pending
        invariant Distinct(order) && |calls| == |order|
        invariant forall i | 0 <= i < |order| :: order[i] in before && calls[i] == Call(before[order[i]], arguments)
        decreases |pending|
      {
        var key :| key in pending;
        log := log + [Call(callbacks[key], arguments)];
        calls, order := calls + [Call(before[key], arguments)], order + [key];
        pending := pending - {key};
      }
      callbacks := map[];
      assert log[|old(log)|..] == calls;
      assert CallsAll(before, order, arguments, calls);
    }

    /** The destructor (15-18). */
    method Destroy()
      modifies this`callbacks, this`log
      ensures callbacks == map[] && old(log) <= log
      ensures exists order: seq<string> :: CallsAll(old(callbacks), order, dtorClearArguments, log[|old(log)|..])
    {
      Clear(dtorClearArguments);
    }
  }

  predicate Distinct(keys: seq<string>) {
    forall i, j | 0 <= i < j < |keys| :: keys[i] != keys[j]
  }

  /** The calls are those of all callbacks, each once, in the given order of their keys. */
  ghost predicate CallsAll(callbacks: map<string, nat>, order: seq<string>, arguments: Json, calls: seq<Call>) {
    && Distinct(order) && |calls| == |order|
    && (forall k :: k in order <==> k in callbacks)
    && forall i | 0 <= i < |order| :: order[i] in callbacks && calls[i] == Call(callbacks[order[i]], arguments)
  }
}
