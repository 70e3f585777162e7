/** The `InitHandler` of one start and the closure of `initialize`, as the object they are: each method does the
    matching step of `TransportFallback`. */
module InitHandler {
  import opened TransportFallback

  class InitHandler {
    const transports: nat
    var state: State
    var attempts: seq<Attempt>
    var startRequested: bool
    var startCompleted: bool
    var connectionStopped: bool
    var request: Request
    ghost var h: Handler

    /** The fields are those of `h`, which also counts what happened. */
    ghost predicate Means()
      reads this
    {
      && h.transports == transports && h.state == state && h.attempts == attempts && h.request == request
      && h.startRequested == startRequested && h.startCompleted == startCompleted
      && h.connectionStopped == connectionStopped
    }

    ghost predicate Valid()
      reads this
    {
      Means() && Inv(h)
    }

    constructor (transports: nat)
      ensures Valid() && h == New(transports)
    {
      this.transports := transports;
      state, attempts, request := Connecting, [], NotSent;
      startRequested, startCompleted, connectionStopped := false, false, false;
      h := Handler(transports, Connecting, [], false, false, false, false, false, NotSent, 0, 0);
      new;
      NewKept(transports);
      Initialize(0);
    }

    /** `initialize` (553-640). */
    method Initialize(index: nat)
      requires Means()
      modifies this
      ensures Means() && h == TransportFallback.Initialize(old(h), index)
    {
      if index >= transports {
        h := h.(exhausted := true);
        StopConnection();
      } else if state != Disconnected {
        Start(index);
      }
    }

    /** `InitHandler.start` (1057-1072). */
    method Start(index: nat)
      requires Means()
      modifies this
      ensures Means() && h == StartTransport(old(h), index)
    {
      if !startRequested && !connectionStopped {
        attempts := attempts + [Attempt(index, false, true, true)];
        h := StartTransport(h, index);
      }
    }

    /** `connection.stop` up to the stop of the handler (900-930). */
    method StopConnection()
      requires Means()
      modifies this
      ensures Means() && h == BeginStop(old(h))
    {
      h := BeginStop(h);
      state := Disconnected;
    }

    /** `InitHandler.stop` (1089-1093). */
    method Stop()
      requires Valid() && h.stopping
      modifies this
      ensures Valid() && h == EndStop(old(h))
    {
      hide Inv;
      Keep(h, DoEndStop);
      ghost var after := EndStop(h);
      connectionStopped := true;
      ClearTimeout();
      if request == InFlight { request := Over; }
      h := after;
    }

    method ClearTimeout()
      modifies this`attempts
      ensures attempts == ClearTimer(old(h).(attempts := old(attempts))).attempts
    {
      if attempts != [] {
        attempts := attempts[|attempts| - 1 := attempts[|attempts| - 1].(timer := false)];
      }
    }

    /** The transport of attempt `k` reports a failure (1076-1082). */
    method OnFailed(k: nat)
      requires Valid() && k < |attempts|
      modifies this
      ensures Valid() && h == Fail(old(h), k)
    {
      hide Inv, TransportFallback.TransportFailed;
      KeepFail(h, k);
      if !attempts[k].failCalled {
        attempts := attempts[k := attempts[k].(failCalled := true)];
        h := Update(h, k, h.attempts[k].(failCalled := true));
        TransportFailed(attempts[k].index);
      }
    }

    /** The timeout of attempt `k` expires (1064-1070). */
    method OnTimeout(k: nat)
      requires Valid() && k < |attempts| && attempts[k].timer
      modifies this
      ensures Valid() && h == Timeout(old(h), k)
    {
      hide Inv, TransportFallback.TransportFailed;
      KeepTimeout(h, k);
      attempts := attempts[k := attempts[k].(timer := false)];
      h := Update(h, k, h.attempts[k].(timer := false));
      if !attempts[k].failCalled {
        attempts := attempts[k := attempts[k].(failCalled := true)];
        h := Update(h, k, h.attempts[k].(failCalled := true));
        TransportFailed(attempts[k].index);
      }
    }

    /** `transportFailed` (1118-1150). */
    method TransportFailed(index: nat)
      requires Means()
      modifies this
      ensures Means() && h == TransportFallback.TransportFailed(old(h), index)
    {
      hide TransportFallback.Initialize, TransportFallback.BeginStop;
      if !connectionStopped {
        ClearTimeout();
        h := ClearTimer(h);
        if !startRequested {
          h := h.(fallbacks := h.fallbacks + 1);
          Initialize(index + 1);
        } else if !startCompleted {
          StopConnection();
        }
      }
    }

    /** The transport of attempt `k` reports init (1072-1075, 1095-1112). */
    method OnInit(k: nat) returns (ajaxStart: bool)
      requires Valid() && k < |attempts|
      modifies this
      ensures Valid() && h == Init(old(h), k)
      ensures ajaxStart <==> h.requests > old(h).requests
    {
      hide Inv;
      KeepInit(h, k);
      ghost var after := Init(h, k);
      ajaxStart := !attempts[k].failCalled && !startRequested && !connectionStopped;
      if ajaxStart {
        startRequested := true;
        ClearTimeout();
        request := InFlight;
      }
      h := after;
    }

    /** The start request succeeds (1112-1115, 588-634). */
    method OnStarted()
      requires Valid() && request == InFlight
      modifies this
      ensures Valid() && h == RequestSucceeds(old(h))
    {
      Keep(h, DoRequestSucceeds);
      startCompleted, request := true, Over;
      if state == Connecting { state := Connected; }
      h := RequestSucceeds(h);
    }

    /** The start request fails (1421-1472). */
    method OnStartFailed()
      requires Valid() && request == InFlight
      modifies this
      ensures Valid() && h == RequestFails(old(h))
    {
      hide Inv;
      Keep(h, DoRequestFails);
      request := Over;
      h := h.(request := Over);
      StopConnection();
    }
  }
}
