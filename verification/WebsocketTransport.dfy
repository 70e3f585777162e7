/** `websocket_transport` as an object whose methods update its token, its client and its loops, each between two
    points where other threads may run. */
module WebsocketTransport {
  import opened Frames
  import T = Transport

  datatype Connect = Threw | Launched(loop: nat)

  class WebsocketTransport {
    /** The loops created so far with their tokens. */
    var loops: seq<T.Loop>
    /** `m_receive_loop_cts`: the loop whose token it is. */
    var receiveLoopCts: nat
    /** `m_websocket_client`: the loop it was created for. */
    var websocketClient: nat
    /** `m_start_stop_lock` is held by a `connect`. */
    var connecting: bool

    ghost function View(): T.Wire
      reads this
    {
      T.Wire(loops, receiveLoopCts, websocketClient, connecting)
    }

    ghost predicate Valid()
      reads this
    {
      T.Inv(View())
    }

    /** Lines 19-27. */
    constructor ()
      ensures View() == T.FRESH_WIRE && Valid()
    {
      loops, receiveLoopCts, websocketClient, connecting := [T.CONSTRUCTED_LOOP], 0, 0, false;
    }

    /** `connect` up to the return of `websocket_client->connect` (49-91). */
    method BeginConnect() returns (result: Connect)
      requires Valid() && !connecting
      modifies this
      ensures Valid()
      ensures result.Threw? <==> old(T.Live(View()))
      ensures result.Threw? ==> View() == old(View())
      ensures result.Launched? ==> View() == T.Do(old(View()), T.BeginConnect) && result.loop == |old(loops)|
    {
      T.KeepAll(View());
      if loops[receiveLoopCts].live {
        return Threw;
      }
      result := Launched(|loops|);
      websocketClient := |loops|;
      loops := loops + [T.FRESH_LOOP];
      connecting := true;
    }

    /** Line 93 and the end of the lock, whatever the continuation has done meanwhile. */
    method EndConnect()
      requires Valid() && connecting
      modifies this
      ensures Valid() && View() == T.Do(old(View()), T.EndConnect)
    {
      T.KeepAll(View());
      receiveLoopCts := |loops| - 1;
      connecting := false;
    }

    /** `disconnect` (110-124); `closed` is the client it closes, if any. */
    method Disconnect() returns (cancelled: bool, closed: nat)
      requires Valid() && !connecting
      modifies this
      ensures Valid() && View() == T.Do(old(View()), T.Disconnect)
      ensures cancelled == old(T.Live(View()))
      ensures cancelled ==> closed == old(receiveLoopCts)
      ensures forall n | 0 <= n < |loops| :: !loops[n].live
    {
      T.KeepAll(View());
      if !loops[receiveLoopCts].live {
        assert loops[receiveLoopCts := loops[receiveLoopCts].(live := false)] == loops;
        return false, 0;
      }
      loops := loops[receiveLoopCts := loops[receiveLoopCts].(live := false)];
      return true, websocketClient;
    }

    /** The continuation of the dial (73-91); `entered` is false if the dial failed or `receive_loop` threw. */
    method OnDialled(n: nat, entered: bool)
      requires Valid() && n < |loops| && loops[n].dial == T.Dialing
      modifies this
      ensures Valid()
      ensures View() == if entered then T.Do(T.Do(old(View()), T.Open(n)), T.Announce(n)) else T.Do(old(View()), T.Refuse(n))
    {
      T.KeepAll(View());
      if entered {
        T.KeepAll(T.Do(View(), T.Open(n)));
        ReceiveLoop(n);
        loops := loops[n := loops[n].(dial := T.Announced)];
      } else {
        loops := loops[n := loops[n].(live := false, dial := T.Refused, phase := T.Ended)];
      }
    }

    /** Entering `receive_loop` from the dial (144-157). */
    method ReceiveLoop(n: nat)
      requires Valid() && n < |loops| && loops[n].dial == T.Dialing
      modifies this
      ensures Valid() && View() == T.Do(old(View()), T.Open(n))
    {
      T.KeepAll(View());
      loops := loops[n := loops[n].(dial := T.Opened, phase := T.Receiving, client := websocketClient)];
    }

    /** The guarded continuation (162-174): takes the frame, hands it on, and goes on receiving unless cancelled. */
    method OnReceived(n: nat) returns (frame: Frame)
      requires Valid() && n < |loops| && T.Can(View(), T.Take(n))
      modifies this
      ensures Valid() && frame == old(loops[n].sent[loops[n].taken])
      ensures View() == T.Do(T.Do(T.Do(old(View()), T.Take(n)), T.Hand(n)), T.Resume(n))
      ensures loops[n].handed == old(loops[n].handed) + [frame]
    {
      var l := loops[n];
      T.KeepAll(View());
      T.KeepAll(T.Do(View(), T.Take(n)));
      T.KeepAll(T.Do(T.Do(View(), T.Take(n)), T.Hand(n)));
      frame := l.sent[l.taken];
      l := l.(taken := l.taken + 1, handed := l.handed + [frame]);
      if l.live {
        l := l.(phase := T.Receiving, client := websocketClient);
      } else {
        l := l.(phase := T.Ended);
      }
      loops := loops[n := l];
    }

    /** The observer after a failed `receive()` (190-210 or 212-232), with the error callback. */
    method OnFailed(n: nat)
      requires Valid() && T.Can(View(), T.Fault(n))
      modifies this
      ensures Valid() && View() == T.Do(T.Do(old(View()), T.Fault(n)), T.Report(n))
      ensures loops[n].errors == 1 && !loops[n].live
    {
      T.KeepAll(View());
      T.KeepAll(T.Do(View(), T.Fault(n)));
      assert T.LoopOk(loops[n]);
      loops := loops[n := loops[n].(live := false, phase := T.Ended, errors := loops[n].errors + 1)];
    }
  }
}
