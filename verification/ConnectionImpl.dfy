/** The sections of `connection_impl` that run without interruption, as methods on its fields. Each leaves the fields
    in the state that the corresponding step of the protocol computes. */
module ConnectionImpl {
  import opened Wrappers
  import opened Frames
  import P = Protocol
  import R = ProtocolRuns
  import Th = ProtocolTheorems

  /** A cancellation token source; copies share the flag. */
  class TokenSource {
    var canceled: bool

    constructor ()
      ensures !canceled
    {
      canceled := false;
    }

    method Cancel()
      modifies this
      ensures canceled
    {
      canceled := true;
    }
  }

  /** What `shutdown` does under the lock before it waits. */
  datatype Shutdown = Finished | CanceledTask | Waits

  class ConnectionImpl {
    var state: P.ConnState
    var transport: Option<nat>
    var disconnectCts: TokenSource
    var startCompleted: bool
    var connectionToken: Option<nat>
    var messageId: string
    var groupsToken: string
    /** The sources that were in `disconnectCts` so far; the position of a source is its generation. */
    ghost var sources: seq<TokenSource>
    /** The task that holds the lock while it waits. */
    ghost var lock: Option<nat>

    ghost predicate Valid()
      reads this
    {
      && sources != [] && disconnectCts == sources[|sources| - 1]
      && forall i, j | 0 <= i < j < |sources| :: sources[i] != sources[j]
    }

    ghost function Cancelled(): (r: set<nat>)
      reads this, sources
      ensures forall g: nat :: g in r <==> g < |sources| && sources[g].canceled
    {
      set g: nat | g < |sources| && sources[g].canceled
    }

    ghost function View(): P.Connection
      requires Valid()
      reads this, sources
    {
      P.Connection(state, transport, |sources| - 1, Cancelled(), startCompleted, lock, connectionToken,
                   Cursor(messageId, groupsToken))
    }

    /** Lines 38-44. */
    constructor ()
      ensures Valid() && fresh(disconnectCts) && fresh(sources) && View() == P.INITIAL.c
    {
      state, transport, startCompleted, connectionToken := P.Disconnected, None, false, None;
      messageId, groupsToken := "", "";
      var source := new TokenSource();
      disconnectCts, sources, lock := source, [source], None;
    }

    /** `change_state(old, new)`, a compare and exchange (815-824). */
    method ChangeState(oldState: P.ConnState, newState: P.ConnState) returns (changed: bool)
      requires Valid()
      modifies this`state
      ensures Valid() && changed == (old(state) == oldState)
      ensures View() == P.ChangeState(old(View()), oldState, newState)
    {
      if state == oldState {
        state := newState;
        return true;
      }
      return false;
    }

    /** `change_state(new)`, an unconditional exchange (826-835). */
    method ExchangeState(newState: P.ConnState) returns (oldState: P.ConnState)
      requires Valid()
      modifies this`state
      ensures Valid() && oldState == old(state) && View() == old(View()).(state := newState)
    {
      oldState := state;
      state := newState;
    }

    /** The lock section of `start` (79-92). */
    method BeginStart() returns (admitted: bool)
      requires Valid()
      modifies this
      ensures Valid() && admitted == (old(state) == P.Disconnected)
      ensures View() == P.StartSection(old(View()))
      ensures admitted ==> fresh(disconnectCts) && sources == old(sources) + [disconnectCts]
    {
      admitted := ChangeState(P.Disconnected, P.Connecting);
      if admitted {
        RenewSource();
        startCompleted := false;
        messageId, groupsToken, connectionToken := "", "", None;
      }
    }

    /** Line 89: a fresh source; what was cancelled stays cancelled. */
    method RenewSource()
      requires Valid()
      modifies this`disconnectCts, this`sources
      ensures Valid() && fresh(disconnectCts) && sources == old(sources) + [disconnectCts]
      ensures Cancelled() == old(Cancelled())
    {
      var source := new TokenSource();
      disconnectCts := source;
      sources := sources + [source];
      assert forall g: nat :: g in Cancelled() <==> g in old(Cancelled());
    }

    /** Lines 136-145: the completion of a start. `consistent` is what the assert at 142 checks. */
    method CompleteStart() returns (consistent: bool)
      requires Valid()
      modifies this`state, this`startCompleted
      ensures Valid() && consistent == (old(state) == P.Connecting)
      ensures View() == P.ChangeState(old(View()), P.Connecting, P.Connected).(event := true)
    {
      consistent := ChangeState(P.Connecting, P.Connected);
      startCompleted := true;
    }

    /** Lines 163-165. */
    method FailStart()
      requires Valid()
      modifies this`state, this`transport, this`startCompleted
      ensures Valid() && View() == P.FailSection(old(View())).(event := true)
    {
      transport := None;
      var _ := ExchangeState(P.Disconnected);
      startCompleted := true;
    }

    /** Lines 453-473, in task `id`. */
    method EnterShutdown(ghost id: nat) returns (outcome: Shutdown)
      requires Valid() && lock == None
      modifies this`lock, disconnectCts
      ensures Valid() && View() == P.ShutdownSection(old(View()), id)
      ensures outcome.Finished? <==> state == P.Disconnected
      ensures outcome.CanceledTask? <==> state == P.Disconnecting
      ensures outcome.Waits? <==> lock == Some(id)
    {
      if state == P.Disconnected { return Finished; }
      if state == P.Disconnecting { return CanceledTask; }
      disconnectCts.Cancel();
      lock := Some(id);
      assert forall g: nat :: g in Cancelled() <==> g in old(Cancelled()) || g == |sources| - 1;
      return Waits;
    }

    /** Lines 483-491: `closing` tells whether `shutdown` goes on to use the transport. */
    method CommitShutdown() returns (closing: bool)
      requires Valid()
      modifies this`state, this`lock
      ensures Valid() && closing == (old(state) != P.Disconnected)
      ensures View() == old(View()).(state := if closing then P.Disconnecting else old(state), lock := None)
    {
      closing := state != P.Disconnected;
      if closing {
        var _ := ExchangeState(P.Disconnecting);
      }
      lock := None;
    }

    /** Lines 421-426. */
    method FinishStop()
      requires Valid() && lock == None
      modifies this`state, this`transport
      ensures Valid() && View() == P.FinishSection(old(View()))
    {
      var changed := ChangeState(P.Disconnecting, P.Disconnected);
      if changed {
        transport := None;
      }
    }

    /** Lines 531-540: the token of the connection is copied under the lock. */
    method ClaimReconnect() returns (claimed: bool, cts: TokenSource)
      requires Valid()
      modifies this`state, this`lock
      ensures Valid() && View() == P.ClaimSection(old(View()))
      ensures claimed == (old(state) == P.Connected) && cts == disconnectCts
    {
      claimed := ChangeState(P.Connected, P.Reconnecting);
      cts := disconnectCts;
      lock := None;
    }

    /** Lines 562-594 with the token `cts` of generation `g`. */
    method ResumeReconnect(cts: TokenSource, ghost g: nat) returns (resumed: bool)
      requires Valid() && lock == None && g < |sources| && cts == sources[g]
      modifies this`startCompleted
      ensures Valid() && resumed == P.MayResume(old(View()), g)
      ensures View() == P.ResumeSection(old(View()), g)
    {
      if cts.canceled { return false; }
      if state != P.Reconnecting { return false; }
      startCompleted := false;
      return true;
    }

    /** Lines 617-628: the completion of a reconnect. `consistent` is what the assert at 623 checks. */
    method CompleteReconnect() returns (consistent: bool)
      requires Valid()
      modifies this`state, this`startCompleted
      ensures Valid() && consistent == (old(state) == P.Reconnecting)
      ensures View() == P.ChangeState(old(View()), P.Reconnecting, P.Connected).(event := true)
    {
      consistent := ChangeState(P.Reconnecting, P.Connected);
      startCompleted := true;
    }

    /** Lines 297-341 on a frame: `init` tells whether the connect request is released. */
    method ProcessResponse(frame: Frame) returns (init: bool)
      requires Valid()
      modifies this`messageId, this`groupsToken
      ensures Valid() && View() == P.ReceiveSection(old(View()), frame)
      ensures init == Starts(frame)
    {
      init := false;
      if frame.Unparsable? || frame.NonObject? { return; }
      if frame.invocation != Missing { return; }
      if frame.groups.Text? {
        groupsToken := frame.groups.text;
      }
      if frame.messages.Array? {
        if !frame.cursor.Text? { return; }  // `as_string` throws, the exception is logged
        messageId := frame.cursor.text;
        if frame.init.Number? && frame.init.n == 1 {
          init := true;
        }
      }
    }

    /** The frames of one generation, processed one after the other. */
    method ProcessResponses(frames: seq<Frame>)
      requires Valid() && messageId == "" && groupsToken == ""
      modifies this`messageId, this`groupsToken
      ensures Valid() && Cursor(messageId, groupsToken) == Fold(frames)
      ensures IsLatest(frames, MessageId, messageId) && IsLatest(frames, GroupsToken, groupsToken)
    {
      for i := 0 to |frames|
        invariant Valid() && Cursor(messageId, groupsToken) == Fold(frames[..i])
      {
        FoldAppend(frames[..i], frames[i]);
        assert frames[..i] + [frames[i]] == frames[..i + 1];
        var _ := ProcessResponse(frames[i]);
      }
      assert frames[..|frames|] == frames;
      FoldIsLatest(frames);
    }

    /** The destructor (46-74) in a world where nobody owns the connection; `used` is the transport it disconnects. The
        wait of `shutdown` returns at once because the event was set first. */
    method Destroy(ghost s: P.World) returns (used: Option<nat>)
      requires Valid() && View() == s.c && R.Reachable(s) && Th.Unowned(s)
      modifies this, disconnectCts
      ensures Valid() && state == P.Disconnected && transport == None && lock == None
      ensures used == old(transport)
      ensures old(state) != P.Disconnected ==> used == Some(s.c.cts) && s.c.cts in Cancelled()
    {
      hide R.Reachable, Th.Unowned;
      Th.DestructorCompletes(s);
      Th.TransportAgrees(s);
      used := None;
      startCompleted := true;
      var outcome := EnterShutdown(0);
      if outcome.Waits? {
        assert startCompleted;
        var _ := CommitShutdown();
        used := transport;
      }
      transport := None;
      var _ := ExchangeState(P.Disconnected);
    }
  }
}
