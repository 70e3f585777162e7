/** Frames of earlier generations. A generation that was stopped has a cancelled token and its frames are ignored; one
    whose start failed has not, and a frame that its transport still has in hand is processed as if it belonged to the
    current generation. This module proves exactly when the URL of a reconnect suffers from that. */
module StrayFrames {
  import opened Wrappers
  import opened Frames
  import opened Protocol
  import opened ProtocolInvariant
  import opened ProtocolRuns
  import opened ProtocolScenarios
  import opened ProtocolShapes
  import opened ProtocolUrls
  import T = Transport

  // ---- Whose frames are processed ----

  function OwnFrames(seen: seq<Processed>, g: nat): seq<Frame> {
    if seen == [] then []
    else
      var last := seen[|seen| - 1];
      OwnFrames(seen[..|seen| - 1], g) + (if last.generation == g then [last.frame] else [])
  }

  lemma OwnAppend(seen: seq<Processed>, p: Processed, g: nat)
    ensures OwnFrames(seen + [p], g) == OwnFrames(seen, g) + (if p.generation == g then [p.frame] else [])
    ensures p.generation != g ==> OwnFrames(seen + [p], g) == OwnFrames(seen, g)
  {
    assert (seen + [p])[..|seen|] == seen;
  }

  lemma StoppedStep(s: World, a: Action, g: nat)
    requires Can(s, a) && g in s.c.cancelled
    ensures g in Do(s, a).c.cancelled
    ensures var own := OwnFrames(Do(s, a).seen, g); own == OwnFrames(s.seen, g) || own == []
  {
    hide CanStartStep, DoStartStep, CanTransportStep, DoTransportStep, CanStopStep, DoStopStep, OwnFrames;
    hide CanReconnectStep, DoReconnectStep;
    NoFrames(g);
    match a
    case OfStart(b) => StartShape(s, b);
    case OfTransport(b) => SeenByTransport(s, b, g);
    case OfStop(b) => StopShape(s, b);
    case OfReconnect(b) => ReconnectShape(s, b);
  }

  lemma NoFrames(g: nat)
    ensures OwnFrames([], g) == []
  {
  }

  lemma SeenByTransport(s: World, a: TransportStep, g: nat)
    requires CanTransportStep(s, a) && g in s.c.cancelled
    ensures OwnFrames(DoTransportStep(s, a).seen, g) == OwnFrames(s.seen, g)
    ensures DoTransportStep(s, a).c.cancelled == s.c.cancelled
  {
    hide T.Do, T.Can, T.CanLoop, OwnFrames;
    match a
    case HandFrame(h, n) => if h !in s.c.cancelled { OwnAppend(s.seen, Processed(h, FrameInHand(s, h, n)), g); }
    case WireStep(_, _) =>
    case ReportLoss(_, _, _) =>
  }

  /** Once a generation is stopped no frame of it is processed any more, in any run. */
  lemma {:induction false} StoppedFramesIgnored(s: World, acts: seq<Action>, g: nat)
    requires Legal(s, acts) && g in s.c.cancelled
    ensures g in Exec(s, acts).c.cancelled
    ensures var own := OwnFrames(Exec(s, acts).seen, g); own == OwnFrames(s.seen, g) || own == []
    decreases |acts|
  {
    if acts != [] {
      StoppedStep(s, acts[0], g);
      hide Do, Can;
      StoppedFramesIgnored(Do(s, acts[0]), acts[1..], g);
    }
  }

  /** A late frame of an earlier generation is ignored if and only if that generation was ended by a stop, which it was
      if its start had succeeded; the frames of a start that failed on its own are processed. */
  lemma IgnoredIffStopped(s: World, g: nat, n: nat)
    requires Reachable(s) && CanHandFrame(s, g, n) && g != s.c.cts
    ensures DoHandFrame(s, g, n).seen == s.seen <==> g in s.c.cancelled
    ensures g in s.c.cancelled ==> DoHandFrame(s, g, n) == s.(wires := DoHandFrame(s, g, n).wires)
    ensures g !in s.c.cancelled ==> s.chains[g].phase == Settled(false)
    ensures g !in s.c.cancelled ==> DoHandFrame(s, g, n).c.cursor == Process(s.c.cursor, FrameInHand(s, g, n))
  {
    ReachableInv(s);
    PastIs(s);
    hide Inv, T.Do, T.CanLoop;
  }

  // ---- The URL of a reconnect ----

  /** An attempt that is about to connect, the first or a repeated one, uses the token of its own generation, and the
      last accepted "C" and the last textual "G" of all the frames processed from `start` to the building of the URL;
      the current generation has handed on no frame since. */
  lemma AttemptUsesLatest(s: World, id: nat)
    requires Reachable(s) && id in s.tasks && s.tasks[id].Trying?
    ensures s.built <= |s.seen|
    ensures var url, processed := s.tasks[id].url, Bodies(s.seen[..s.built]);
            && url.token == Some(s.c.cts)
            && IsLatest(processed, MessageId, url.messageId)
            && IsLatest(processed, GroupsToken, url.groupsToken)
            && OwnFrames(s.seen, s.c.cts) == OwnFrames(s.seen[..s.built], s.c.cts)
  {
    ReachableUrls(s);
    assert UrlOk(s, s.tasks[id]);
    FoldIsLatest(Bodies(s.seen[..s.built]));
    NoneOwn(s.seen, s.built, s.c.cts);
  }

  lemma {:induction false} NoneOwn(seen: seq<Processed>, n: nat, g: nat)
    requires n <= |seen| && forall k | n <= k < |seen| :: seen[k].generation != g
    ensures OwnFrames(seen, g) == OwnFrames(seen[..n], g)
    decreases |seen|
  {
    if n < |seen| {
      var init := seen[..|seen| - 1];
      NoneOwn(init, n, g);
      assert init[..n] == seen[..n];
    } else {
      assert seen[..n] == seen;
    }
  }

  /** What the latest frame carrying one carries, or "" when none does. */
  function LatestOf(frames: seq<Frame>, carried: Frame -> Option<string>): string {
    if frames == [] then ""
    else
      var last := frames[|frames| - 1];
      if carried(last).Some? then carried(last).value else LatestOf(frames[..|frames| - 1], carried)
  }

  lemma {:induction false} LatestOfIsLatest(frames: seq<Frame>, carried: Frame -> Option<string>)
    ensures IsLatest(frames, carried, LatestOf(frames, carried))
  {
    if frames != [] {
      var init, last := frames[..|frames| - 1], frames[|frames| - 1];
      assert frames == init + [last];
      LatestOfIsLatest(init, carried);
      IsLatestStep(init, last, carried, LatestOf(init, carried));
    }
  }

  lemma LatestIsUnique(frames: seq<Frame>, carried: Frame -> Option<string>, v: string, w: string)
    requires IsLatest(frames, carried, v) && IsLatest(frames, carried, w)
    ensures v == w
  {
  }

  /** The last processed frame that carries the field is of another generation than `g`, and carries something else than
      the frames of `g` before it. */
  ghost predicate Overridden(seen: seq<Processed>, g: nat, carried: Frame -> Option<string>) {
    exists k :: 0 <= k < |seen| && OverriddenAt(seen, k, g, carried)
  }

  ghost predicate OverriddenAt(seen: seq<Processed>, k: nat, g: nat, carried: Frame -> Option<string>)
    requires k < |seen|
  {
    && seen[k].generation != g
    && carried(seen[k].frame).Some? && (forall j | k < j < |seen| :: carried(seen[j].frame) == None)
    && carried(seen[k].frame).value != LatestOf(OwnFrames(seen[..k], g), carried)
  }

  lemma {:induction false} LatestIff(seen: seq<Processed>, g: nat, carried: Frame -> Option<string>)
    ensures LatestOf(Bodies(seen), carried) == LatestOf(OwnFrames(seen, g), carried) <==> !Overridden(seen, g, carried)
  {
    if seen != [] {
      var init, last := seen[..|seen| - 1], seen[|seen| - 1];
      assert Bodies(seen)[..|seen| - 1] == Bodies(init);
      LatestIff(init, g, carried);
      LastFrame(OwnFrames(init, g), last.frame, carried);
      if carried(last.frame).Some? {
        OverriddenLast(seen, g, carried);
      } else {
        OverriddenInit(seen, g, carried);
      }
    }
  }

  lemma LastFrame(frames: seq<Frame>, f: Frame, carried: Frame -> Option<string>)
    ensures LatestOf(frames + [f], carried) == if carried(f).Some? then carried(f).value else LatestOf(frames, carried)
    ensures frames + [] == frames
  {
    assert (frames + [f])[..|frames|] == frames;
  }

  lemma OverriddenLast(seen: seq<Processed>, g: nat, carried: Frame -> Option<string>)
    requires seen != [] && carried(seen[|seen| - 1].frame).Some?
    ensures Overridden(seen, g, carried) <==> OverriddenAt(seen, |seen| - 1, g, carried)
  {
  }

  lemma OverriddenInit(seen: seq<Processed>, g: nat, carried: Frame -> Option<string>)
    requires seen != [] && carried(seen[|seen| - 1].frame) == None
    ensures Overridden(seen, g, carried) <==> Overridden(seen[..|seen| - 1], g, carried)
  {
    var init := seen[..|seen| - 1];
    forall k: nat | k < |init|
      ensures OverriddenAt(seen, k, g, carried) <==> OverriddenAt(init, k, g, carried)
    {
      assert seen[..k] == init[..k];
    }
  }

  /** The URL of an attempt holds the latest "C" and the latest "G" of its own generation if and only if no frame of
      another generation overrode them before the URL was built; such a frame is of a start that failed on its own. */
  lemma OwnUrlIff(s: World, id: nat)
    requires Reachable(s) && id in s.tasks && s.tasks[id].Trying?
    ensures s.built <= |s.seen|
    ensures var own, before, url := OwnFrames(s.seen, s.c.cts), s.seen[..s.built], s.tasks[id].url;
            && (IsLatest(own, MessageId, url.messageId) <==> !Overridden(before, s.c.cts, MessageId))
            && (IsLatest(own, GroupsToken, url.groupsToken) <==> !Overridden(before, s.c.cts, GroupsToken))
    ensures forall k | 0 <= k < |s.seen| && s.seen[k].generation != s.c.cts ::
              ChainAt(s, s.seen[k].generation, Settled(false)) && s.seen[k].generation !in s.c.cancelled
  {
    AttemptUsesLatest(s, id);
    ReachableUrls(s);
    OwnLatestIff(s.seen[..s.built], s.c.cts, MessageId, s.tasks[id].url.messageId);
    OwnLatestIff(s.seen[..s.built], s.c.cts, GroupsToken, s.tasks[id].url.groupsToken);
  }

  lemma OwnLatestIff(seen: seq<Processed>, g: nat, carried: Frame -> Option<string>, value: string)
    requires IsLatest(Bodies(seen), carried, value)
    ensures IsLatest(OwnFrames(seen, g), carried, value) <==> !Overridden(seen, g, carried)
  {
    LatestIff(seen, g, carried);
    LatestOfIsLatest(Bodies(seen), carried);
    LatestOfIsLatest(OwnFrames(seen, g), carried);
    LatestIsUnique(Bodies(seen), carried, value, LatestOf(Bodies(seen), carried));
    if IsLatest(OwnFrames(seen, g), carried, value) {
      LatestIsUnique(OwnFrames(seen, g), carried, value, LatestOf(OwnFrames(seen, g), carried));
    }
  }

  // ---- It happens ----

  const STRAY := Object(Missing, Missing, Array, Text("9"), Missing)

  const STRAY_LOOP := OPEN_LOOP.(sent := [STRAY], taken := 1, phase := T.Processing)

  /** The first start timed out while its transport had a frame in hand, and settled. */
  ghost predicate InHand(s: World) {
    && 1 in s.chains && s.chains[1].phase == Settled(false) && 1 !in s.c.cancelled
    && 1 in s.wires && s.wires[1].loops == [T.CONSTRUCTED_LOOP, STRAY_LOOP]
  }

  lemma FirstStartTimesOut() returns (s: World)
    ensures Leads(INITIAL, s) && InHand(s) && Startable(s) && s.c.cts == 1 && s.tasks == map[]
  {
    hide Leads, Apart;
    var s1 := Dials(INITIAL);
    var s2 := TakesFrame(s1, 1, STRAY);
    LeadsOn(INITIAL, s1, s2);
    NothingElse(INITIAL, s1, s2);
    var s3 := ThenStart(INITIAL, s2, TimerFires(1));
    s := Settles(s3, 1);
    LeadsOn(INITIAL, s3, s);
  }

  lemma NothingElse(s: World, s': World, s'': World)
    requires Apart(s, s', 1) && Apart(s', s'', 1)
    ensures s''.tasks == s.tasks && s''.c.cancelled == s.c.cancelled
  {
  }

  /** The second start connects, and then the frame of the first one is processed. */
  lemma StrayProcessed(s0: World) returns (s: World)
    requires InHand(s0) && Startable(s0) && s0.c.cts == 1 && s0.tasks == map[]
    ensures Leads(s0, s) && IsUp(s, 2) && s.tasks == map[] && s.c.cursor == Cursor("9", "")
    ensures s.seen == [Processed(2, INIT_FRAME), Processed(1, STRAY)]
  {
    hide Leads, IsUp;
    var s1 := ComesUp(s0);
    UpFacts(s1);
    s := ThenTransport(s0, s1, HandFrame(1, 1));
    StaysUp(s1, s);
    assert s.seen == [Processed(2, INIT_FRAME), Processed(1, STRAY)];
  }

  lemma StaysUp(s: World, s': World)
    requires IsUp(s, 2) && s'.c == s.c.(cursor := s'.c.cursor) && s'.chains == s.chains && 2 in s'.wires
    requires 2 in s.wires && s'.wires[2] == s.wires[2]
    ensures IsUp(s', 2)
  {
  }

  /** The loop of the connected generation breaks down and its error callback calls `reconnect`. */
  lemma LoopBreaks(s0: World) returns (s: World)
    requires IsUp(s0, 2) && s0.tasks == map[]
    ensures Leads(s0, s) && s.tasks == map[0 := ReconnectCalled(2)] && s.c == s0.c && s.seen == s0.seen
  {
    hide Leads;
    LeadsItself(s0);
    s := ThenTransport(s0, s0, WireStep(2, T.Resume(1)));
    s := ThenTransport(s0, s, WireStep(2, T.Fault(1)));
    s := ThenTransport(s0, s, ReportLoss(2, 1, 0));
  }

  /** The call gets as far as building the URL. */
  lemma BuildsUrl(s0: World) returns (s: World)
    requires s0.tasks == map[0 := ReconnectCalled(2)] && s0.c.lock == None && s0.c.event && s0.c.state == Connected
    requires s0.c.cts == 2 && 2 !in s0.c.cancelled
    ensures Leads(s0, s) && TaskAt(s, 0, Trying(2, UrlOf(s0.c))) && s.seen == s0.seen && s.built == |s.seen| && s.c.cts == 2
  {
    hide Leads;
    LeadsItself(s0);
    s := ThenReconnect(s0, s0, ReconnectLocks(0));
    s := ThenReconnect(s0, s, ReconnectWakes(0));
    s := ThenReconnect(s0, s, ReconnectClaims(0));
    s := ThenReconnect(s0, s, ReconnectResumes(0));
    s := ThenReconnect(s0, s, BuildUrl(0));
  }

  /** A run from a new connection in which the second generation, whose last message is "1", is about to reconnect from
      message "9" of the first one. */
  lemma WrongUrlHappens() returns (s: World, id: nat)
    ensures Reachable(s) && id in s.tasks && s.tasks[id].Trying? && s.built <= |s.seen|
    ensures Overridden(s.seen[..s.built], s.c.cts, MessageId)
    ensures s.tasks[id].url.messageId == "9" && IsLatest(OwnFrames(s.seen, s.c.cts), MessageId, "1")
  {
    hide Leads, Reachable, InHand, IsUp, Overridden, IsLatest;
    id := 0;
    var s1 := FirstStartTimesOut();
    var s2 := StrayProcessed(s1);
    LeadsOn(INITIAL, s1, s2);
    var s3 := LoopBreaks(s2);
    LeadsOn(INITIAL, s2, s3);
    UpFacts(s2);
    s := BuildsUrl(s3);
    LeadsOn(INITIAL, s3, s);
    ReachableOn(s);
    assert s.seen[..s.built] == s.seen;
    OnlyOne(s.seen);
    LatestIff(s.seen, 2, MessageId);
  }

  lemma UpFacts(s: World)
    requires IsUp(s, 2)
    ensures s.c.lock == None && s.c.event && s.c.state == Connected && s.c.cts == 2 && 2 !in s.c.cancelled
    ensures 2 in s.wires && 2 in s.chains
  {
  }

  lemma OnlyOne(seen: seq<Processed>)
    requires seen == [Processed(2, INIT_FRAME), Processed(1, STRAY)]
    ensures OwnFrames(seen, 2) == [INIT_FRAME] && IsLatest(OwnFrames(seen, 2), MessageId, "1")
    ensures LatestOf(Bodies(seen), MessageId) == "9" && LatestOf(OwnFrames(seen, 2), MessageId) == "1"
  {
    assert seen[..1] == [Processed(2, INIT_FRAME)] && seen[..1][..0] == [];
    assert OwnFrames(seen[..1], 2) == [INIT_FRAME];
    assert Bodies(seen) == [INIT_FRAME, STRAY];
    assert MessageId(OwnFrames(seen, 2)[0]) == Some("1");
  }
}
