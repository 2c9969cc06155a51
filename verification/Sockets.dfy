/** One socket at a time (`AcquireWebSocket`, `AcquireWebSocketLane` and `ReleaseWebSocketLane` in
    `internal/session/session.go`): a multiplexed session takes one WebSocket in its life, and a lane one
    until it is released. */
module Sockets {
  import opened Options
  import opened Frames
  import opened Budget
  import opened Lanes
  import opened Tombstones
  import opened SessionState
  import opened SessionInv
  import opened SessionSteps
  import opened Validation
  import opened LaneLink
  import opened Isolation
  import opened LaneRegister
  import opened Uplink
  import SessionRuns

  /** The lane object has a socket. */
  predicate HasSocket(s: State, r: LaneRef) { r in s.lanes && s.lanes[r].websocketActive }

  /** The section gives the lane object up. */
  predicate GivesUp(s: State, op: SessionRuns.Op, r: LaneRef) {
    s.carrier == WebSocketLanes && (op.OpReleaseLane? || op.OpFailure?) && RegisteredAs(s, op.laneID, r)
  }

  lemma UpFinishKeepsSocket(s: State, op: SessionRuns.Op, r: LaneRef)
    requires Inv(s) && s.panic.None? && HasSocket(s, r) && op.OpUpFinish?
    ensures HasSocket(SessionRuns.Step(s, op), r)
  {
    hide InvWith, CommitBatch, OnWire, ClientFrames;
    if !UsesLanes(s) {
      MainIsThere(s);
      if !s.closed && ClientFrames(s, op.body, None).Some? {
        SessionRuns.ClientFramesOnWire(s, op.body, None);
        SessionRuns.UpActiveKeepsInv(s, MAIN, false);
        CommitSpares(SetUpActive(s, MAIN, false), MAIN, op.sequence, op.body, ClientFrames(s, op.body, None).value,
            op.answers, 0);
      }
    }
  }

  lemma UpLaneKeepsSocket(s: State, op: SessionRuns.Op, r: LaneRef)
    requires Inv(s) && s.panic.None? && HasSocket(s, r) && op.OpUpLane?
    ensures HasSocket(SessionRuns.Step(s, op), r)
  {
    hide InvWith, UpOnLane, ClientFrames, OnWire, OnlyLateFrames, AddLane, Spares;
    var laneID := op.laneID;
    if UsesLanes(s) && laneID <= MAX_STREAM_ID && ClientFrames(s, op.body, Some(laneID)).Some? && !s.closed {
      var frames := ClientFrames(s, op.body, Some(laneID)).value;
      var before := Registering(s, laneID);
      SessionRuns.ClientFramesOnWire(s, op.body, Some(laneID));
      if laneID !in s.carrierLanes {
        AddLaneKeepsInv(s, laneID, 0, 0);
        AddLaneSpares(s, laneID);
        SessionRuns.AddedLane(s, laneID);
      }
      UpOnLaneSpares(before, laneID, op.sequence, op.body, frames, op.answers);
    }
  }

  /** No section takes a lane's socket away but the one that gives the lane up. */
  lemma SocketStays(s: State, op: SessionRuns.Op, r: LaneRef)
    requires Inv(s) && s.panic.None? && HasSocket(s, r) && !GivesUp(s, op, r)
    ensures HasSocket(SessionRuns.Step(s, op), r)
  {
    hide InvWith, SessionRuns.Step;
    if op.OpUpFinish? {
      UpFinishKeepsSocket(s, op, r);
    } else if op.OpUpLane? {
      UpLaneKeepsSocket(s, op, r);
    } else if op.OpUpBegin? {
      BeginKeepsSocket(s, op, r);
    } else if (op.OpReleaseLane? || op.OpFailure?) && s.carrier != WebSocketLanes {
      CloseKeepsSocket(s, op, r);
    } else {
      OthersKeepGates(s, op);
    }
  }

  lemma BeginKeepsSocket(s: State, op: SessionRuns.Op, r: LaneRef)
    requires s.panic.None? && HasSocket(s, r) && op.OpUpBegin?
    ensures HasSocket(SessionRuns.Step(s, op), r)
  {
    hide CheckUp;
  }

  lemma CloseKeepsSocket(s: State, op: SessionRuns.Op, r: LaneRef)
    requires s.panic.None? && HasSocket(s, r) && (op.OpReleaseLane? || op.OpFailure?) && s.carrier != WebSocketLanes
    ensures HasSocket(SessionRuns.Step(s, op), r)
  {
  }

  // --------------------------------------------------------------------- multiplexed

  /** A multiplexed session gives its socket out exactly while it is open and has none. */
  lemma MainSocket(s: State)
    requires s.carrier == WebSocket && MAIN in s.lanes
    ensures AcquireWebSocket(s).1 <==> !s.closed && !HasSocket(s, MAIN)
    ensures AcquireWebSocket(s).1 ==> HasSocket(AcquireWebSocket(s).0, MAIN)
  {
  }

  lemma SameCarrierStep(s: State, op: SessionRuns.Op)
    requires Inv(s) && s.panic.None?
    ensures SessionRuns.Step(s, op).carrier == s.carrier
  {
    hide InvWith, SessionRuns.Step;
    if op.OpUpFinish? {
      UpFinishCarrier(s, op);
    } else if op.OpUpLane? {
      UpLaneCarrier(s, op);
    } else if op.OpUpBegin? {
      BeginCarrier(s, op);
    } else {
      OthersKeepGates(s, op);
    }
  }

  lemma BeginCarrier(s: State, op: SessionRuns.Op)
    requires s.panic.None? && op.OpUpBegin?
    ensures SessionRuns.Step(s, op).carrier == s.carrier
  {
    hide CheckUp;
  }

  lemma UpFinishCarrier(s: State, op: SessionRuns.Op)
    requires Inv(s) && s.panic.None? && op.OpUpFinish?
    ensures SessionRuns.Step(s, op).carrier == s.carrier
  {
    hide InvWith, UpFinish;
    if !UsesLanes(s) {
      FinishGate(s, Request(op.sequence, op.body), op.answers);
    }
  }

  lemma UpLaneCarrier(s: State, op: SessionRuns.Op)
    requires Inv(s) && s.panic.None? && op.OpUpLane?
    ensures SessionRuns.Step(s, op).carrier == s.carrier
  {
    hide InvWith, SessionRuns.Step;
    if UsesLanes(s) {
      RegisteredBefore(s, op, op.laneID);
    } else {
      NotLanes(s, op);
    }
  }

  lemma NotLanes(s: State, op: SessionRuns.Op)
    requires op.OpUpLane? && !UsesLanes(s)
    ensures SessionRuns.Step(s, op) == s
  {
    hide ClientFrames, UpOnLane;
  }

  /** In every run of a multiplexed session, however sections interleave, once a socket has been taken none
      is ever again. */
  lemma {:induction false} OneSocketEver(limits: Limits, ops: seq<SessionRuns.Op>, i: nat)
    requires ValidLimits(limits) && i < |ops| && ops[i] == SessionRuns.OpAcquireWebSocket
    requires var s := SessionRuns.RunFrom(NewSession(WebSocket, limits), ops[..i]);
      s.panic.None? && AcquireWebSocket(s).1
    ensures var t := SessionRuns.RunFrom(NewSession(WebSocket, limits), ops);
      t.panic.None? ==> t.carrier == WebSocket && HasSocket(t, MAIN) && !AcquireWebSocket(t).1
    decreases |ops|
  {
    hide NewSession, SessionRuns.Step, InvWith, AcquireWebSocket, HasSocket;
    var n := |ops| - 1;
    var past, op := ops[..n], ops[n];
    var s := SessionRuns.RunFrom(NewSession(WebSocket, limits), past);
    SessionRuns.RunUnfolds(NewSession(WebSocket, limits), ops);
    SessionRuns.ReachableInv(WebSocket, limits, past);
    SessionRuns.ReachableInv(WebSocket, limits, ops);
    if s.panic.Some? {
      SessionRuns.PanickedStays(s, op);
    } else {
      RunCarrier(limits, past);
      SameCarrierStep(s, op);
      MainThere(s);
      MainThere(SessionRuns.Step(s, op));
      if i == n {
        MainSocket(s);
        AcquireStep(s);
      } else {
        assert past[..i] == ops[..i];
        OneSocketEver(limits, past, i);
        SocketStays(s, op, MAIN);
      }
      if SessionRuns.Step(s, op).panic.None? {
        MainSocket(SessionRuns.Step(s, op));
      }
    }
  }

  lemma AcquireStep(s: State)
    requires s.panic.None?
    ensures SessionRuns.Step(s, SessionRuns.OpAcquireWebSocket) == AcquireWebSocket(s).0
  {
  }

  lemma MainThere(s: State)
    ensures s.panic.None? && Inv(s) ==> MAIN in s.lanes
  {
    hide StreamsInv, LaneInv, Placement, Register, Accounts;
  }

  lemma {:induction false} RunCarrier(limits: Limits, ops: seq<SessionRuns.Op>)
    requires ValidLimits(limits)
    ensures SessionRuns.RunFrom(NewSession(WebSocket, limits), ops).carrier == WebSocket
  {
    hide SessionRuns.Step, InvWith;
    SessionRuns.RunUnfolds(NewSession(WebSocket, limits), ops);
    if ops != [] {
      hide NewSession;
      var past := ops[..|ops| - 1];
      var s := SessionRuns.RunFrom(NewSession(WebSocket, limits), past);
      RunCarrier(limits, past);
      SessionRuns.ReachableInv(WebSocket, limits, past);
      if s.panic.Some? {
        SessionRuns.PanickedStays(s, ops[|ops| - 1]);
      } else {
        SameCarrierStep(s, ops[|ops| - 1]);
      }
    }
  }

  // --------------------------------------------------------------------------- lanes

  /** A lane's socket is given out exactly if the session is open, the id can be a lane's and is not
      remembered as closed, and its lane has none; or, if it has no lane yet, there is room for one. */
  lemma LaneSocket(s: State, laneID: nat)
    requires s.carrier == WebSocketLanes && (laneID in s.carrierLanes ==> s.carrierLanes[laneID] in s.lanes)
    ensures var (t, ok) := AcquireWebSocketLane(s, laneID);
      && (ok <==>
            && !s.closed && 0 < laneID <= MAX_STREAM_ID && laneID !in s.tombstones.closed
            && (if laneID in s.carrierLanes then !HasSocket(s, s.carrierLanes[laneID])
                else |s.carrierLanes| < s.limits.maxStreamsPerSession))
      && (ok ==> RegisteredAs(t, laneID, ServedBy(s, laneID)) && HasSocket(t, ServedBy(s, laneID)))
  {
  }

  lemma ReleasedLeaves(s: State, op: SessionRuns.Op, r: LaneRef)
    requires Inv(s) && s.panic.None? && GivesUp(s, op, r)
    ensures op.laneID !in SessionRuns.Step(s, op).carrierLanes
  {
    hide LaneGone;
    LaneGivenUp(s, op, r);
    GoneMeans(s, SessionRuns.Step(s, op), op.laneID, r);
  }

  /** The lane object is off the register and empty; the lane's stream, if there was one, is over and
      remembered as closed; no other stream and no other lane's registration has been touched, but for the
      lane of the id that remembering this one pushed out. */
  predicate LaneGone(s: State, t: State, laneID: nat, r: LaneRef) {
    && t.closed == s.closed && t.streams == s.streams - {laneID}
    && laneID !in t.carrierLanes
    && r in t.lanes && t.lanes[r].queue.frames == [] && t.lanes[r].unacked == [] && !t.lanes[r].websocketActive
    && t.lanes[r].notify
    && (laneID in s.streams ==> laneID in t.tombstones.closed)
    && (laneID !in s.streams ==> t.tombstones == s.tombstones && t.carrierLanes == s.carrierLanes - {laneID})
    && (forall other :: other in s.carrierLanes && other != laneID && other !in t.carrierLanes ==>
          other in s.tombstones.closed && other !in t.tombstones.closed)
  }

  lemma GoneMeans(s: State, t: State, laneID: nat, r: LaneRef)
    requires LaneGone(s, t, laneID, r)
    ensures laneID !in t.carrierLanes
  {
  }

  lemma EmptiedLane(l: Lane)
    ensures var t := Emptied(l);
      t.queue.frames == [] && t.unacked == [] && t.notify && t.websocketActive == l.websocketActive
  {
  }

  /** The id that remembering another pushes out is remembered no longer. */
  lemma EvictedIsForgotten(s: State, id: nat, cost: int, items: int)
    requires InvWith(s, cost, items)
    ensures EvictedBy(s, id).Some? ==>
      && EvictedBy(s, id).value in s.tombstones.closed
      && EvictedBy(s, id).value !in Remember(s.tombstones, id, s.limits.maxClosedStreamIDs).closed
  {
    hide LanesInv, Accounts, Remember, Evicted, Fifo;
    RingRefinesFifo(s.tombstones, id, s.limits.maxClosedStreamIDs);
  }

  lemma LaneGivenUp(s: State, op: SessionRuns.Op, r: LaneRef)
    requires Inv(s) && s.panic.None? && GivesUp(s, op, r)
    ensures LaneGone(s, SessionRuns.Step(s, op), op.laneID, r)
  {
    hide InvWith, DropLane, DropStream, RememberClosed, Emptied, LaneGone;
    var laneID := op.laneID;
    SessionRuns.RegisteredInLanes(s, laneID);
    SessionRuns.ActivateKeepsInv(s, r, false);
    var inactive := WithLane(s, r, s.lanes[r].(websocketActive := false));
    if laneID in s.streams {
      var dropped := DropStream(inactive, laneID);
      DropStreamKeepsInv(inactive, laneID, 0, 0);
      RememberKeepsInv(dropped, laneID, 0, 0);
      RememberShape(dropped, laneID, 0, 0);
      EvictedIsForgotten(dropped, laneID, 0, 0);
      SocketStaysOff(dropped, laneID, r);
      StreamlessGone(RememberClosed(dropped, laneID), laneID, r);
      GoneBefore(s, dropped, RememberClosed(dropped, laneID), SessionRuns.Step(s, op), laneID, r);
    } else {
      StreamlessGone(inactive, laneID, r);
      GoneBefore(s, s, inactive, SessionRuns.Step(s, op), laneID, r);
    }
  }

  lemma SocketStaysOff(s: State, id: nat, r: LaneRef)
    requires InvWith(s, 0, 0) && id !in s.streams && r in s.lanes && !s.lanes[r].websocketActive
    ensures r in RememberClosed(s, id).lanes && !RememberClosed(s, id).lanes[r].websocketActive
  {
    hide InvWith, RememberClosed;
    RememberSpares(s, id, 0, 0);
  }

  /** The lane goes when its stream is over. */
  lemma StreamlessGone(s: State, laneID: nat, r: LaneRef)
    requires Inv(s) && laneID !in s.streams && RegisteredAs(s, laneID, r) && r in s.lanes && !s.lanes[r].websocketActive
    ensures LaneGone(s, DropLane(s, laneID), laneID, r)
    ensures var t := DropLane(s, laneID);
      t.tombstones == s.tombstones && t.carrierLanes == s.carrierLanes - {laneID}
  {
    hide InvWith, DropLane, Emptied;
    DropLaneShape(s, laneID, 0, 0);
    EmptiedLane(s.lanes[r]);
    assert s.streams == s.streams - {laneID};
  }

  lemma GoneBefore(s: State, dropped: State, u: State, t: State, laneID: nat, r: LaneRef)
    requires LaneGone(u, t, laneID, r) && t.tombstones == u.tombstones && t.carrierLanes == u.carrierLanes - {laneID}
    requires u.closed == s.closed && u.streams == s.streams - {laneID}
    requires if laneID in s.streams then
               && laneID in u.tombstones.closed && dropped.carrierLanes == s.carrierLanes
               && dropped.tombstones == s.tombstones
               && u.carrierLanes == (if EvictedBy(dropped, laneID).Some?
                    then s.carrierLanes - {EvictedBy(dropped, laneID).value} else s.carrierLanes)
               && (EvictedBy(dropped, laneID).Some? ==>
                   && EvictedBy(dropped, laneID).value in s.tombstones.closed
                   && EvictedBy(dropped, laneID).value !in u.tombstones.closed)
             else u.tombstones == s.tombstones && u.carrierLanes == s.carrierLanes
    ensures LaneGone(s, t, laneID, r)
  {
    hide EvictedBy;
  }

  /** What the relay does about a client that breaks the protocol on a lane: a lane of its own socket is given
      up and nothing else with it, and any other session is closed, all it holds given back. */
  lemma FailureEnds(s: State, laneID: nat)
    requires Inv(s) && s.panic.None?
    ensures var t := SessionRuns.Step(s, SessionRuns.OpFailure(laneID));
      if s.carrier != WebSocketLanes then
        && t.closed && t.streams == map[] && t.pendingCost == 0 && t.pendingItems == 0
        && forall r :: r in t.lanes ==> t.lanes[r].queue.frames == [] && t.lanes[r].unacked == []
      else if laneID in s.carrierLanes then LaneGone(s, t, laneID, s.carrierLanes[laneID])
      else t == s
  {
    hide LaneGone, Accounts, StreamsInv, LanesInv;
    if s.carrier != WebSocketLanes {
      if !s.closed {
        CloseKeepsInv(s, 0, 0);
      }
      ClosedMeansEmpty(CloseSession(s));
    } else if laneID in s.carrierLanes {
      LaneGivenUp(s, SessionRuns.OpFailure(laneID), s.carrierLanes[laneID]);
    }
  }

  lemma ClosedMeansEmpty(s: State)
    requires Inv(s) && s.closed
    ensures s.streams == map[] && s.pendingCost == 0 && s.pendingItems == 0
    ensures forall r :: r in s.lanes ==> s.lanes[r].queue.frames == [] && s.lanes[r].unacked == []
  {
    hide Accounts, StreamsInv, LanesInv;
  }

  lemma StepKeepsLaneSocket(s: State, op: SessionRuns.Op, laneID: nat, r: LaneRef)
    requires Inv(s) && s.panic.None? && s.carrier == WebSocketLanes && r in s.lanes
    requires RegisteredAs(s, laneID, r) ==> HasSocket(s, r)
    ensures var t := SessionRuns.Step(s, op);
      RegisteredAs(t, laneID, r) ==> RegisteredAs(s, laneID, r) && HasSocket(t, r)
  {
    hide InvWith, SessionRuns.Step, HasSocket, GivesUp;
    RegisteredBefore(s, op, laneID);
    NextLaneIsNew(s);
    if RegisteredAs(SessionRuns.Step(s, op), laneID, r) {
      if GivesUp(s, op, r) {
        ReleasedLeaves(s, op, r);
        SameLane(s, op, laneID, r);
      } else {
        SocketStays(s, op, r);
      }
    }
  }

  lemma SameLane(s: State, op: SessionRuns.Op, laneID: nat, r: LaneRef)
    requires Inv(s) && GivesUp(s, op, r) && RegisteredAs(s, laneID, r)
    ensures op.laneID == laneID
  {
    hide InvWith;
    RegisterInjective(s, 0, 0);
  }

  /** In every run of a session of WebSocket lanes: once a socket has been taken for a lane, none is again
      for as long as the lane is registered, which a release ends. */
  lemma {:induction false} OneSocketPerLane(limits: Limits, ops: seq<SessionRuns.Op>, i: nat, laneID: nat)
    requires ValidLimits(limits) && i < |ops| && ops[i] == SessionRuns.OpAcquireLane(laneID)
    requires var s := SessionRuns.RunFrom(NewSession(WebSocketLanes, limits), ops[..i]);
      s.panic.None? && s.carrier == WebSocketLanes && AcquireWebSocketLane(s, laneID).1
    ensures var s := SessionRuns.RunFrom(NewSession(WebSocketLanes, limits), ops[..i]);
      var t := SessionRuns.RunFrom(NewSession(WebSocketLanes, limits), ops);
      var r := ServedBy(s, laneID);
      t.panic.None? ==>
        && t.carrier == WebSocketLanes && r in t.lanes
        && (RegisteredAs(t, laneID, r) ==> HasSocket(t, r) && !AcquireWebSocketLane(t, laneID).1)
    decreases |ops|
  {
    hide NewSession, SessionRuns.Step, InvWith, AcquireWebSocketLane, HasSocket, RegisteredAs, ServedBy;
    var n := |ops| - 1;
    var past, op := ops[..n], ops[n];
    var s := SessionRuns.RunFrom(NewSession(WebSocketLanes, limits), past);
    var r := ServedBy(SessionRuns.RunFrom(NewSession(WebSocketLanes, limits), ops[..i]), laneID);
    SessionRuns.RunUnfolds(NewSession(WebSocketLanes, limits), ops);
    SessionRuns.ReachableInv(WebSocketLanes, limits, past);
    SessionRuns.ReachableInv(WebSocketLanes, limits, ops);
    if s.panic.Some? {
      SessionRuns.PanickedStays(s, op);
    } else {
      var t := SessionRuns.Step(s, op);
      SameCarrierStep(s, op);
      if i == n {
        LaneIsThere(s, laneID);
        LaneSocket(s, laneID);
        AcquireLaneStep(s, laneID);
        SocketIsThere(t, r);
      } else {
        assert past[..i] == ops[..i];
        OneSocketPerLane(limits, past, i, laneID);
        StepKeepsLaneSocket(s, op, laneID, r);
        LanesStay(s, op, r);
      }
      if t.panic.None? && RegisteredAs(t, laneID, r) {
        LaneIsThere(t, laneID);
        LaneSocket(t, laneID);
        ThatLane(t, laneID, r);
      }
    }
  }

  lemma LaneIsThere(s: State, laneID: nat)
    requires Inv(s)
    ensures laneID in s.carrierLanes ==> s.carrierLanes[laneID] in s.lanes
  {
    hide InvWith;
    RegisterInjective(s, 0, 0);
  }

  lemma SocketIsThere(s: State, r: LaneRef)
    ensures HasSocket(s, r) ==> r in s.lanes
  {
  }

  lemma ThatLane(s: State, laneID: nat, r: LaneRef)
    requires RegisteredAs(s, laneID, r)
    ensures laneID in s.carrierLanes && s.carrierLanes[laneID] == r
  {
  }

  lemma AcquireLaneStep(s: State, laneID: nat)
    requires s.panic.None?
    ensures SessionRuns.Step(s, SessionRuns.OpAcquireLane(laneID)) == AcquireWebSocketLane(s, laneID).0
  {
  }

  /** Lane objects are never forgotten by the model. */
  lemma LanesStay(s: State, op: SessionRuns.Op, r: LaneRef)
    requires Inv(s) && s.panic.None? && s.carrier == WebSocketLanes && r in s.lanes
    ensures r in SessionRuns.Step(s, op).lanes
  {
    hide InvWith, SessionRuns.Step;
    if op.OpUpLane? {
      UpLaneKeepsLanes(s, op, r);
    } else if op.OpUpBegin? || op.OpUpFinish? {
      MultiplexedOnly(s, op);
    } else {
      OthersKeepGates(s, op);
    }
  }

  lemma MultiplexedOnly(s: State, op: SessionRuns.Op)
    requires UsesLanes(s) && (op.OpUpBegin? || op.OpUpFinish?)
    ensures SessionRuns.Step(s, op) == s
  {
    hide UpFinish;
  }

  lemma UpLaneKeepsLanes(s: State, op: SessionRuns.Op, r: LaneRef)
    requires Inv(s) && s.panic.None? && UsesLanes(s) && r in s.lanes && op.OpUpLane?
    ensures r in SessionRuns.Step(s, op).lanes
  {
    hide InvWith, UpOnLane, ClientFrames, OnWire, OnlyLateFrames, AddLane, Spares;
    var laneID := op.laneID;
    if laneID <= MAX_STREAM_ID && ClientFrames(s, op.body, Some(laneID)).Some? && !s.closed {
      var frames := ClientFrames(s, op.body, Some(laneID)).value;
      SessionRuns.ClientFramesOnWire(s, op.body, Some(laneID));
      if laneID !in s.carrierLanes {
        AddLaneKeepsInv(s, laneID, 0, 0);
        AddLaneSpares(s, laneID);
        SessionRuns.AddedLane(s, laneID);
      }
      UpOnLaneSpares(Registering(s, laneID), laneID, op.sequence, op.body, frames, op.answers);
    }
  }
}
