/** Runs of a relay session: any interleaving of uplink requests, polls, backend goroutines, WebSocket
    carriers and closes (`internal/session/session.go`). The budget is exact in every reachable state,
    the budget panic is unreachable, and a closed session holds nothing. */
module SessionRuns {
  import opened Options
  import opened Frames
  import opened Charges
  import opened Budget
  import opened DownQueue
  import opened Lanes
  import opened Tombstones
  import opened SessionState
  import opened SessionInv
  import opened SessionSteps
  import opened Application
  import opened Validation

  // --------------------------------------------------------------- committing a batch

  lemma SettleHeld(s: State, t: State, cost: int, items: int, k: Kind)
    requires StreamsInv(s) && cost >= 0 && items >= 0 && t.streams == s.streams && t.lanes == s.lanes
    ensures 0 <= Held(t, 0, 0, k) <= Held(s, cost, items, k)
    ensures Held(s, cost, items, k) == Held(t, 0, 0, k) + ChargeFor(PendingUplink, cost, items, k)
  {
    hide StreamsInv;
    HeldCovers(s, k);
  }

  /** What is left of the reservation is given back. */
  lemma SettleKeepsInv(s: State, cost: int, items: int)
    requires InvWith(s, cost, items) && !s.closed
    ensures Inv(Release(s, cost, items))
    ensures var t := Release(s, cost, items);
      t == s.(pendingCost := s.pendingCost - cost, pendingItems := s.pendingItems - items, calls := t.calls)
  {
    hide LaneCharge, StreamCharge, Partitioned, StreamsInv, LanesInv, Held;
    var t := s.(pendingCost := s.pendingCost - cost, pendingItems := s.pendingItems - items,
                calls := Release(s, cost, items).calls);
    forall k
      ensures 0 <= Held(t, 0, 0, k) <= Held(s, cost, items, k)
      ensures Held(s, cost, items, k) == Held(t, 0, 0, k) + ChargeFor(PendingUplink, cost, items, k)
    {
      SettleHeld(s, t, cost, items, k);
    }
    AccountsReleased(s, t, cost, items, 0, 0);
    LanesSame(s, t);
    StreamsSame(s, t);
  }

  /** The reservation is charged to the uplink. */
  lemma ReserveKeepsInv(s: State, t: State, cost: int, items: int)
    requires Inv(s) && !s.closed && items >= 0
    requires SessionAdmits(s.limits, Amount(s.pendingCost, s.pendingItems), cost, items, PendingUplink)
    requires t == s.(pendingCost := s.pendingCost + cost, pendingItems := s.pendingItems + items, calls := t.calls)
    ensures InvWith(t, cost, items)
  {
    hide LaneCharge, StreamCharge, Partitioned, HeldSplit, RingInv, LaneInv, StreamInv, ClassLimit;
    assert cost > 0;
    forall k
      ensures Held(t, cost, items, k) == Held(s, 0, 0, k) + ChargeFor(PendingUplink, cost, items, k)
    {
    }
    hide Held, SessionAdmits;
    AccountsCharged(s, t, 0, 0, cost, items, cost, items, PendingUplink);
    LanesSame(s, t);
    StreamsSame(s, t);
  }

  lemma UpActiveKeepsInv(s: State, r: LaneRef, active: bool)
    requires Inv(s) && r in s.lanes
    ensures Inv(SetUpActive(s, r, active))
  {
    hide StreamsInv, Register, Placement, Accounts, ClosedInv;
    assert LaneInv(s.lanes[r]);
    TouchLaneKeepsInv(s, r, s.lanes[r].(upActive := active), 0, 0);
  }

  lemma CommittedKeepsInv(s: State, r: LaneRef, sequence: nat, body: Bytes)
    requires Inv(s) && r in s.lanes
    ensures Inv(WithLane(s, r, Committed(s.lanes[r], sequence, body)))
  {
    hide StreamsInv, Register, Placement, Accounts, ClosedInv;
    assert LaneInv(s.lanes[r]);
    TouchLaneKeepsInv(s, r, Committed(s.lanes[r], sequence, body), 0, 0);
  }

  /** The state in which a batch is applied, once its reservation, if any, has been granted. */
  function Reserved(s: State, frames: seq<Frame>): State {
    var need := Reservation(s.streams.Keys, frames);
    if need.cost == 0 && need.items == 0 then s
    else
      Asking(s, BudgetCall(need.cost, need.items, PendingUplink, true))
        .(pendingCost := s.pendingCost + need.cost, pendingItems := s.pendingItems + need.items)
  }

  /** The state after a reservation that has been refused: the manager may have been asked. */
  function Unreserved(s: State, frames: seq<Frame>, a: Answers): State {
    var need := Reservation(s.streams.Keys, frames);
    Reserve(s, need.cost, need.items, PendingUplink, a.reserved).0
  }

  lemma UnreservedSame(s: State, frames: seq<Frame>, a: Answers)
    requires !ReservationGranted(s, frames, a)
    ensures var t := Unreserved(s, frames, a); t == s.(calls := t.calls)
  {
    hide SessionAdmits, Reservation;
  }

  predicate ReservationGranted(s: State, frames: seq<Frame>, a: Answers) {
    var need := Reservation(s.streams.Keys, frames);
    (need.cost != 0 || need.items != 0) ==>
      a.reserved && SessionAdmits(s.limits, Amount(s.pendingCost, s.pendingItems), need.cost, need.items, PendingUplink)
  }

  function AppliedTo(s: State, frames: seq<Frame>, a: Answers): Applying {
    ApplyAll(Begin(Reserved(s, frames), frames), frames, a.frames)
  }

  /** `CommitBatch` case by case. */
  lemma CommitCases(s: State, r: LaneRef, sequence: nat, body: Bytes, frames: seq<Frame>, a: Answers)
    ensures CommitBatch(s, r, sequence, body, frames, a)
      == if !ValidateBatch(s, frames) then (s, Failed)
         else if !ReservationGranted(s, frames, a) then (Unreserved(s, frames, a), Backpressure)
         else
           var y := AppliedTo(s, frames, a);
           if y.state.panic.Some? then (y.state, NotApplied)
           else
             var settled := Release(y.state, y.cost, y.items);
             if !y.ok then (settled, NotApplied)
             else (WithLane(settled, r, Committed(LaneAt(settled, r), sequence, body)), Applied)
  {
    hide ValidateBatch, ApplyAll, SessionAdmits, Release, Reservation, Committed;
  }

  lemma ReservedKeepsInv(s: State, frames: seq<Frame>, a: Answers)
    requires Inv(s) && !s.closed && ReservationGranted(s, frames, a)
    ensures InvWith(Reserved(s, frames), Begin(Reserved(s, frames), frames).cost,
        Begin(Reserved(s, frames), frames).items)
  {
    hide InvWith, SessionAdmits, Reservation;
    var need := Reservation(s.streams.Keys, frames);
    if need.cost != 0 || need.items != 0 {
      ReserveKeepsInv(s, Reserved(s, frames), need.cost, need.items);
    } else {
      assert Reserved(s, frames) == s;
    }
  }

  /** The batch refers only to ids that are live or remembered when it comes to them. */
  predicate BatchRetained(s: State, frames: seq<Frame>, a: Answers) {
    s.tombstones.start <= |s.tombstones.order|
    && Retained(s.streams.Keys, Fifo(s.tombstones), frames, a.frames, s.limits)
  }

  /** Validate, reserve, apply and commit keep the session's invariant and give back what the batch
      does not use; the only other end is the nil dereference of an unretained id. */
  lemma CommitKeepsInv(s: State, r: LaneRef, sequence: nat, body: Bytes, frames: seq<Frame>, a: Answers, laneID: nat)
    requires Inv(s) && !s.closed && r in s.lanes && OnWire(frames) && OnOneLane(s, frames, laneID)
    ensures var t := CommitBatch(s, r, sequence, body, frames, a).0;
      && (t.panic.None? ==> Inv(t) && !t.closed && t.lanes.Keys == s.lanes.Keys)
      && (t.panic.Some? ==> t.panic == Some(NilStream) && ValidateBatch(s, frames) && !BatchRetained(s, frames, a))
  {
    hide InvWith, ValidateBatch, Reservation, ApplyAll, ReservationGranted, OnOneLane, Retained, Fifo, SimulateAll,
      WindowsAgree, Committed, Release, Unreserved;
    CommitCases(s, r, sequence, body, frames, a);
    InvLimits(s, 0, 0);
    if ValidateBatch(s, frames) && ReservationGranted(s, frames, a) {
      ReservedKeepsInv(s, frames, a);
      ReservedSame(s, frames, laneID);
      BatchStartsInStep(Reserved(s, frames), frames, laneID);
      ValidatedBatch(Reserved(s, frames), frames, laneID, a.frames);
      var y := AppliedTo(s, frames, a);
      if y.state.panic.None? {
        AppliedSame(s, frames, a, laneID);
        SettleKeepsInv(y.state, y.cost, y.items);
        if y.ok {
          CommittedKeepsInv(Release(y.state, y.cost, y.items), r, sequence, body);
          InvLimits(CommitBatch(s, r, sequence, body, frames, a).0, 0, 0);
        }
      }
    } else if ValidateBatch(s, frames) {
      UnreservedSame(s, frames, a);
      CallsKeepInv(s, Unreserved(s, frames, a), 0, 0);
    }
  }

  lemma ReservedSame(s: State, frames: seq<Frame>, laneID: nat)
    requires ValidateBatch(s, frames) && OnOneLane(s, frames, laneID)
    ensures ValidateBatch(Reserved(s, frames), frames) && OnOneLane(Reserved(s, frames), frames, laneID)
  {
    hide Validate, Reservation;
  }

  lemma AppliedSame(s: State, frames: seq<Frame>, a: Answers, laneID: nat)
    requires InvWith(Reserved(s, frames), Begin(Reserved(s, frames), frames).cost,
        Begin(Reserved(s, frames), frames).items) && !s.closed
    requires ValidateBatch(Reserved(s, frames), frames) && OnWire(frames)
        && OnOneLane(Reserved(s, frames), frames, laneID)
    requires AppliedTo(s, frames, a).state.panic.None?
    ensures var y := AppliedTo(s, frames, a);
      !y.state.closed && y.state.lanes.Keys == s.lanes.Keys
  {
    hide InvWith, Validate, Reservation, ApplyAll, OnOneLane, Retained, Fifo, SimulateAll, WindowsAgree, InStep;
    var x := Begin(Reserved(s, frames), frames);
    BatchStartsInStep(x.state, frames, laneID);
    AppliesAsSimulated(x, Sim(Snapshots(s.streams), {}), s.tombstones.closed, Fifo(s.tombstones), s.streams.Keys,
        frames, laneID, a.frames);
  }

  // --------------------------------------------------------------------------- uplink

  lemma ClientFramesOnWire(s: State, body: Bytes, lane: Option<nat>)
    requires ClientFrames(s, body, lane).Some?
    ensures var frames := ClientFrames(s, body, lane).value;
      && OnWire(frames) && 1 <= |frames| <= MAX_BATCH_FRAMES && EncodeAll(frames) == body
      && (forall i :: 0 <= i < |frames| ==> ClientShape(frames[i]) && (lane.Some? ==> frames[i].streamID == lane.value))
  {
    var frames := ClientFrames(s, body, lane).value;
    CodecRoundTrip(body, frames, s.limits.maxFramePayload);
  }

  lemma UpBeginKeepsInv(s: State, sequence: nat, body: Bytes)
    requires Inv(s)
    ensures Inv(UpBegin(s, sequence, body).0)
  {
    hide StreamsInv, Register, Placement, LaneInv, Accounts, SetUpActive, CheckUp;
    UpActiveKeepsInv(s, MAIN, true);
  }

  lemma UpFinishKeepsInv(s: State, sequence: nat, body: Bytes, a: Answers)
    requires Inv(s) && !UsesLanes(s)
    ensures var t := UpFinish(s, sequence, body, a).0;
      && (t.panic.None? ==> Inv(t))
      && (t.panic.Some? ==>
          && t.panic == Some(NilStream)
          && ClientFrames(s, body, None).Some? && ValidateBatch(s, ClientFrames(s, body, None).value)
          && !BatchRetained(s, ClientFrames(s, body, None).value, a))
  {
    hide StreamsInv, Register, Placement, LaneInv, Accounts, CommitBatch, ClientFrames, OnWire, Validate, Retained,
      Fifo;
    UpActiveKeepsInv(s, MAIN, false);
    var idle := SetUpActive(s, MAIN, false);
    if !s.closed && ClientFrames(s, body, None).Some? {
      ClientFramesOnWire(s, body, None);
      CommitKeepsInv(idle, MAIN, sequence, body, ClientFrames(s, body, None).value, a, 0);
    }
  }

  lemma UpOnLaneKeepsInv(s: State, laneID: nat, sequence: nat, body: Bytes, frames: seq<Frame>, a: Answers)
    requires Inv(s) && UsesLanes(s) && !s.closed && laneID in s.carrierLanes && OnWire(frames)
    requires forall i :: 0 <= i < |frames| ==> frames[i].streamID == laneID
    ensures Inv(UpOnLane(s, s.carrierLanes[laneID], sequence, body, frames, a).0)
  {
    hide StreamsInv, Placement, LaneInv, Accounts, CommitBatch, OnWire, Validate, Retained, Fifo, CheckUp, InvWith;
    var r := s.carrierLanes[laneID];
    RegisteredInLanes(s, laneID);
    UpActiveKeepsInv(s, r, true);
    var active := SetUpActive(s, r, true);
    CommitKeepsInv(active, r, sequence, body, frames, a, laneID);
    var t := CommitBatch(active, r, sequence, body, frames, a).0;
    if t.panic.Some? {
      ValidatedOnLane(active, frames, a, laneID);
    } else {
      UpActiveKeepsInv(t, r, false);
    }
  }

  lemma RegisteredInLanes(s: State, laneID: nat)
    requires Inv(s) && laneID in s.carrierLanes
    ensures s.carrierLanes[laneID] in s.lanes
  {
    hide StreamsInv, Placement, LaneInv, Accounts;
  }

  lemma ValidatedOnLane(s: State, frames: seq<Frame>, a: Answers, laneID: nat)
    requires Inv(s) && ValidateBatch(s, frames) && forall i :: 0 <= i < |frames| ==> frames[i].streamID == laneID
    ensures BatchRetained(s, frames, a)
  {
    hide StreamsInv, LanesInv, Accounts, ValidateBatch, Retained;
    SurelyRetained(s, frames, a.frames, laneID);
  }

  /** A lane's uplink request never panics and keeps the invariant. */
  lemma UpLaneKeepsInv(s: State, laneID: nat, sequence: nat, body: Bytes, a: Answers)
    requires Inv(s)
    ensures Inv(UpLane(s, laneID, sequence, body, a).0)
  {
    hide InvWith, UpOnLane, ClientFrames, OnWire, OnlyLateFrames, AddLane;
    if UsesLanes(s) && laneID <= MAX_STREAM_ID && ClientFrames(s, body, Some(laneID)).Some? {
      var frames := ClientFrames(s, body, Some(laneID)).value;
      ClientFramesOnWire(s, body, Some(laneID));
      if !s.closed {
        if laneID in s.carrierLanes {
          UpOnLaneKeepsInv(s, laneID, sequence, body, frames, a);
        } else {
          AddLaneKeepsInv(s, laneID, 0, 0);
          AddedLane(s, laneID);
          UpOnLaneKeepsInv(AddLane(s, laneID), laneID, sequence, body, frames, a);
        }
      }
    }
  }

  lemma OpensIsNotLate(frames: seq<Frame>)
    requires frames != [] && frames[0].typeCode == OPEN
    ensures !OnlyLateFrames(frames)
  {
  }

  lemma AddedLane(s: State, laneID: nat)
    ensures var t := AddLane(s, laneID);
      laneID in t.carrierLanes && t.carrierLanes[laneID] == s.nextLane && t.closed == s.closed && t.carrier == s.carrier
  {
  }

  // --------------------------------------------------------- lanes, failures and closing

  lemma ReleaseWebSocketLaneKeepsInv(s: State, laneID: nat)
    requires Inv(s)
    ensures Inv(ReleaseWebSocketLane(s, laneID))
  {
    hide StreamsInv, Placement, Accounts, ClosedInv, DropLane, DropStream, RememberClosed, Evicted;
    if s.carrier == WebSocketLanes && laneID in s.carrierLanes {
      var r := s.carrierLanes[laneID];
      assert LaneInv(s.lanes[r]);
      TouchLaneKeepsInv(s, r, s.lanes[r].(websocketActive := false), 0, 0);
      var inactive := WithLane(s, r, s.lanes[r].(websocketActive := false));
      hide LaneInv, LaneObjects, Register, InvWith;
      if laneID in s.streams {
        DropStreamKeepsInv(inactive, laneID, 0, 0);
        RememberKeepsInv(DropStream(inactive, laneID), laneID, 0, 0);
        RememberShape(DropStream(inactive, laneID), laneID, 0, 0);
        DropLaneKeepsInv(RememberClosed(DropStream(inactive, laneID), laneID), laneID, 0, 0);
      } else {
        DropLaneKeepsInv(inactive, laneID, 0, 0);
      }
    }
  }

  lemma CloseSessionKeepsInv(s: State)
    requires Inv(s)
    ensures Inv(CloseSession(s)) && CloseSession(s).closed
  {
    if !s.closed {
      CloseKeepsInv(s, 0, 0);
    }
  }

  lemma LaneFailureKeepsInv(s: State, laneID: nat)
    requires Inv(s)
    ensures Inv(LaneFailure(s, laneID))
  {
    ReleaseWebSocketLaneKeepsInv(s, laneID);
    CloseSessionKeepsInv(s);
  }

  lemma ActivateKeepsInv(s: State, r: LaneRef, active: bool)
    requires Inv(s) && r in s.lanes
    ensures Inv(WithLane(s, r, s.lanes[r].(websocketActive := active)))
  {
    hide StreamsInv, Register, Placement, Accounts, ClosedInv;
    assert LaneInv(s.lanes[r]);
    TouchLaneKeepsInv(s, r, s.lanes[r].(websocketActive := active), 0, 0);
  }

  lemma AcquireKeepsInv(s: State, laneID: nat)
    requires Inv(s)
    ensures Inv(AcquireWebSocket(s).0) && Inv(AcquireWebSocketLane(s, laneID).0)
  {
    hide StreamsInv, Register, Placement, LaneInv, Accounts, ClosedInv, AddLane;
    ActivateKeepsInv(s, MAIN, true);
    if s.carrier == WebSocketLanes && laneID <= MAX_STREAM_ID {
      if laneID !in s.carrierLanes {
        AddLaneKeepsInv(s, laneID, 0, 0);
        AddedLane(s, laneID);
      }
      var t := if laneID in s.carrierLanes then s else AddLane(s, laneID);
      hide InvWith;
      RegisteredInLanes(t, laneID);
      ActivateKeepsInv(t, t.carrierLanes[laneID], true);
    }
  }

  // ------------------------------------------------------------------------- backends

  /** A stream's record shrinks by what is then given back. */
  lemma StreamShrinkKeepsInv(s: State, id: nat, st: Stream, cost: int, items: int)
    requires Inv(s) && !s.closed && id in s.streams && StreamInv(st) && cost >= 0 && items >= 0
    requires st.pendingWriteCost == s.streams[id].pendingWriteCost - cost
    requires st.pendingWriteItems == s.streams[id].pendingWriteItems - items
    ensures Inv(Release(WithStream(s, id, st), cost, items))
    ensures var t := Release(WithStream(s, id, st), cost, items);
      t == s.(streams := s.streams[id := st], pendingCost := s.pendingCost - cost,
          pendingItems := s.pendingItems - items, calls := t.calls)
  {
    hide InvWith, StreamInv;
    InvStream(s, id, 0, 0);
    StreamUpdateKeepsInv(s, WithStream(s, id, st), id, st, 0, 0, cost, items);
    SettleKeepsInv(WithStream(s, id, st), cost, items);
  }

  lemma StreamTouchKeepsInv(s: State, id: nat, st: Stream)
    requires Inv(s) && !s.closed && id in s.streams && StreamInv(st)
    requires st.pendingWriteCost == s.streams[id].pendingWriteCost
        && st.pendingWriteItems == s.streams[id].pendingWriteItems
    ensures Inv(WithStream(s, id, st))
  {
    hide InvWith, StreamInv;
    InvStream(s, id, 0, 0);
    StreamUpdateKeepsInv(s, WithStream(s, id, st), id, st, 0, 0, 0, 0);
  }

  /** A live stream's frame has a lane to go to. */
  lemma LiveIsQueueable(s: State, f: Frame)
    requires Inv(s) && !s.closed && f.streamID in s.streams && |f.payload| <= MAX_PAYLOAD
    requires f.typeCode == WINDOW ==> |f.payload| == 4
    ensures Queueable(s, f)
  {
    hide LanesInv, Accounts, RingInv, StreamInv;
  }

  lemma NextWriteKeepsInv(s: State, id: nat)
    requires Inv(s)
    ensures Inv(NextWrite(s, id).0)
  {
    hide InvWith;
    if !s.closed && id in s.streams && s.streams[id].writes != [] {
      InvStream(s, id, 0, 0);
      StreamTouchKeepsInv(s, id, s.streams[id].(writes := s.streams[id].writes[1..]));
    }
  }

  lemma DrainedKeepsInv(s: State, id: nat, amount: int, granted: bool)
    requires Inv(s)
    ensures Inv(Drained(s, id, amount, granted).0)
  {
    hide InvWith, QueueFrame, Release;
    if !s.closed && id in s.streams {
      var st := s.streams[id];
      InvStream(s, id, 0, 0);
      if !(amount <= 0 || amount > st.pendingWriteBytes || amount > st.pendingWriteCost
           || st.receiveWindow + amount > INITIAL_STREAM_WINDOW) {
        var drained :=
          st.(pendingWriteBytes := st.pendingWriteBytes - amount, pendingWriteCost := st.pendingWriteCost - amount,
                           receiveWindow := st.receiveWindow + amount);
        StreamShrinkKeepsInv(s, id, drained, amount, 0);
        var t := Release(WithStream(s, id, drained), amount, 0);
        var f := Frame(WINDOW, id, WindowPayload(amount));
        LiveIsQueueable(t, f);
        QueueKeepsInv(t, f, granted, 0, 0);
      }
    }
  }

  lemma WriteFinishedKeepsInv(s: State, id: nat)
    requires Inv(s)
    ensures Inv(WriteFinished(s, id).0)
  {
    hide InvWith, Release;
    if !s.closed && id in s.streams {
      var st := s.streams[id];
      InvStream(s, id, 0, 0);
      if !(st.pendingWriteItems == 0 || st.pendingWriteCost < QUEUE_ITEM_COST) {
        StreamShrinkKeepsInv(s, id, st.(pendingWriteItems := st.pendingWriteItems - 1,
                pendingWriteCost := st.pendingWriteCost - QUEUE_ITEM_COST), QUEUE_ITEM_COST, 1);
      }
    }
  }

  lemma BackendDataKeepsInv(s: State, id: nat, data: Bytes, granted: bool)
    requires Inv(s) && |data| <= DATA_CHUNK
    ensures Inv(BackendData(s, id, data, granted).0)
  {
    hide InvWith, QueueFrame;
    if !s.closed && id in s.streams && |data| != 0 && |data| <= s.streams[id].sendCredit {
      var st := s.streams[id];
      InvStream(s, id, 0, 0);
      StreamTouchKeepsInv(s, id, st.(sendCredit := st.sendCredit - |data|));
      var t := WithStream(s, id, st.(sendCredit := st.sendCredit - |data|));
      LiveIsQueueable(t, Frame(DATA, id, data));
      QueueKeepsInv(t, Frame(DATA, id, data), granted, 0, 0);
    }
  }

  lemma BackendClosedKeepsInv(s: State, id: nat, backend: nat, granted: bool)
    requires Inv(s)
    ensures Inv(BackendClosed(s, id, backend, granted))
  {
    hide InvWith, DropStream, RememberClosed, QueueFrame, CloseSession;
    if !s.closed && id in s.streams && s.streams[id].backend == backend {
      InvStream(s, id, 0, 0);
      DropStreamKeepsInv(s, id, 0, 0);
      RefuseKeepsInv(DropStream(s, id), id, granted, 0, 0);
      CloseSessionKeepsInv(QueueFrame(RememberClosed(DropStream(s, id), id), Frame(CLOSE, id, []), granted).0);
    }
  }

  // ---------------------------------------------------------------------------- polls

  lemma TouchKeepsInv(s: State, r: LaneRef, l: Lane)
    requires Inv(s) && r in s.lanes && SameHoldings(s.lanes[r], l)
    requires (l.downActive <==> l.superseded.Some?) && (l.superseded.Some? ==> l.unacked == [])
    ensures Inv(WithLane(s, r, l))
  {
    TouchLaneKeepsInv(s, r, l, 0, 0);
  }

  lemma InvLane(s: State, r: LaneRef)
    requires Inv(s) && r in s.lanes
    ensures LaneInv(s.lanes[r]) && (s.lanes[r].downActive <==> s.lanes[r].superseded.Some?)
    ensures s.lanes[r].superseded.Some? ==> s.lanes[r].unacked == []
    ensures forall id :: id in s.carrierLanes && s.carrierLanes[id] == r ==> OnlyStream(s.lanes[r].queue, id)
    ensures !InUse(s, r) || s.closed ==> Idle(s.lanes[r])
  {
    hide StreamsInv, Register, Accounts, InUse, OnlyStream, Idle;
  }

  lemma LoopStays(l: Lane, me: nat, cursor: nat, batchLimit: int, c: Condition)
    requires LaneInv(l)
    ensures forall id :: OnlyStream(l.queue, id) ==> OnlyStream(Loop(l, me, cursor, batchLimit, c).lane.queue, id)
    ensures Idle(l) ==> Idle(Loop(l, me, cursor, batchLimit, c).lane)
  {
    if l.superseded == Some(me) && |l.queue.frames| != 0 {
      BatchIsPrefix(l.queue, batchLimit);
    }
  }

  /** A pass of the waiting loop keeps the session's invariant. */
  lemma LoopKeepsSession(s: State, r: LaneRef, me: nat, cursor: nat, batchLimit: int, c: Condition)
    requires Inv(s) && r in s.lanes
    ensures Inv(WithLane(s, r, Loop(s.lanes[r], me, cursor, batchLimit, c).lane))
  {
    hide InvWith, Loop, OnlyStream, Idle, InUse, LaneInv, LaneCharge;
    InvLane(s, r);
    LoopStays(s.lanes[r], me, cursor, batchLimit, c);
    var t := Loop(s.lanes[r], me, cursor, batchLimit, c).lane;
    forall k
      ensures LaneInv(t) && LaneCharge(t, k) == LaneCharge(s.lanes[r], k)
    {
      LoopKeepsLaneInv(s.lanes[r], me, cursor, batchLimit, c, k);
    }
    LoopKeepsLaneInv(s.lanes[r], me, cursor, batchLimit, c, UpCost);
    LaneUpdateKeepsInv(s, r, t, 0, 0);
  }

  /** An acknowledged batch gives its budget back. */
  lemma PresentKeepsInv(s: State, r: LaneRef, cursor: nat)
    requires Inv(s) && r in s.lanes && Present(s.lanes[r], cursor).Accepted?
    ensures var p := Present(s.lanes[r], cursor);
      var t := WithLane(Release(s, p.cost, p.items), r, p.lane);
      && Inv(t) && p.lane.unacked == []
      && t == s.(lanes := s.lanes[r := p.lane], pendingCost := s.pendingCost - p.cost,
                 pendingItems := s.pendingItems - p.items, calls := t.calls)
  {
    hide InvWith, OnlyStream, InUse, LaneInv, LaneCharge;
    var l, p := s.lanes[r], Present(s.lanes[r], cursor);
    InvLane(s, r);
    forall k
      ensures LaneInv(p.lane) && LaneCharge(p.lane, k) <= LaneCharge(l, k)
    {
      PresentKeepsLaneInv(l, cursor, k);
    }
    PresentKeepsLaneInv(l, cursor, UpCost);
    LaneReleaseKeepsInv(s, r, p.lane, p.cost, p.items, 0, 0);
  }

  lemma PollEnterKeepsInv(s: State, laneID: nat, me: nat, cursor: nat)
    requires Inv(s)
    ensures Inv(PollEnter(s, laneID, me, cursor).0)
  {
    hide InvWith, Present, Loop, Release, ConditionOf;
    var lane := PollLaneOf(s, laneID);
    if !s.closed && lane.Some? {
      var r := lane.value;
      PollLaneIsThere(s, laneID);
      if Present(s.lanes[r], cursor).Accepted? {
        var p := Present(s.lanes[r], cursor);
        PresentKeepsInv(s, r, cursor);
        var t := WithLane(Release(s, p.cost, p.items), r, p.lane);
        TouchKeepsInv(t, r, TakeOver(p.lane, me));
        LoopKeepsSession(WithLane(t, r, TakeOver(p.lane, me)), r, me, cursor, s.limits.carrierBatchBytes,
                         ConditionOf(Release(s, p.cost, p.items), r, laneID));
        EnterShape(s, laneID, me, cursor);
      }
    }
  }

  lemma PollLaneIsThere(s: State, laneID: nat)
    requires Inv(s) && PollLaneOf(s, laneID).Some?
    ensures PollLaneOf(s, laneID).value in s.lanes
  {
    hide StreamsInv, Placement, LaneInv, Accounts;
  }

  lemma EnterShape(s: State, laneID: nat, me: nat, cursor: nat)
    requires !s.closed && PollLaneOf(s, laneID).Some? && PollLaneOf(s, laneID).value in s.lanes
    requires Present(s.lanes[PollLaneOf(s, laneID).value], cursor).Accepted?
    ensures var r := PollLaneOf(s, laneID).value;
      var p := Present(s.lanes[r], cursor);
      var released := Release(s, p.cost, p.items);
      var t := WithLane(WithLane(released, r, p.lane), r, TakeOver(p.lane, me));
      var turn := Loop(t.lanes[r], me, cursor, s.limits.carrierBatchBytes, ConditionOf(released, r, laneID));
      PollEnter(s, laneID, me, cursor).0
        == (if UsesLanes(s) && laneID > MAX_STREAM_ID then s else WithLane(t, r, turn.lane))
  {
    hide Present, Loop, ConditionOf, TakeOver;
    var r := PollLaneOf(s, laneID).value;
    var p := Present(s.lanes[r], cursor);
    var released := Release(s, p.cost, p.items);
    var taken := TakeOver(p.lane, me);
    var turn := Loop(taken, me, cursor, s.limits.carrierBatchBytes, ConditionOf(released, r, laneID));
    assert released.lanes[r := p.lane][r := taken][r := turn.lane] == released.lanes[r := turn.lane];
  }

  lemma PollWokenKeepsInv(s: State, r: LaneRef, laneID: nat, me: nat, cursor: nat)
    requires Inv(s) && r in s.lanes
    ensures Inv(PollWoken(s, r, laneID, me, cursor).0)
  {
    hide InvWith, Loop, ConditionOf;
    InvLane(s, r);
    var l := if s.lanes[r].superseded != Some(me) then Signal(s.lanes[r]) else s.lanes[r];
    TouchKeepsInv(s, r, l);
    LoopKeepsSession(WithLane(s, r, l), r, me, cursor, s.limits.carrierBatchBytes, ConditionOf(s, r, laneID));
    var turn := Loop(l, me, cursor, s.limits.carrierBatchBytes, ConditionOf(s, r, laneID));
    assert s.lanes[r := l][r := turn.lane] == s.lanes[r := turn.lane];
  }

  lemma PollLeavesKeepsInv(s: State, r: LaneRef, laneID: nat, me: nat, cursor: nat)
    requires Inv(s) && r in s.lanes
    ensures Inv(PollDeadline(s, r, laneID, me, cursor).0)
    ensures Inv(PollQuits(s, r, me)) && Inv(PollDisplaced(s, r)) && Inv(PollTakesToken(s, r))
  {
    hide InvWith, Loop, ConditionOf, LaneInv, OnlyStream, InUse, Idle;
    InvLane(s, r);
    var l := s.lanes[r];
    LoopKeepsSession(s, r, me, cursor, s.limits.carrierBatchBytes, ConditionOf(s, r, laneID));
    TouchKeepsInv(s, r, Signal(l));
    TouchKeepsInv(s, r, Resigned(l));
    TouchKeepsInv(s, r, Quit(l, me));
    TouchKeepsInv(s, r, l.(notify := false));
  }

  // ----------------------------------------------------------------------------- runs

  /** Every critical section of a session, with what it gets from outside: the request, the manager's
      answers, what a backend read or wrote, which lane object a waiting poll holds on to. */
  datatype Op =
    | OpUpBegin(sequence: nat, body: Bytes)
    | OpUpFinish(sequence: nat, body: Bytes, answers: Answers)
    | OpUpLane(laneID: nat, sequence: nat, body: Bytes, answers: Answers)
    | OpFailure(laneID: nat)
    | OpClose
    | OpAcquireWebSocket
    | OpAcquireLane(laneID: nat)
    | OpReleaseLane(laneID: nat)
    | OpNextWrite(id: nat)
    | OpDrained(id: nat, amount: int, granted: bool)
    | OpWriteFinished(id: nat)
    | OpBackendData(id: nat, data: Bytes, granted: bool)
    | OpBackendClosed(id: nat, backend: nat, granted: bool)
    | OpPollEnter(laneID: nat, me: nat, cursor: nat)
    | OpPollWoken(lane: LaneRef, laneID: nat, me: nat, cursor: nat)
    | OpPollDeadline(lane: LaneRef, laneID: nat, me: nat, cursor: nat)
    | OpPollQuits(lane: LaneRef, me: nat)
    | OpPollDisplaced(lane: LaneRef)
    | OpPollTakesToken(lane: LaneRef)

  /** A section that polls a lane object that never existed, or reads more than the read buffer, does
      not happen; a session that panicked still holds its lock, and nothing happens any more. */
  function Step(s: State, op: Op): State {
    if s.panic.Some? then s
    else
      match op
      case OpUpBegin(sequence, body) => UpBegin(s, sequence, body).0
      case OpUpFinish(sequence, body, a) => if UsesLanes(s) then s else UpFinish(s, sequence, body, a).0
      case OpUpLane(laneID, sequence, body, a) => UpLane(s, laneID, sequence, body, a).0
      case OpFailure(laneID) => LaneFailure(s, laneID)
      case OpClose => CloseSession(s)
      case OpAcquireWebSocket => AcquireWebSocket(s).0
      case OpAcquireLane(laneID) => AcquireWebSocketLane(s, laneID).0
      case OpReleaseLane(laneID) => ReleaseWebSocketLane(s, laneID)
      case OpNextWrite(id) => NextWrite(s, id).0
      case OpDrained(id, amount, granted) => Drained(s, id, amount, granted).0
      case OpWriteFinished(id) => WriteFinished(s, id).0
      case OpBackendData(id, data, granted) => if |data| <= DATA_CHUNK then BackendData(s, id, data, granted).0 else s
      case OpBackendClosed(id, backend, granted) => BackendClosed(s, id, backend, granted)
      case OpPollEnter(laneID, me, cursor) => PollEnter(s, laneID, me, cursor).0
      case OpPollWoken(r, laneID, me, cursor) => if r in s.lanes then PollWoken(s, r, laneID, me, cursor).0 else s
      case OpPollDeadline(r, laneID, me, cursor) => if r in s.lanes then PollDeadline(s, r, laneID, me, cursor).0 else s
      case OpPollQuits(r, me) => if r in s.lanes then PollQuits(s, r, me) else s
      case OpPollDisplaced(r) => if r in s.lanes then PollDisplaced(s, r) else s
      case OpPollTakesToken(r) => if r in s.lanes then PollTakesToken(s, r) else s
  }

  /** The run, event by event. It is in three parts so that proofs look at a step only where they ask to,
      by `RunUnfolds`. */
  function RunFrom(s: State, ops: seq<Op>): State
    decreases |ops|, 2
  {
    RunEvents(s, ops)
  }

  function RunEvents(s: State, ops: seq<Op>): State
    decreases |ops|, 1
  {
    if ops == [] then s else RunLastEvent(s, ops)
  }

  function RunLastEvent(s: State, ops: seq<Op>): State
    requires ops != []
    decreases |ops|, 0
  {
    Step(RunFrom(s, ops[..|ops| - 1]), ops[|ops| - 1])
  }

  lemma RunUnfolds(s: State, ops: seq<Op>)
    ensures ops == [] ==> RunFrom(s, ops) == s
    ensures ops != [] ==> RunFrom(s, ops) == Step(RunFrom(s, ops[..|ops| - 1]), ops[|ops| - 1])
  {
    hide Step;
    assert RunFrom(s, ops) == RunEvents(s, ops);
    if ops != [] {
      assert RunEvents(s, ops) == RunLastEvent(s, ops);
    }
  }

  /** A multiplexed batch that passes validation and refers to an id it no longer retains. */
  predicate Unretained(s: State, op: Op) {
    && op.OpUpFinish? && !UsesLanes(s)
    && ClientFrames(s, op.body, None).Some?
    && ValidateBatch(s, ClientFrames(s, op.body, None).value)
    && !BatchRetained(s, ClientFrames(s, op.body, None).value, op.answers)
  }

  lemma PollStepKeepsInv(s: State, op: Op)
    requires Inv(s)
    requires op.OpPollWoken? || op.OpPollDeadline? || op.OpPollQuits? || op.OpPollDisplaced? || op.OpPollTakesToken?
    ensures Inv(Step(s, op))
  {
    hide InvWith, PollWoken, PollDeadline, PollQuits, PollDisplaced, PollTakesToken;
    match op
    case OpPollWoken(r, laneID, me, cursor) => if r in s.lanes { PollWokenKeepsInv(s, r, laneID, me, cursor); }
    case OpPollDeadline(r, laneID, me, cursor) => if r in s.lanes { PollLeavesKeepsInv(s, r, laneID, me, cursor); }
    case OpPollQuits(r, me) => if r in s.lanes { PollLeavesKeepsInv(s, r, 0, me, 0); }
    case OpPollDisplaced(r) => if r in s.lanes { PollLeavesKeepsInv(s, r, 0, 0, 0); }
    case OpPollTakesToken(r) => if r in s.lanes { PollLeavesKeepsInv(s, r, 0, 0, 0); }
  }

  lemma BackendStepKeepsInv(s: State, op: Op)
    requires Inv(s)
        && (op.OpNextWrite? || op.OpDrained? || op.OpWriteFinished? || op.OpBackendData? || op.OpBackendClosed?)
    ensures Inv(Step(s, op))
  {
    hide InvWith, NextWrite, Drained, WriteFinished, BackendData, BackendClosed;
    match op
    case OpNextWrite(id) => NextWriteKeepsInv(s, id);
    case OpDrained(id, amount, granted) => DrainedKeepsInv(s, id, amount, granted);
    case OpWriteFinished(id) => WriteFinishedKeepsInv(s, id);
    case OpBackendData(id, data, granted) => if |data| <= DATA_CHUNK { BackendDataKeepsInv(s, id, data, granted); }
    case OpBackendClosed(id, backend, granted) => BackendClosedKeepsInv(s, id, backend, granted);
  }

  lemma CarrierStepKeepsInv(s: State, op: Op)
    requires Inv(s)
    requires op.OpFailure? || op.OpClose? || op.OpAcquireWebSocket? || op.OpAcquireLane? || op.OpReleaseLane?
        || op.OpPollEnter?
    ensures Inv(Step(s, op))
  {
    hide InvWith, LaneFailure, CloseSession, AcquireWebSocket, AcquireWebSocketLane, ReleaseWebSocketLane, PollEnter;
    match op
    case OpFailure(laneID) => LaneFailureKeepsInv(s, laneID);
    case OpClose => CloseSessionKeepsInv(s);
    case OpAcquireWebSocket => AcquireKeepsInv(s, 0);
    case OpAcquireLane(laneID) => AcquireKeepsInv(s, laneID);
    case OpReleaseLane(laneID) => ReleaseWebSocketLaneKeepsInv(s, laneID);
    case OpPollEnter(laneID, me, cursor) => PollEnterKeepsInv(s, laneID, me, cursor);
  }

  lemma UpStepKeepsInv(s: State, op: Op)
    requires Inv(s) && (op.OpUpBegin? || op.OpUpFinish? || op.OpUpLane?)
    ensures var t := Step(s, op);
      && (t.panic.None? ==> Inv(t))
      && (t.panic.Some? ==> t.panic == Some(NilStream) && Unretained(s, op))
  {
    InvLimits(s, 0, 0);
    hide InvWith, UpBegin, UpFinish, UpLane, ClientFrames, ValidateBatch, BatchRetained;
    match op {
      case OpUpBegin(sequence, body) => UpBeginKeepsInv(s, sequence, body);
      case OpUpFinish(sequence, body, a) => if !UsesLanes(s) { UpFinishKeepsInv(s, sequence, body, a); }
      case OpUpLane(laneID, sequence, body, a) => UpLaneKeepsInv(s, laneID, sequence, body, a);
    }
    if Inv(Step(s, op)) {
      InvLimits(Step(s, op), 0, 0);
    }
  }

  /** Every section keeps the invariant; the one panic is an unretained id. */
  lemma StepKeepsInv(s: State, op: Op)
    requires Inv(s)
    ensures var t := Step(s, op);
      && (t.panic.None? ==> Inv(t))
      && (t.panic.Some? ==> t.panic == Some(NilStream) && Unretained(s, op))
  {
    hide InvWith, Step, Unretained;
    if op.OpUpBegin? || op.OpUpFinish? || op.OpUpLane? {
      UpStepKeepsInv(s, op);
    } else {
      if op.OpNextWrite? || op.OpDrained? || op.OpWriteFinished? || op.OpBackendData? || op.OpBackendClosed? {
        BackendStepKeepsInv(s, op);
      } else if op.OpFailure? || op.OpClose? || op.OpAcquireWebSocket? || op.OpAcquireLane? || op.OpReleaseLane?
      || op.OpPollEnter? {
        CarrierStepKeepsInv(s, op);
      } else {
        PollStepKeepsInv(s, op);
      }
      InvLimits(Step(s, op), 0, 0);
    }
  }

  lemma EmptySession(s: State)
    requires ValidLimits(s.limits) && s.panic == None && !s.closed && s.streams == map[] && s.tombstones.closed == {}
    requires s.tombstones.order == [] && s.tombstones.start == 0 && s.pendingCost == 0 && s.pendingItems == 0
    requires s.lanes.Keys == {MAIN} && LaneInv(s.lanes[MAIN]) && Idle(s.lanes[MAIN]) && s.carrierLanes == map[]
        && s.nextLane == 1
    requires forall k :: LaneCharge(s.lanes[MAIN], k) == 0
    ensures Inv(s)
  {
    hide LaneInv, LaneCharge, StreamCharge, StreamInv, Partitioned, Idle, HeldSplit;
    NothingHeld(s);
    NothingAccounted(s, 0, 0);
  }

  lemma BlankSession(s: State, carrier: Carrier, limits: Limits, ring: Ring, l: Lane)
    requires ValidLimits(limits) && ring.closed == {} && ring.order == [] && ring.start == 0
    requires LaneInv(l) && Idle(l) && forall k :: LaneCharge(l, k) == 0
    requires s == State(carrier, limits, map[], ring, map[MAIN := l], map[], 0, 0, false, 1, 0, None, [])
    ensures Inv(s)
  {
    hide LaneInv, LaneCharge, Idle, InvWith;
    EmptySession(s);
  }

  /** A session of HTTPS lanes before its lane 0 is registered. */
  lemma BeforeLaneZero(limits: Limits) returns (s: State)
    requires ValidLimits(limits)
    ensures Inv(s) && !s.closed && s.carrier == HttpsLanes && s.carrierLanes == map[] && 0 !in s.tombstones.closed
        && s.nextLane == 1
    ensures NewSession(HttpsLanes, limits) == AddLane(s, 0)
  {
    hide LaneInv, LaneCharge, Idle, InvWith, AddLane, OnlyStream;
    NewLaneInv();
    NewLaneIsIdle(0);
    s := State(HttpsLanes, limits, map[], NO_TOMBSTONES, map[MAIN := NEW_LANE], map[], 0, 0, false, 1, 0, None, []);
    BlankSession(s, HttpsLanes, limits, NO_TOMBSTONES, NEW_LANE);
  }

  lemma NewSessionInv(carrier: Carrier, limits: Limits)
    requires ValidLimits(limits)
    ensures Inv(NewSession(carrier, limits))
  {
    hide LaneInv, LaneCharge, Idle, InvWith, AddLane, OnlyStream;
    NewLaneInv();
    NewLaneIsIdle(0);
    var s := State(carrier, limits, map[], NO_TOMBSTONES, map[MAIN := NEW_LANE], map[], 0, 0, false, 1, 0, None, []);
    BlankSession(s, carrier, limits, NO_TOMBSTONES, NEW_LANE);
    if carrier == HttpsLanes {
      AddLaneKeepsInv(s, 0, 0, 0);
    }
  }

  /** In every reachable state of every session the budget guard has never failed; unless a multiplexed
      batch dereferenced nil, which takes an unretained id, the invariant holds. */
  lemma {:induction false} ReachableInv(carrier: Carrier, limits: Limits, ops: seq<Op>)
    requires ValidLimits(limits)
    ensures var s := RunFrom(NewSession(carrier, limits), ops);
      && s.panic != Some(BadRelease)
      && (s.panic.None? ==> Inv(s))
      && (s.panic.Some? ==>
          exists i :: 0 <= i < |ops| && Unretained(RunFrom(NewSession(carrier, limits), ops[..i]), ops[i]))
  {
    hide NewSession, Step, Unretained, InvWith;
    RunUnfolds(NewSession(carrier, limits), ops);
    if ops == [] {
      NewSessionInv(carrier, limits);
      InvLimits(NewSession(carrier, limits), 0, 0);
    } else {
      var n := |ops| - 1;
      var before := RunFrom(NewSession(carrier, limits), ops[..n]);
      ReachableInv(carrier, limits, ops[..n]);
      if before.panic.None? {
        StepKeepsInv(before, ops[n]);
      } else {
        var i :| 0 <= i < n && Unretained(RunFrom(NewSession(carrier, limits), ops[..n][..i]), ops[..n][i]);
        assert ops[..n][..i] == ops[..i];
        PanickedStays(before, ops[n]);
      }
    }
  }

  lemma PanickedStays(s: State, op: Op)
    requires s.panic.Some?
    ensures Step(s, op) == s
  {
  }
}
