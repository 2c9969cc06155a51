/** The client's credit: what a session queues for a backend, gives back with WINDOW frames and has taken
    from the client, section by section (`applyBatchLocked`, `backendDrained` and the validation of DATA
    in `internal/session/session.go`). */
module Credits {
  import opened Options
  import opened Frames
  import opened Budget
  import opened Lanes
  import opened Tombstones
  import opened SessionState
  import opened SessionInv
  import opened SessionSteps
  import opened Application
  import opened Validation
  import opened Flow
  import SessionRuns

  /** The bytes of a stream that wait for its backend; a stream that is not live has none. */
  function Waiting(s: State, id: nat): int {
    if id in s.streams then s.streams[id].pendingWriteBytes else 0
  }

  // ---------------------------------------------------------------------- the batch taken

  function BatchTaken(s: State, frames: seq<Frame>, a: Answers): seq<Frame> {
    if ValidateBatch(s, frames) && SessionRuns.ReservationGranted(s, frames, a) then frames else []
  }

  /** The frames of the batch a section takes from the client: one that is valid and reserved. */
  function TakenBy(s: State, op: SessionRuns.Op): seq<Frame> {
    match op
    case OpUpFinish(sequence, body, a) =>
      if !UsesLanes(s) && !s.closed && ClientFrames(s, body, None).Some?
      then BatchTaken(SetUpActive(s, MAIN, false), ClientFrames(s, body, None).value, a) else []
    case OpUpLane(laneID, sequence, body, a) =>
      if UsesLanes(s) && laneID <= MAX_STREAM_ID && ClientFrames(s, body, Some(laneID)).Some? && !s.closed
      then TakenOnLane(s, laneID, sequence, body, ClientFrames(s, body, Some(laneID)).value, a) else []
    case _ => []
  }

  function TakenOnLane(s: State, laneID: nat, sequence: nat, body: Bytes, frames: seq<Frame>, a: Answers): seq<Frame> {
    if laneID in s.carrierLanes then TakenAt(s, s.carrierLanes[laneID], sequence, body, frames, a)
    else if laneID != 0 && frames != [] && frames[0].typeCode == OPEN then
      TakenAt(AddLane(s, laneID), s.nextLane, sequence, body, frames, a)
    else []
  }

  function TakenAt(s: State, r: LaneRef, sequence: nat, body: Bytes, frames: seq<Frame>, a: Answers): seq<Frame> {
    if CheckUp(LaneAt(s, r), sequence, body) == Ready then BatchTaken(SetUpActive(s, r, true), frames, a) else []
  }

  /** The credit a section gives the client of a stream: what it reports as written, once the WINDOW is
      queued. */
  function Returned(s: State, op: SessionRuns.Op, id: nat): int {
    if op.OpDrained? && op.id == id && Drained(s, id, op.amount, op.granted).1 then op.amount else 0
  }

  // -------------------------------------------------------------------- batches add to it

  function DataOf(f: Frame, id: nat): nat {
    if f.typeCode == DATA && f.streamID == id then |f.payload| else 0
  }

  lemma FedWaits(st: Stream, payload: Bytes)
    ensures Fed(st, payload).pendingWriteBytes == st.pendingWriteBytes + |payload|
  {
  }

  lemma NewWaits(backend: nat)
    ensures NewStream(backend).pendingWriteBytes == 0
  {
  }

  lemma WaitingNonNegative(s: State, id: nat, cost: int, items: int)
    requires InvWith(s, cost, items)
    ensures Waiting(s, id) >= 0
  {
    if id in s.streams {
      hide InvWith;
      InvStream(s, id, cost, items);
    }
  }

  lemma FrameWaits(x: Applying, f: Frame, a: Answer, id: nat)
    requires InvWith(x.state, x.cost, x.items) && !x.state.closed && x.ok && Applicable(x.state, f, x.cost, x.items)
    ensures Waiting(ApplyFrame(x, f, a).state, id) <= Waiting(x.state, id) + DataOf(f, id)
  {
    hide InvWith, ApplyFrame, Fed, Credited, NewStream, Remember;
    var s := x.state;
    ApplyFrameCore(x, f, a);
    NewWaits(s.nextBackend);
    WaitingNonNegative(s, id, x.cost, x.items);
    if f.streamID in s.streams {
      FedWaits(s.streams[f.streamID], f.payload);
    }
  }

  lemma {:induction false} BatchWaits(
      x: Applying, sim: Sim, tombstones: set<nat>, past: seq<nat>, counted: set<nat>,
      frames: seq<Frame>, laneID: nat, answers: seq<Answer>, id: nat)
    requires InStep(x, sim, tombstones, past, counted, frames, laneID)
    ensures Waiting(ApplyAll(x, frames, answers).state, id) <= Waiting(x.state, id) + DataBytes(frames, id)
    decreases |frames|
  {
    hide InvWith, Linked, ApplyFrame, CoreStep, Simulate, PastAfter, Validate, OnWire, CountedAfter, Covered,
      Unknown, Applicable, OnOneLane, Waiting;
    if frames != [] && x.state.panic.None? {
      var f, a := frames[0], First(answers);
      var y := ApplyFrame(x, f, a);
      if Unknown(CoreOf(x.state), f) {
        UnknownPanics(x, f, a);
        SameWaiting(x.state, y.state, id);
      } else {
        KnownIsApplicable(x, sim, tombstones, past, counted, frames, laneID);
        KnownStaysInStep(x, sim, tombstones, past, counted, frames, laneID, a);
        FrameWaits(x, f, a, id);
        if y.ok {
          BatchWaits(y, Simulate(sim, tombstones, f), tombstones,
              PastAfter(CoreOf(x.state), past, f, a, x.state.limits),
                     CountedAfter(counted, f), frames[1..], laneID, Others(answers), id);
        }
      }
    }
  }

  lemma SameWaiting(s: State, t: State, id: nat)
    requires t.streams == s.streams
    ensures Waiting(t, id) == Waiting(s, id)
  {
  }

  lemma CommitWaits(s: State, r: LaneRef, sequence: nat, body: Bytes, frames: seq<Frame>, a: Answers, laneID: nat,
      id: nat)
    requires Inv(s) && !s.closed && r in s.lanes && OnWire(frames) && OnOneLane(s, frames, laneID)
    ensures Waiting(CommitBatch(s, r, sequence, body, frames, a).0, id)
      <= Waiting(s, id) + DataBytes(BatchTaken(s, frames, a), id)
  {
    hide InvWith, ValidateBatch, Reservation, ApplyAll, SessionRuns.ReservationGranted, OnOneLane, InStep, Fifo,
      OnWire, Release, Committed, SessionRuns.Unreserved, Waiting, DataBytes;
    SessionRuns.CommitCases(s, r, sequence, body, frames, a);
    var t := CommitBatch(s, r, sequence, body, frames, a).0;
    NoData(BatchTaken(s, frames, a), id);
    if ValidateBatch(s, frames) && SessionRuns.ReservationGranted(s, frames, a) {
      var reserved := SessionRuns.Reserved(s, frames);
      var x := Begin(reserved, frames);
      SessionRuns.ReservedKeepsInv(s, frames, a);
      SessionRuns.ReservedSame(s, frames, laneID);
      BatchStartsInStep(reserved, frames, laneID);
      SameWaiting(s, reserved, id);
      BatchWaits(x, Sim(Snapshots(s.streams), {}), s.tombstones.closed, Fifo(s.tombstones), s.streams.Keys, frames,
                 laneID, a.frames, id);
      var y := SessionRuns.AppliedTo(s, frames, a);
      ReleaseStreams(y.state, y.cost, y.items);
      SameWaiting(y.state, t, id);
    } else {
      if ValidateBatch(s, frames) {
        SessionRuns.UnreservedSame(s, frames, a);
      }
      SameWaiting(s, t, id);
    }
  }

  lemma NoData(frames: seq<Frame>, id: nat)
    ensures frames == [] ==> DataBytes(frames, id) == 0
  {
  }

  // ------------------------------------------------------------------ section by section

  lemma UpFinishWaits(s: State, op: SessionRuns.Op, id: nat)
    requires Inv(s) && op.OpUpFinish? && !UsesLanes(s)
    ensures Waiting(UpFinish(s, op.sequence, op.body, op.answers).0, id)
      <= Waiting(s, id) + DataBytes(TakenBy(s, op), id)
  {
    hide InvWith, CommitBatch, OnWire, ClientFrames, BatchTaken, Waiting, DataBytes;
    var idle := SetUpActive(s, MAIN, false);
    MainLane(s);
    SameWaiting(s, idle, id);
    NoData(TakenBy(s, op), id);
    if !s.closed && ClientFrames(s, op.body, None).Some? {
      var frames := ClientFrames(s, op.body, None).value;
      SessionRuns.ClientFramesOnWire(s, op.body, None);
      SessionRuns.UpActiveKeepsInv(s, MAIN, false);
      CommitWaits(idle, MAIN, op.sequence, op.body, frames, op.answers, 0, id);
    }
  }

  lemma UpOnLaneWaits(s: State, laneID: nat, sequence: nat, body: Bytes, frames: seq<Frame>, a: Answers, id: nat)
    requires Inv(s) && UsesLanes(s) && !s.closed && laneID in s.carrierLanes && OnWire(frames)
    requires forall i :: 0 <= i < |frames| ==> frames[i].streamID == laneID
    ensures var r := s.carrierLanes[laneID];
      Waiting(UpOnLane(s, r, sequence, body, frames, a).0, id)
        <= Waiting(s, id) + DataBytes(TakenAt(s, r, sequence, body, frames, a), id)
  {
    hide InvWith, CommitBatch, OnWire, CheckUp, BatchTaken, Waiting, DataBytes;
    var r := s.carrierLanes[laneID];
    SessionRuns.RegisteredInLanes(s, laneID);
    NoData(TakenAt(s, r, sequence, body, frames, a), id);
    if CheckUp(s.lanes[r], sequence, body) == Ready {
      var active := SetUpActive(s, r, true);
      SessionRuns.UpActiveKeepsInv(s, r, true);
      SameWaiting(s, active, id);
      CommitWaits(active, r, sequence, body, frames, a, laneID, id);
      var t := CommitBatch(active, r, sequence, body, frames, a).0;
      SameWaiting(t, SetUpActive(t, r, false), id);
    }
  }

  lemma UpLaneWaits(s: State, op: SessionRuns.Op, id: nat)
    requires Inv(s) && op.OpUpLane?
    ensures Waiting(UpLane(s, op.laneID, op.sequence, op.body, op.answers).0, id)
      <= Waiting(s, id) + DataBytes(TakenBy(s, op), id)
  {
    hide InvWith, UpOnLane, ClientFrames, OnWire, AddLane, TakenAt, Waiting, DataBytes;
    NoData(TakenBy(s, op), id);
    var laneID := op.laneID;
    if UsesLanes(s) && laneID <= MAX_STREAM_ID && ClientFrames(s, op.body, Some(laneID)).Some? && !s.closed {
      var frames := ClientFrames(s, op.body, Some(laneID)).value;
      SessionRuns.ClientFramesOnWire(s, op.body, Some(laneID));
      if frames[0].typeCode == OPEN {
        SessionRuns.OpensIsNotLate(frames);
      }
      hide OnlyLateFrames;
      if laneID in s.carrierLanes {
        UpOnLaneWaits(s, laneID, op.sequence, op.body, frames, op.answers, id);
      } else if laneID != 0 && frames[0].typeCode == OPEN {
        AddLaneKeepsInv(s, laneID, 0, 0);
        SessionRuns.AddedLane(s, laneID);
        AddLaneStreams(s, laneID);
        SameWaiting(s, AddLane(s, laneID), id);
        UpOnLaneWaits(AddLane(s, laneID), laneID, op.sequence, op.body, frames, op.answers, id);
      }
    }
  }

  lemma EndsWait(s: State, t: State, id: nat)
    requires Inv(s) && OnlyEnds(s, t)
    ensures Waiting(t, id) <= Waiting(s, id)
  {
    hide InvWith;
    WaitingNonNegative(s, id, 0, 0);
  }

  lemma BackendWaits(s: State, op: SessionRuns.Op, id: nat)
    requires Inv(s) && s.panic.None? && (op.OpNextWrite? || op.OpDrained? || op.OpWriteFinished? || op.OpBackendData?)
    ensures Waiting(SessionRuns.Step(s, op), id) + Returned(s, op, id) <= Waiting(s, id)
  {
    hide InvWith, QueueFrame, Release;
    if !s.closed && op.id in s.streams {
      var j := op.id;
      var st := s.streams[j];
      InvStream(s, j, 0, 0);
      match op
      case OpNextWrite(_) =>
      case OpDrained(_, amount, granted) => DrainedStreams(s, j, amount, granted);
      case OpWriteFinished(_) =>
        ReleaseStreams(WithStream(s, j, st.(pendingWriteItems := st.pendingWriteItems - 1,
                                            pendingWriteCost := st.pendingWriteCost - QUEUE_ITEM_COST)),
                                                QUEUE_ITEM_COST, 1);
      case OpBackendData(_, data, granted) =>
        if 0 < |data| <= DATA_CHUNK && |data| <= st.sendCredit {
          var t := WithStream(s, j, st.(sendCredit := st.sendCredit - |data|));
          SessionRuns.StreamTouchKeepsInv(s, j, st.(sendCredit := st.sendCredit - |data|));
          SessionRuns.LiveIsQueueable(t, Frame(DATA, j, data));
          EnqueueRoute(t, Frame(DATA, j, data), 0, 0);
          QueueKeepsStreams(t, Frame(DATA, j, data), granted);
        }
    }
  }

  /** Section by section: what waits for a stream's backend grows by no more than the DATA taken for it,
      and shrinks at least by the credit the client gets back. */
  lemma SectionWaits(s: State, op: SessionRuns.Op, id: nat)
    requires Inv(s) && s.panic.None?
    ensures Waiting(SessionRuns.Step(s, op), id) + Returned(s, op, id) <= Waiting(s, id) + DataBytes(TakenBy(s, op), id)
  {
    hide InvWith, UpFinish, UpLane, BackendData, Drained, Waiting, DataBytes;
    NoData(TakenBy(s, op), id);
    if op.OpUpFinish? {
      if !UsesLanes(s) { UpFinishWaits(s, op, id); }
    } else if op.OpUpLane? {
      UpLaneWaits(s, op, id);
    } else if op.OpNextWrite? || op.OpDrained? || op.OpWriteFinished? || op.OpBackendData? {
      BackendWaits(s, op, id);
    } else {
      hide SessionRuns.Step;
      if op.OpPollEnter? || op.OpPollWoken? || op.OpPollDeadline? || op.OpPollQuits? || op.OpPollDisplaced?
          || op.OpPollTakesToken? {
        PollEnds(s, op);
      } else {
        CarrierEnds(s, op);
      }
      EndsWait(s, SessionRuns.Step(s, op), id);
    }
  }
}
