/** Flow control and byte streams: for one stream of a session, from its OPEN to its end, what clients
    and backends may rely on (`appendBackendWriteLocked`, `nextWrite`, `backendDrained`,
    `backendWriteFinished`, `backendData` and the write loop in `internal/session/session.go`).

    A stream is named by its id and its backend's identity. Its backend has one writer, which takes a
    queued write, writes it piece by piece and reports each piece; everything else the session does,
    for this stream and all others, goes on in between. */
module Flow {
  import opened Options
  import opened Frames
  import opened Budget
  import opened DownQueue
  import opened Lanes
  import opened Tombstones
  import opened SessionState
  import opened SessionInv
  import opened SessionSteps
  import opened Application
  import opened Validation
  import SessionRuns

  /** The writer between two calls: idle, or with the rest of the write it has taken. */
  datatype Writer = Idling | Writing(rest: Bytes)

  /** The stream's history: the DATA bytes applied and the bytes that reached the backend; the credit
      granted to the client with WINDOW frames; the credit the client granted; the bytes queued for it,
      and all that were read for it, whether or not they could be queued.
      `carried` is what all frames applied so far carry for the id since its last OPEN, read off the
      frames alone; `pieces` are the payloads of the DATA frames applied. */
  datatype StreamLog = StreamLog(applied: Bytes, written: Bytes, granted: nat, windows: nat, queued: nat,
      spent: nat, carried: Bytes, pieces: set<Bytes>)

  const NO_LOG := StreamLog([], [], 0, 0, 0, 0, [], {})

  datatype FlowRun = FlowRun(s: State, writer: Writer, log: StreamLog)

  predicate Live(s: State, id: nat, backend: nat) {
    id in s.streams && s.streams[id].backend == backend
  }

  function RestOf(w: Writer): Bytes { if w.Writing? then w.rest else [] }

  // ------------------------------------------------------------- the stream's invariant

  /** Bytes are neither lost, repeated nor reordered on their way to the backend; the pending counters
      are those of the writes not yet finished; and neither side is granted what was not released. */
  predicate StreamFlows(st: Stream, w: Writer, log: StreamLog) {
    && log.written + RestOf(w) + Flattened(st.writes) == log.applied
    && st.pendingWriteBytes == |RestOf(w)| + |Flattened(st.writes)|
    && st.pendingWriteItems == |st.writes| + (if w.Writing? then 1 else 0)
    && log.granted <= |log.written| && log.applied == log.carried
    && log.queued <= log.spent
    && st.sendCredit + log.spent <= INITIAL_STREAM_WINDOW + log.windows
    && (INITIAL_STREAM_WINDOW + log.windows <= MAX_UINT32 ==>
          st.sendCredit + log.spent == INITIAL_STREAM_WINDOW + log.windows)
    && WritesPacked(st.writes, log.pieces)
  }

  /** A queued write is no longer than one chunk unless one frame brought it, and no two successive ones
      would fit into one chunk. */
  predicate WritesPacked(writes: seq<Bytes>, pieces: set<Bytes>) {
    && (forall i :: 0 <= i < |writes| ==> |writes[i]| <= DATA_CHUNK || writes[i] in pieces)
    && (forall i :: 0 <= i < |writes| - 1 ==> |writes[i]| + |writes[i + 1]| > DATA_CHUNK)
  }

  lemma FedPacked(st: Stream, payload: Bytes, pieces: set<Bytes>)
    requires WritesPacked(st.writes, pieces)
    ensures WritesPacked(Fed(st, payload).writes, pieces + {payload})
  {
  }

  lemma TakenPacked(writes: seq<Bytes>, pieces: set<Bytes>)
    requires WritesPacked(writes, pieces) && writes != []
    ensures WritesPacked(writes[1..], pieces)
  {
    var rest := writes[1..];
    assert forall i :: 0 <= i < |rest| ==> rest[i] == writes[i + 1];
  }

  lemma {:induction false} FlattenedAppend(writes: seq<Bytes>, payload: Bytes)
    ensures Flattened(writes + [payload]) == Flattened(writes) + payload
  {
    if writes == [] {
      assert [payload][1..] == [];
    } else {
      assert (writes + [payload])[1..] == writes[1..] + [payload];
      FlattenedAppend(writes[1..], payload);
    }
  }

  lemma FlattenedCoalesce(writes: seq<Bytes>, payload: Bytes)
    requires writes != []
    ensures Flattened(writes[|writes| - 1 := writes[|writes| - 1] + payload]) == Flattened(writes) + payload
  {
    var n := |writes| - 1;
    assert writes == writes[..n] + [writes[n]];
    assert writes[n := writes[n] + payload] == writes[..n] + [writes[n] + payload];
    FlattenedAppend(writes[..n], writes[n]);
    FlattenedAppend(writes[..n], writes[n] + payload);
  }

  lemma Regroup(a: Bytes, b: Bytes, c: Bytes, d: Bytes)
    ensures a + b + (c + d) == (a + b + c) + d
  {
  }

  /** Queueing DATA appends to the byte stream, whether or not it joins the last write. */
  lemma FedFlows(st: Stream, w: Writer, log: StreamLog, payload: Bytes)
    requires StreamFlows(st, w, log)
    ensures StreamFlows(Fed(st, payload), w,
        log.(applied := log.applied + payload, carried := log.carried + payload, pieces := log.pieces + {payload}))
  {
    FedPacked(st, payload, log.pieces);
    hide WritesPacked;
    if CoalescesWrite(st, payload) {
      FlattenedCoalesce(st.writes, payload);
    } else {
      FlattenedAppend(st.writes, payload);
    }
    Regroup(log.written, RestOf(w), Flattened(st.writes), payload);
  }

  lemma CreditedFlows(st: Stream, w: Writer, log: StreamLog, payload: Bytes)
    requires StreamFlows(st, w, log)
    ensures StreamFlows(st.(sendCredit := Credited(st.sendCredit, payload)), w,
        log.(windows := log.windows + WindowAmount(payload)))
  {
  }

  lemma NewFlows(backend: nat)
    ensures StreamFlows(NewStream(backend), Idling, NO_LOG)
  {
  }

  // ----------------------------------------------------------------------- batches

  /** The stream is live and the frame is for it and not late. */
  predicate ReachesStream(s: State, f: Frame, id: nat, backend: nat) {
    f.streamID == id && id != 0 && Live(s, id, backend) && id !in s.tombstones.closed
  }

  /** The DATA bytes since the last OPEN of the id, when one more frame comes. */
  function SinceFrame(base: Bytes, f: Frame, id: nat): Bytes {
    if f.streamID != id then base
    else if f.typeCode == OPEN then []
    else if f.typeCode == DATA then base + f.payload
    else base
  }

  /** One frame in the stream's history. */
  function Logged(log: StreamLog, s: State, f: Frame, id: nat, backend: nat): StreamLog {
    var next := log.(carried := SinceFrame(log.carried, f, id));
    if !ReachesStream(s, f, id, backend) then next
    else if f.typeCode == DATA then next.(applied := log.applied + f.payload, pieces := log.pieces + {f.payload})
    else if f.typeCode == WINDOW then next.(windows := log.windows + WindowAmount(f.payload))
    else next
  }

  /** The frames of a batch that are applied, in the stream's history. */
  function LoggedAll(log: StreamLog, x: Applying, frames: seq<Frame>, answers: seq<Answer>, id: nat,
      backend: nat): StreamLog
    decreases |frames|
  {
    if frames == [] || !x.ok || x.state.panic.Some? then log
    else LoggedAll(Logged(log, x.state, frames[0], id, backend), ApplyFrame(x, frames[0], First(answers)), frames[1..],
        Others(answers), id, backend)
  }

  /** Nothing has happened on the stream itself. */
  predicate NothingLogged(log: StreamLog) { log == NO_LOG.(carried := log.carried) }

  /** The invariant of the run, for the stream `id` of `backend`. */
  ghost predicate Flows(s: State, w: Writer, log: StreamLog, id: nat, backend: nat) {
    && (forall i :: i in s.streams ==> s.streams[i].backend < s.nextBackend)
    && (Live(s, id, backend) ==> StreamFlows(s.streams[id], w, log))
    && (s.nextBackend <= backend ==> w == Idling && NothingLogged(log))
  }

  lemma FrameFlows(x: Applying, f: Frame, a: Answer, w: Writer, log: StreamLog, id: nat, backend: nat)
    requires InvWith(x.state, x.cost, x.items) && !x.state.closed && x.ok && Applicable(x.state, f, x.cost, x.items)
    requires Flows(x.state, w, log, id, backend)
    ensures Flows(ApplyFrame(x, f, a).state, w, Logged(log, x.state, f, id, backend), id, backend)
  {
    hide InvWith, ApplyFrame, Fed, Credited, StreamFlows, NewStream, Remember;
    var s := x.state;
    ApplyFrameCore(x, f, a);
    NewFlows(s.nextBackend);
    NewBackend(s.nextBackend);
    if id in s.streams {
      LiveNotClosed(s, id, x.cost, x.items);
    }
    if ReachesStream(s, f, id, backend) {
      if f.typeCode == DATA {
        FedFlows(s.streams[id], w, log, f.payload);
      } else if f.typeCode == WINDOW {
        CreditedFlows(s.streams[id], w, log, f.payload);
      }
    }
    if f.streamID in s.streams {
      FedBackend(s.streams[f.streamID], f.payload);
    }
  }

  lemma LiveNotClosed(s: State, id: nat, cost: int, items: int)
    requires InvWith(s, cost, items) && id in s.streams
    ensures id !in s.tombstones.closed && id != 0
  {
    hide LanesInv, Accounts;
  }

  lemma NewBackend(backend: nat)
    ensures NewStream(backend).backend == backend
  {
  }

  lemma FedBackend(st: Stream, payload: Bytes)
    ensures Fed(st, payload).backend == st.backend
  {
  }

  lemma PanicFlows(s: State, t: State, w: Writer, log: StreamLog, id: nat, backend: nat)
    requires Flows(s, w, log, id, backend) && t.streams == s.streams && t.nextBackend == s.nextBackend
    ensures Flows(t, w, log, id, backend)
  {
  }

  lemma {:induction false} BatchFlows(
      x: Applying, sim: Sim, tombstones: set<nat>, past: seq<nat>, counted: set<nat>,
      frames: seq<Frame>, laneID: nat, answers: seq<Answer>, w: Writer, log: StreamLog, id: nat, backend: nat)
    requires InStep(x, sim, tombstones, past, counted, frames, laneID) && Flows(x.state, w, log, id, backend)
    ensures Flows(ApplyAll(x, frames, answers).state, w, LoggedAll(log, x, frames, answers, id, backend), id, backend)
    decreases |frames|
  {
    hide InvWith, Linked, ApplyFrame, CoreStep, Simulate, PastAfter, Validate, OnWire, CountedAfter, Covered,
      Unknown, Applicable, Flows, Logged, OnOneLane;
    if frames != [] && x.state.panic.None? {
      var f, a := frames[0], First(answers);
      var y := ApplyFrame(x, f, a);
      if Unknown(CoreOf(x.state), f) {
        UnknownPanics(x, f, a);
        UnknownFlows(x.state, f, w, log, id, backend);
        PanicFlows(x.state, y.state, w, Logged(log, x.state, f, id, backend), id, backend);
        StoppedLog(Logged(log, x.state, f, id, backend), y, frames[1..], Others(answers), id, backend);
      } else {
        KnownIsApplicable(x, sim, tombstones, past, counted, frames, laneID);
        KnownStaysInStep(x, sim, tombstones, past, counted, frames, laneID, a);
        FrameFlows(x, f, a, w, log, id, backend);
        if y.ok {
          BatchFlows(y, Simulate(sim, tombstones, f), tombstones,
              PastAfter(CoreOf(x.state), past, f, a, x.state.limits),
                     CountedAfter(counted, f), frames[1..], laneID, Others(answers), w, Logged(log, x.state, f, id,
                         backend), id, backend);
        } else {
          StoppedLog(Logged(log, x.state, f, id, backend), y, frames[1..], Others(answers), id, backend);
        }
      }
    }
  }

  lemma UnknownFlows(s: State, f: Frame, w: Writer, log: StreamLog, id: nat, backend: nat)
    requires Unknown(CoreOf(s), f) && Flows(s, w, log, id, backend)
    ensures Flows(s, w, Logged(log, s, f, id, backend), id, backend)
  {
  }

  lemma StoppedLog(log: StreamLog, x: Applying, frames: seq<Frame>, answers: seq<Answer>, id: nat, backend: nat)
    requires !x.ok || x.state.panic.Some?
    ensures LoggedAll(log, x, frames, answers, id, backend) == log && ApplyAll(x, frames, answers) == x
  {
  }

  // ------------------------------------------------------------------ uplink sections

  /** The batch an uplink section applies, if it gets that far: the state it starts from and its frames. */
  function CommitLog(log: StreamLog, s: State, frames: seq<Frame>, a: Answers, id: nat, backend: nat): StreamLog {
    if ValidateBatch(s, frames) && SessionRuns.ReservationGranted(s, frames, a)
    then LoggedAll(log, Begin(SessionRuns.Reserved(s, frames), frames), frames, a.frames, id, backend)
    else log
  }

  lemma CommitFlows(s: State, r: LaneRef, sequence: nat, body: Bytes, frames: seq<Frame>, a: Answers, laneID: nat,
      w: Writer, log: StreamLog, id: nat, backend: nat)
    requires Inv(s) && !s.closed && r in s.lanes && OnWire(frames) && OnOneLane(s, frames, laneID)
    requires Flows(s, w, log, id, backend)
    ensures Flows(CommitBatch(s, r, sequence, body, frames, a).0, w, CommitLog(log, s, frames, a, id, backend), id,
        backend)
  {
    hide InvWith, ValidateBatch, Reservation, ApplyAll, SessionRuns.ReservationGranted, OnOneLane, InStep, Fifo,
      OnWire, Release, Flows, LoggedAll, Committed, SessionRuns.Unreserved;
    SessionRuns.CommitCases(s, r, sequence, body, frames, a);
    if ValidateBatch(s, frames) && SessionRuns.ReservationGranted(s, frames, a) {
      var reserved := SessionRuns.Reserved(s, frames);
      var x := Begin(reserved, frames);
      SessionRuns.ReservedKeepsInv(s, frames, a);
      SessionRuns.ReservedSame(s, frames, laneID);
      BatchStartsInStep(reserved, frames, laneID);
      PanicFlows(s, reserved, w, log, id, backend);
      BatchFlows(x, Sim(Snapshots(s.streams), {}), s.tombstones.closed, Fifo(s.tombstones), s.streams.Keys, frames,
          laneID, a.frames, w, log, id, backend);
      var y := SessionRuns.AppliedTo(s, frames, a);
      var logged := CommitLog(log, s, frames, a, id, backend);
      ReleaseStreams(y.state, y.cost, y.items);
      PanicFlows(y.state, Release(y.state, y.cost, y.items), w, logged, id, backend);
      PanicFlows(y.state, CommitBatch(s, r, sequence, body, frames, a).0, w, logged, id, backend);
    } else if ValidateBatch(s, frames) {
      SessionRuns.UnreservedSame(s, frames, a);
      PanicFlows(s, SessionRuns.Unreserved(s, frames, a), w, log, id, backend);
    }
  }

  lemma ReleaseStreams(s: State, cost: int, items: int)
    ensures Release(s, cost, items).streams == s.streams && Release(s, cost, items).nextBackend == s.nextBackend
  {
  }

  /** The stream's history after a section of the session. */
  function OpLog(log: StreamLog, s: State, op: SessionRuns.Op, id: nat, backend: nat): StreamLog {
    match op
    case OpUpFinish(sequence, body, a) =>
      if !UsesLanes(s) && !s.closed && ClientFrames(s, body, None).Some?
      then CommitLog(log, SetUpActive(s, MAIN, false), ClientFrames(s, body, None).value, a, id, backend) else log
    case OpUpLane(laneID, sequence, body, a) =>
      if UsesLanes(s) && laneID <= MAX_STREAM_ID && ClientFrames(s, body, Some(laneID)).Some? && !s.closed
      then UpLaneLog(log, s, laneID, sequence, body, ClientFrames(s, body, Some(laneID)).value, a, id, backend) else log
    case OpBackendData(stream, data, granted) =>
      if stream == id && Live(s, id, backend) && !s.closed && 0 < |data| <= DATA_CHUNK
          && |data| <= s.streams[id].sendCredit
      then
        log.(spent := log.spent + |data|,
             queued := log.queued + (if BackendData(s, id, data, granted).1 then |data| else 0))
      else log
    case _ => log
  }

  /** The lane a body is applied on: the registered one, or one that its OPEN registers. */
  function UpLaneLog(log: StreamLog, s: State, laneID: nat, sequence: nat, body: Bytes, frames: seq<Frame>,
      a: Answers, id: nat, backend: nat): StreamLog {
    var opens := laneID != 0 && frames != [] && frames[0].typeCode == OPEN;
    if laneID in s.carrierLanes then OnLaneLog(log, s, s.carrierLanes[laneID], sequence, body, frames, a, id, backend)
    else if opens then OnLaneLog(log, AddLane(s, laneID), s.nextLane, sequence, body, frames, a, id, backend)
    else log
  }

  function OnLaneLog(log: StreamLog, s: State, r: LaneRef, sequence: nat, body: Bytes, frames: seq<Frame>, a: Answers,
      id: nat, backend: nat): StreamLog {
    if CheckUp(LaneAt(s, r), sequence, body) == Ready then
      CommitLog(log, SetUpActive(s, r, true), frames, a, id, backend) else log
  }

  lemma UpFinishFlows(s: State, sequence: nat, body: Bytes, a: Answers, w: Writer, log: StreamLog, id: nat,
      backend: nat)
    requires Inv(s) && !UsesLanes(s) && Flows(s, w, log, id, backend)
    ensures Flows(UpFinish(s, sequence, body, a).0, w,
        OpLog(log, s, SessionRuns.OpUpFinish(sequence, body, a), id, backend), id, backend)
  {
    hide InvWith, CommitBatch, OnWire, ClientFrames, Flows, CommitLog;
    var idle := SetUpActive(s, MAIN, false);
    PanicFlows(s, idle, w, log, id, backend);
    MainLane(s);
    if !s.closed && ClientFrames(s, body, None).Some? {
      SessionRuns.ClientFramesOnWire(s, body, None);
      SessionRuns.UpActiveKeepsInv(s, MAIN, false);
      CommitFlows(idle, MAIN, sequence, body, ClientFrames(s, body, None).value, a, 0, w, log, id, backend);
    }
  }

  lemma MainLane(s: State)
    requires Inv(s)
    ensures MAIN in s.lanes
  {
    hide StreamsInv, LaneInv, Placement, Register, Accounts;
  }

  lemma UpOnLaneFlows(s: State, laneID: nat, sequence: nat, body: Bytes, frames: seq<Frame>, a: Answers, w: Writer,
      log: StreamLog, id: nat, backend: nat)
    requires Inv(s) && UsesLanes(s) && !s.closed && laneID in s.carrierLanes && OnWire(frames)
        && Flows(s, w, log, id, backend)
    requires forall i :: 0 <= i < |frames| ==> frames[i].streamID == laneID
    ensures var r := s.carrierLanes[laneID];
      Flows(UpOnLane(s, r, sequence, body, frames, a).0, w,
          OnLaneLog(log, s, r, sequence, body, frames, a, id, backend), id, backend)
  {
    hide InvWith, CommitBatch, OnWire, Flows, CommitLog, CheckUp;
    var r := s.carrierLanes[laneID];
    SessionRuns.RegisteredInLanes(s, laneID);
    SessionRuns.UpActiveKeepsInv(s, r, true);
    var active := SetUpActive(s, r, true);
    PanicFlows(s, active, w, log, id, backend);
    CommitFlows(active, r, sequence, body, frames, a, laneID, w, log, id, backend);
    var t := CommitBatch(active, r, sequence, body, frames, a).0;
    PanicFlows(t, SetUpActive(t, r, false), w, CommitLog(log, active, frames, a, id, backend), id, backend);
  }

  lemma UpLaneFlows(s: State, laneID: nat, sequence: nat, body: Bytes, a: Answers, w: Writer, log: StreamLog, id: nat,
      backend: nat)
    requires Inv(s) && Flows(s, w, log, id, backend)
    ensures Flows(UpLane(s, laneID, sequence, body, a).0, w,
        OpLog(log, s, SessionRuns.OpUpLane(laneID, sequence, body, a), id, backend), id, backend)
  {
    hide InvWith, UpOnLane, OnLaneLog, ClientFrames, OnWire, AddLane, Flows;
    if UsesLanes(s) && laneID <= MAX_STREAM_ID && ClientFrames(s, body, Some(laneID)).Some? && !s.closed {
      var frames := ClientFrames(s, body, Some(laneID)).value;
      SessionRuns.ClientFramesOnWire(s, body, Some(laneID));
      if frames[0].typeCode == OPEN {
        SessionRuns.OpensIsNotLate(frames);
      }
      hide OnlyLateFrames;
      if laneID in s.carrierLanes {
        UpOnLaneFlows(s, laneID, sequence, body, frames, a, w, log, id, backend);
      } else if laneID != 0 && frames[0].typeCode == OPEN {
        AddLaneKeepsInv(s, laneID, 0, 0);
        SessionRuns.AddedLane(s, laneID);
        AddLaneStreams(s, laneID);
        PanicFlows(s, AddLane(s, laneID), w, log, id, backend);
        UpOnLaneFlows(AddLane(s, laneID), laneID, sequence, body, frames, a, w, log, id, backend);
      }
    }
  }

  lemma AddLaneStreams(s: State, laneID: nat)
    ensures AddLane(s, laneID).streams == s.streams && AddLane(s, laneID).nextBackend == s.nextBackend
  {
  }

  // ------------------------------------------------------------------- other sections

  /** Streams end, and no stream is changed or begun. */
  predicate OnlyEnds(s: State, t: State) {
    t.nextBackend == s.nextBackend && forall i :: i in t.streams ==> i in s.streams && t.streams[i] == s.streams[i]
  }

  lemma EndsFlow(s: State, t: State, w: Writer, log: StreamLog, id: nat, backend: nat)
    requires Flows(s, w, log, id, backend) && OnlyEnds(s, t)
    ensures Flows(t, w, log, id, backend)
  {
    hide StreamFlows;
  }

  /** One stream's record changes; if it is the stream, so does its history. */
  lemma RecordFlows(s: State, t: State, j: nat, st: Stream, w: Writer, log: StreamLog, v: Writer, after: StreamLog,
      id: nat, backend: nat)
    requires Flows(s, w, log, id, backend) && j in s.streams && st.backend == s.streams[j].backend
    requires t.streams == s.streams[j := st] && t.nextBackend == s.nextBackend
    requires if j == id && Live(s, id, backend) then StreamFlows(st, v, after) else v == w && after == log
    ensures Flows(t, v, after, id, backend)
  {
    hide StreamFlows;
  }

  lemma DropLaneEnds(s: State, laneID: nat, cost: int, items: int)
    requires InvWith(s, cost, items) && laneID !in s.streams
    ensures OnlyEnds(s, DropLane(s, laneID))
  {
    hide InvWith, DropLane;
    DropLaneShape(s, laneID, cost, items);
  }

  lemma EndStreamEnds(s: State, id: nat, cost: int, items: int)
    requires InvWith(s, cost, items) && id in s.streams
    ensures OnlyEnds(s, RememberClosed(DropStream(s, id), id)) && OnlyEnds(s, DropStream(s, id))
  {
    hide InvWith, RememberClosed, DropStream, Remember;
    DropStreamKeepsInv(s, id, cost, items);
    RememberShape(DropStream(s, id), id, cost, items);
  }

  lemma ReleaseLaneEnds(s: State, laneID: nat)
    requires Inv(s)
    ensures OnlyEnds(s, ReleaseWebSocketLane(s, laneID))
  {
    hide InvWith, DropLane, DropStream, RememberClosed, Evicted, Remember;
    if s.carrier == WebSocketLanes && laneID in s.carrierLanes {
      var r := s.carrierLanes[laneID];
      SessionRuns.RegisteredInLanes(s, laneID);
      SessionRuns.ActivateKeepsInv(s, r, false);
      var inactive := WithLane(s, r, s.lanes[r].(websocketActive := false));
      if laneID in s.streams {
        DropStreamKeepsInv(inactive, laneID, 0, 0);
        RememberKeepsInv(DropStream(inactive, laneID), laneID, 0, 0);
        RememberShape(DropStream(inactive, laneID), laneID, 0, 0);
        EndStreamEnds(inactive, laneID, 0, 0);
        DropLaneEnds(RememberClosed(DropStream(inactive, laneID), laneID), laneID, 0, 0);
      } else {
        DropLaneEnds(inactive, laneID, 0, 0);
      }
    }
  }

  lemma CloseEnds(s: State)
    ensures OnlyEnds(s, CloseSession(s))
  {
  }

  lemma QueueKeepsStreams(s: State, f: Frame, granted: bool)
    requires Route(s, f.streamID).Some?
    ensures QueueFrame(s, f, granted).0.streams == s.streams
        && QueueFrame(s, f, granted).0.nextBackend == s.nextBackend
  {
    hide QueueFrame, Enqueue, Admit, SessionAdmits;
    QueueShape(s, f, granted);
  }

  lemma BackendClosedEnds(s: State, j: nat, backend: nat, granted: bool)
    requires Inv(s)
    ensures OnlyEnds(s, BackendClosed(s, j, backend, granted))
  {
    hide InvWith, DropStream, RememberClosed, QueueFrame, CloseSession, Queueable, Remember;
    if !s.closed && j in s.streams && s.streams[j].backend == backend {
      InvStream(s, j, 0, 0);
      var dropped := DropStream(s, j);
      var remembered := RememberClosed(dropped, j);
      DropStreamKeepsInv(s, j, 0, 0);
      RememberKeepsInv(dropped, j, 0, 0);
      RememberShape(dropped, j, 0, 0);
      EndStreamEnds(s, j, 0, 0);
      CloseIsQueueable(remembered, j, 0, 0);
      EnqueueRoute(remembered, Frame(CLOSE, j, []), 0, 0);
      QueueKeepsStreams(remembered, Frame(CLOSE, j, []), granted);
      CloseEnds(QueueFrame(remembered, Frame(CLOSE, j, []), granted).0);
    }
  }

  lemma CarrierEnds(s: State, op: SessionRuns.Op)
    requires Inv(s) && s.panic.None?
    requires op.OpFailure? || op.OpClose? || op.OpAcquireWebSocket? || op.OpAcquireLane? || op.OpReleaseLane?
        || op.OpBackendClosed? || op.OpUpBegin?
    ensures OnlyEnds(s, SessionRuns.Step(s, op))
  {
    hide InvWith, CloseSession, ReleaseWebSocketLane, BackendClosed, CheckUp;
    CloseEnds(s);
    match op {
      case OpFailure(laneID) => ReleaseLaneEnds(s, laneID);
      case OpReleaseLane(laneID) => ReleaseLaneEnds(s, laneID);
      case OpBackendClosed(j, b, granted) => BackendClosedEnds(s, j, b, granted);
      case _ =>
    }
  }

  lemma PollEnds(s: State, op: SessionRuns.Op)
    requires s.panic.None?
    requires op.OpPollEnter? || op.OpPollWoken? || op.OpPollDeadline? || op.OpPollQuits? || op.OpPollDisplaced?
        || op.OpPollTakesToken?
    ensures OnlyEnds(s, SessionRuns.Step(s, op))
  {
    hide AfterToken, Deadline, Quit, ConditionOf, Loop, Present, TakeOver;
  }

  /** The write loop's calls are the stream's own writer's as long as the stream is live. */
  predicate WriterCall(op: SessionRuns.Op, id: nat) {
    (op.OpNextWrite? || op.OpDrained? || op.OpWriteFinished?) && op.id == id
  }

  lemma OtherWriterFlows(s: State, op: SessionRuns.Op, w: Writer, log: StreamLog, id: nat, backend: nat)
    requires Inv(s) && s.panic.None? && Flows(s, w, log, id, backend)
    requires (op.OpNextWrite? || op.OpDrained? || op.OpWriteFinished?) && !(op.id == id && Live(s, id, backend))
    ensures Flows(SessionRuns.Step(s, op), w, log, id, backend)
  {
    hide InvWith, QueueFrame, Release, Flows;
    var t := SessionRuns.Step(s, op);
    if !s.closed && op.id in s.streams {
      var j := op.id;
      var st := s.streams[j];
      match op
      case OpNextWrite(_) =>
        if st.writes != [] {
          RecordFlows(s, t, j, st.(writes := st.writes[1..]), w, log, w, log, id, backend);
        }
      case OpDrained(_, amount, granted) =>
        DrainedStreams(s, j, amount, granted); PieceFlows(s, t, j, w, log, id, backend);
      case OpWriteFinished(_) =>
        ReleaseStreams(WithStream(s, j, st.(pendingWriteItems := st.pendingWriteItems - 1,
                pendingWriteCost := st.pendingWriteCost - QUEUE_ITEM_COST)), QUEUE_ITEM_COST, 1);
        PieceFlows(s, t, j, w, log, id, backend);
    }
  }

  lemma PieceFlows(s: State, t: State, j: nat, w: Writer, log: StreamLog, id: nat, backend: nat)
    requires Flows(s, w, log, id, backend) && j in s.streams && !(j == id && Live(s, id, backend))
    requires t.nextBackend == s.nextBackend
    requires t.streams == s.streams
        || (j in t.streams && t.streams == s.streams[j := t.streams[j]] && t.streams[j].backend == s.streams[j].backend)
    ensures Flows(t, w, log, id, backend)
  {
    if t.streams == s.streams {
      PanicFlows(s, t, w, log, id, backend);
    } else {
      RecordFlows(s, t, j, t.streams[j], w, log, w, log, id, backend);
    }
  }

  /** A piece of a write has reached the backend. */
  function AfterPiece(st: Stream, amount: int): Stream
    requires 0 <= amount
  {
    st.(pendingWriteBytes := st.pendingWriteBytes - amount, pendingWriteCost := st.pendingWriteCost - amount,
        receiveWindow := st.receiveWindow + amount)
  }

  predicate PieceRejected(st: Stream, amount: int) {
    amount <= 0 || amount > st.pendingWriteBytes || amount > st.pendingWriteCost
    || st.receiveWindow + amount > INITIAL_STREAM_WINDOW
  }

  lemma DrainedStreams(s: State, j: nat, amount: int, granted: bool)
    requires Inv(s) && !s.closed && j in s.streams
    ensures var (t, ok) := Drained(s, j, amount, granted);
      && t.nextBackend == s.nextBackend
      && (PieceRejected(s.streams[j], amount) ==> t == s && !ok)
      && (!PieceRejected(s.streams[j], amount) ==> t.streams == s.streams[j := AfterPiece(s.streams[j], amount)])
  {
    hide InvWith, QueueFrame, Release;
    var st := s.streams[j];
    InvStream(s, j, 0, 0);
    if !PieceRejected(st, amount) {
      SessionRuns.StreamShrinkKeepsInv(s, j, AfterPiece(st, amount), amount, 0);
      var t := Release(WithStream(s, j, AfterPiece(st, amount)), amount, 0);
      var f := Frame(WINDOW, j, WindowPayload(amount));
      SessionRuns.LiveIsQueueable(t, f);
      EnqueueRoute(t, f, 0, 0);
      QueueKeepsStreams(t, f, granted);
    }
  }

  lemma DataFlows(s: State, j: nat, data: Bytes, granted: bool, w: Writer, log: StreamLog, id: nat, backend: nat)
    requires Inv(s) && s.panic.None? && Flows(s, w, log, id, backend) && |data| <= DATA_CHUNK
    ensures Flows(BackendData(s, j, data, granted).0, w,
        OpLog(log, s, SessionRuns.OpBackendData(j, data, granted), id, backend), id, backend)
  {
    hide InvWith, QueueFrame, Flows;
    if !s.closed && j in s.streams && 0 < |data| <= s.streams[j].sendCredit {
      var st := s.streams[j].(sendCredit := s.streams[j].sendCredit - |data|);
      var t := WithStream(s, j, st);
      InvStream(s, j, 0, 0);
      SessionRuns.StreamTouchKeepsInv(s, j, st);
      SessionRuns.LiveIsQueueable(t, Frame(DATA, j, data));
      EnqueueRoute(t, Frame(DATA, j, data), 0, 0);
      QueueKeepsStreams(t, Frame(DATA, j, data), granted);
      FlowsMeans(s, w, log, id, backend);
      RecordFlows(s, BackendData(s, j, data, granted).0, j, st, w, log, w,
          OpLog(log, s, SessionRuns.OpBackendData(j, data, granted), id, backend), id, backend);
    }
  }

  lemma FlowsMeans(s: State, w: Writer, log: StreamLog, id: nat, backend: nat)
    requires Flows(s, w, log, id, backend)
    ensures Live(s, id, backend) ==> StreamFlows(s.streams[id], w, log)
  {
  }

  // ----------------------------------------------------------------------------- runs

  /** A section of the session; the writer takes a write, writes a piece of it and reports that, or
      reports the write finished. */
  datatype FlowEvent = Section(op: SessionRuns.Op) | TakeWrite | WritePiece(amount: nat, granted: bool) | FinishWrite

  /** The writer acts for the stream while it is live, and only it does. */
  function FlowStep(x: FlowRun, e: FlowEvent, id: nat, backend: nat): FlowRun {
    if x.s.panic.Some? then x
    else
      match e
      case Section(op) =>
        if WriterCall(op, id) && Live(x.s, id, backend) then x
        else x.(s := SessionRuns.Step(x.s, op), log := OpLog(x.log, x.s, op, id, backend))
      case TakeWrite =>
        if !Live(x.s, id, backend) || x.writer.Writing? then x
        else
          var (t, data) := NextWrite(x.s, id);
          x.(s := t, writer := if data.Some? then Writing(data.value) else Idling)
      case WritePiece(amount, granted) =>
        if !Live(x.s, id, backend) || x.writer.Idling? || !(0 < amount <= |x.writer.rest|) then x
        else
          var (t, ok) := Drained(x.s, id, amount, granted);
          FlowRun(t, Writing(x.writer.rest[amount..]),
                  x.log.(written := x.log.written + x.writer.rest[..amount],
                      granted := x.log.granted + (if ok then amount else 0)))
      case FinishWrite =>
        if !Live(x.s, id, backend) || x.writer != Writing([]) then x
        else x.(s := WriteFinished(x.s, id).0, writer := Idling)
  }

  /** The run, event by event. It is in three parts so that proofs look at a step only where they ask to,
      by `FlowUnfolds`. */
  function FlowFrom(x: FlowRun, events: seq<FlowEvent>, id: nat, backend: nat): FlowRun
    decreases |events|, 2
  {
    FlowEvents(x, events, id, backend)
  }

  function FlowEvents(x: FlowRun, events: seq<FlowEvent>, id: nat, backend: nat): FlowRun
    decreases |events|, 1
  {
    if events == [] then x else FlowLastEvent(x, events, id, backend)
  }

  function FlowLastEvent(x: FlowRun, events: seq<FlowEvent>, id: nat, backend: nat): FlowRun
    requires events != []
    decreases |events|, 0
  {
    FlowStep(FlowFrom(x, events[..|events| - 1], id, backend), events[|events| - 1], id, backend)
  }

  lemma FlowUnfolds(x: FlowRun, events: seq<FlowEvent>, id: nat, backend: nat)
    ensures events == [] ==> FlowFrom(x, events, id, backend) == x
    ensures events != [] ==>
      FlowFrom(x, events, id, backend)
        == FlowStep(FlowFrom(x, events[..|events| - 1], id, backend), events[|events| - 1], id, backend)
  {
    hide FlowStep;
    assert FlowFrom(x, events, id, backend) == FlowEvents(x, events, id, backend);
    if events != [] {
      assert FlowEvents(x, events, id, backend) == FlowLastEvent(x, events, id, backend);
    }
  }

  ghost predicate FlowInv(x: FlowRun, id: nat, backend: nat) {
    x.s.panic.None? ==>
      Inv(x.s) && Flows(x.s, x.writer, x.log, id, backend) && (x.s.closed ==> !Live(x.s, id, backend))
  }

  lemma ClosedNotLive(s: State, id: nat, backend: nat)
    requires Inv(s)
    ensures s.closed ==> !Live(s, id, backend)
  {
    hide StreamsInv, LanesInv, Accounts;
  }

  lemma SectionFlows(s: State, op: SessionRuns.Op, w: Writer, log: StreamLog, id: nat, backend: nat)
    requires Inv(s) && s.panic.None? && Flows(s, w, log, id, backend) && !(WriterCall(op, id) && Live(s, id, backend))
    ensures Flows(SessionRuns.Step(s, op), w, OpLog(log, s, op, id, backend), id, backend)
  {
    hide InvWith, Flows, UpFinish, UpLane, BackendData, Live;
    if op.OpUpFinish? {
      if !UsesLanes(s) { UpFinishFlows(s, op.sequence, op.body, op.answers, w, log, id, backend); }
    } else if op.OpUpLane? {
      UpLaneFlows(s, op.laneID, op.sequence, op.body, op.answers, w, log, id, backend);
    } else if op.OpBackendData? {
      if |op.data| <= DATA_CHUNK { DataFlows(s, op.id, op.data, op.granted, w, log, id, backend); }
    } else if op.OpNextWrite? || op.OpDrained? || op.OpWriteFinished? {
      OtherWriterFlows(s, op, w, log, id, backend);
    } else {
      hide SessionRuns.Step;
      if op.OpPollEnter? || op.OpPollWoken? || op.OpPollDeadline? || op.OpPollQuits? || op.OpPollDisplaced?
          || op.OpPollTakesToken? {
        PollEnds(s, op);
      } else {
        CarrierEnds(s, op);
      }
      EndsFlow(s, SessionRuns.Step(s, op), w, log, id, backend);
    }
  }

  lemma SectionKeepsFlow(x: FlowRun, op: SessionRuns.Op, id: nat, backend: nat)
    requires FlowInv(x, id, backend) && x.s.panic.None? && !(WriterCall(op, id) && Live(x.s, id, backend))
    ensures FlowInv(x.(s := SessionRuns.Step(x.s, op), log := OpLog(x.log, x.s, op, id, backend)), id, backend)
  {
    hide InvWith, Flows, SessionRuns.Step, OpLog, SessionRuns.Unretained;
    SectionFlows(x.s, op, x.writer, x.log, id, backend);
    SessionRuns.StepKeepsInv(x.s, op);
    if SessionRuns.Step(x.s, op).panic.None? {
      ClosedNotLive(SessionRuns.Step(x.s, op), id, backend);
    }
  }

  /** The write taken is the oldest one queued. */
  lemma TakenFlows(st: Stream, log: StreamLog)
    requires StreamFlows(st, Idling, log) && st.writes != []
    ensures StreamFlows(st.(writes := st.writes[1..]), Writing(st.writes[0]), log)
  {
    TakenPacked(st.writes, log.pieces);
    hide WritesPacked;
    assert Flattened(st.writes) == st.writes[0] + Flattened(st.writes[1..]);
    assert log.written + [] + Flattened(st.writes) == log.written + st.writes[0] + Flattened(st.writes[1..]);
  }

  /** A piece of the write in flight is never more than what is pending, in bytes or in cost, and
      releasing it never overfills the receive window: the guards of `backendDrained` do not trip. */
  lemma PieceFits(st: Stream, w: Writer, log: StreamLog, amount: nat)
    requires StreamInv(st) && StreamFlows(st, w, log) && w.Writing? && 0 < amount <= |w.rest|
    ensures !PieceRejected(st, amount)
    ensures StreamFlows(AfterPiece(st, amount), Writing(w.rest[amount..]),
                        log.(written := log.written + w.rest[..amount]))
  {
    assert w.rest == w.rest[..amount] + w.rest[amount..];
    assert log.written + w.rest + Flattened(st.writes)
      == (log.written + w.rest[..amount]) + w.rest[amount..] + Flattened(st.writes);
  }

  /** The guards of `backendWriteFinished` do not trip either. */
  lemma FinishFits(st: Stream, log: StreamLog)
    requires StreamInv(st) && StreamFlows(st, Writing([]), log)
    ensures !(st.pendingWriteItems == 0 || st.pendingWriteCost < QUEUE_ITEM_COST)
    ensures StreamFlows(st.(pendingWriteItems := st.pendingWriteItems - 1,
        pendingWriteCost := st.pendingWriteCost - QUEUE_ITEM_COST), Idling, log)
  {
  }

  lemma TakeKeepsFlow(x: FlowRun, id: nat, backend: nat)
    requires FlowInv(x, id, backend) && x.s.panic.None? && Live(x.s, id, backend) && x.writer.Idling?
    ensures FlowInv(FlowStep(x, TakeWrite, id, backend), id, backend)
  {
    hide InvWith, Flows, StreamFlows;
    var st := x.s.streams[id];
    SessionRuns.NextWriteKeepsInv(x.s, id);
    FlowsMeans(x.s, x.writer, x.log, id, backend);
    ClosedNotLive(NextWrite(x.s, id).0, id, backend);
    if st.writes != [] {
      TakenFlows(st, x.log);
      RecordFlows(x.s, NextWrite(x.s, id).0, id, st.(writes := st.writes[1..]), x.writer, x.log,
          Writing(st.writes[0]), x.log, id, backend);
    }
  }

  lemma PieceKeepsFlow(x: FlowRun, amount: nat, granted: bool, id: nat, backend: nat)
    requires FlowInv(x, id, backend) && x.s.panic.None? && Live(x.s, id, backend) && x.writer.Writing?
        && 0 < amount <= |x.writer.rest|
    ensures FlowInv(FlowStep(x, WritePiece(amount, granted), id, backend), id, backend)
    ensures !PieceRejected(x.s.streams[id], amount) && !x.s.closed
  {
    hide InvWith, Flows, StreamFlows, Drained, PieceRejected;
    var st := x.s.streams[id];
    InvStream(x.s, id, 0, 0);
    SessionRuns.DrainedKeepsInv(x.s, id, amount, granted);
    FlowsMeans(x.s, x.writer, x.log, id, backend);
    DrainedStreams(x.s, id, amount, granted);
    PieceFits(st, x.writer, x.log, amount);
    var (t, ok) := Drained(x.s, id, amount, granted);
    ClosedNotLive(t, id, backend);
    var log :=
      x.log.(written := x.log.written + x.writer.rest[..amount], granted := x.log.granted + (if ok then amount else 0));
    GrantFlows(AfterPiece(st, amount), Writing(x.writer.rest[amount..]),
        x.log.(written := x.log.written + x.writer.rest[..amount]), log);
    RecordFlows(x.s, t, id, AfterPiece(st, amount), x.writer, x.log, Writing(x.writer.rest[amount..]), log, id,
        backend);
    assert FlowStep(x, WritePiece(amount, granted), id, backend) == FlowRun(t, Writing(x.writer.rest[amount..]), log);
  }

  lemma GrantFlows(st: Stream, w: Writer, log: StreamLog, after: StreamLog)
    requires StreamFlows(st, w, log) && after == log.(granted := after.granted) && after.granted <= |log.written|
    ensures StreamFlows(st, w, after)
  {
  }

  lemma FinishKeepsFlow(x: FlowRun, id: nat, backend: nat)
    requires FlowInv(x, id, backend) && x.s.panic.None? && Live(x.s, id, backend) && x.writer == Writing([])
    ensures FlowInv(FlowStep(x, FinishWrite, id, backend), id, backend)
    ensures WriteFinished(x.s, id).1
  {
    hide InvWith, Flows, StreamFlows, Release;
    var st := x.s.streams[id];
    InvStream(x.s, id, 0, 0);
    SessionRuns.WriteFinishedKeepsInv(x.s, id);
    FlowsMeans(x.s, x.writer, x.log, id, backend);
    FinishFits(st, x.log);
    var finished :=
      st.(pendingWriteItems := st.pendingWriteItems - 1, pendingWriteCost := st.pendingWriteCost - QUEUE_ITEM_COST);
    ReleaseStreams(WithStream(x.s, id, finished), QUEUE_ITEM_COST, 1);
    ClosedNotLive(WriteFinished(x.s, id).0, id, backend);
    RecordFlows(x.s, WriteFinished(x.s, id).0, id, finished, x.writer, x.log, Idling, x.log, id, backend);
  }

  lemma FlowStepKeepsInv(x: FlowRun, e: FlowEvent, id: nat, backend: nat)
    requires FlowInv(x, id, backend)
    ensures FlowInv(FlowStep(x, e, id, backend), id, backend)
  {
    hide FlowInv, SessionRuns.Step, OpLog, Drained, WriteFinished, NextWrite, WriterCall, Live;
    if x.s.panic.None? {
      match e
      case Section(op) => if !(WriterCall(op, id) && Live(x.s, id, backend)) { SectionKeepsFlow(x, op, id, backend); }
      case TakeWrite => if Live(x.s, id, backend) && x.writer.Idling? { TakeKeepsFlow(x, id, backend); }
      case WritePiece(amount, granted) =>
        if Live(x.s, id, backend) && x.writer.Writing? && 0 < amount <= |x.writer.rest| {
          PieceKeepsFlow(x, amount, granted, id, backend);
        }
      case FinishWrite => if Live(x.s, id, backend) && x.writer == Writing([]) { FinishKeepsFlow(x, id, backend); }
    }
  }

  lemma {:induction false} FlowReachable(carrier: Carrier, limits: Limits, events: seq<FlowEvent>, id: nat,
      backend: nat)
    requires ValidLimits(limits)
    ensures FlowInv(FlowFrom(FlowRun(NewSession(carrier, limits), Idling, NO_LOG), events, id, backend), id, backend)
  {
    hide FlowInv, FlowStep, NewSession;
    FlowUnfolds(FlowRun(NewSession(carrier, limits), Idling, NO_LOG), events, id, backend);
    if events == [] {
      NewFlowInv(carrier, limits, id, backend);
    } else {
      FlowReachable(carrier, limits, events[..|events| - 1], id, backend);
      FlowStepKeepsInv(FlowFrom(FlowRun(NewSession(carrier, limits), Idling, NO_LOG), events[..|events| - 1], id,
          backend), events[|events| - 1], id, backend);
    }
  }

  lemma NewFlowInv(carrier: Carrier, limits: Limits, id: nat, backend: nat)
    requires ValidLimits(limits)
    ensures FlowInv(FlowRun(NewSession(carrier, limits), Idling, NO_LOG), id, backend)
  {
    hide InvWith;
    SessionRuns.NewSessionInv(carrier, limits);
    NewSessionStreams(carrier, limits);
    hide NewSession;
  }

  lemma NewSessionStreams(carrier: Carrier, limits: Limits)
    ensures NewSession(carrier, limits).streams == map[] && NewSession(carrier, limits).nextBackend == 0
  {
  }

  // ------------------------------------------------------------------------- theorems

  /** Byte-stream integrity: in every run, while the stream is live, what has reached its backend, then
      the rest of the write in flight, then the queued writes are exactly the DATA applied for it, in
      order; the pending counters count exactly what is not finished; and what the relay still accepts
      plus what is pending is the initial window. */
  lemma ByteStreamIntegrity(carrier: Carrier, limits: Limits, events: seq<FlowEvent>, id: nat, backend: nat)
    requires ValidLimits(limits)
    ensures var x := FlowFrom(FlowRun(NewSession(carrier, limits), Idling, NO_LOG), events, id, backend);
      x.s.panic.None? && Live(x.s, id, backend) ==>
        var st := x.s.streams[id];
        && x.log.written + RestOf(x.writer) + Flattened(st.writes) == x.log.applied
        && st.pendingWriteItems == |st.writes| + (if x.writer.Writing? then 1 else 0)
        && st.pendingWriteCost == st.pendingWriteBytes + ItemCost(st.pendingWriteItems)
        && st.receiveWindow + st.pendingWriteBytes == INITIAL_STREAM_WINDOW
        && st.receiveWindow + |x.log.applied| == INITIAL_STREAM_WINDOW + |x.log.written|
  {
    hide InvWith, FlowStep, NewSession;
    FlowReachable(carrier, limits, events, id, backend);
    var x := FlowFrom(FlowRun(NewSession(carrier, limits), Idling, NO_LOG), events, id, backend);
    if x.s.panic.None? && Live(x.s, id, backend) {
      InvStream(x.s, id, 0, 0);
    }
  }

  /** Backend writes are batched: whatever the clients send and however the writer keeps up, no two successive
      queued writes of a live stream fit into one chunk, and a write is longer than a chunk only if it is the
      payload of a single frame. */
  lemma WritesAreBatched(carrier: Carrier, limits: Limits, events: seq<FlowEvent>, id: nat, backend: nat)
    requires ValidLimits(limits)
    ensures var x := FlowFrom(FlowRun(NewSession(carrier, limits), Idling, NO_LOG), events, id, backend);
      x.s.panic.None? && Live(x.s, id, backend) ==> WritesPacked(x.s.streams[id].writes, x.log.pieces)
  {
    hide InvWith, FlowStep, NewSession, FlowFrom, WritesPacked;
    FlowReachable(carrier, limits, events, id, backend);
  }

  /** The writer of a live stream gets the oldest write there is, and is never refused by a guard: a piece
      it reports fails only if the WINDOW frame cannot be queued, and a finished write is always accepted. */
  lemma WriterNeverTrips(carrier: Carrier, limits: Limits, events: seq<FlowEvent>, id: nat, backend: nat, amount: nat)
    requires ValidLimits(limits)
    ensures var x := FlowFrom(FlowRun(NewSession(carrier, limits), Idling, NO_LOG), events, id, backend);
      x.s.panic.None? && Live(x.s, id, backend) ==>
        && (x.writer.Writing? && 0 < amount <= |x.writer.rest| ==>
              !x.s.closed && !PieceRejected(x.s.streams[id], amount))
        && (x.writer == Writing([]) ==> WriteFinished(x.s, id).1)
        && NextWrite(x.s, id).1
           == (if x.s.streams[id].writes == [] then None else Some(x.s.streams[id].writes[0]))
  {
    hide FlowInv, FlowStep, NewSession, WriteFinished, PieceRejected;
    FlowReachable(carrier, limits, events, id, backend);
    var x := FlowFrom(FlowRun(NewSession(carrier, limits), Idling, NO_LOG), events, id, backend);
    if x.s.panic.None? && Live(x.s, id, backend) {
      if x.writer.Writing? && 0 < amount <= |x.writer.rest| {
        PieceKeepsFlow(x, amount, true, id, backend);
      }
      if x.writer == Writing([]) {
        FinishKeepsFlow(x, id, backend);
      }
      WriteIsTaken(x, id, backend);
    }
  }

  /** A live stream's oldest write is there to be taken. */
  lemma WriteIsTaken(x: FlowRun, id: nat, backend: nat)
    requires FlowInv(x, id, backend) && x.s.panic.None? && Live(x.s, id, backend)
    ensures NextWrite(x.s, id).1 == if x.s.streams[id].writes == [] then None else Some(x.s.streams[id].writes[0])
  {
    hide InvWith, Flows;
  }

  /** That only the stream's own writer makes its calls is needed: `nextWrite` looks the stream up by its id
      alone, so that the writer of an earlier stream of the id, if it still runs when the id is opened
      again, takes a write that then never reaches this stream's backend. */
  lemma OtherWriterTakes(s: State, w: Writer, log: StreamLog, id: nat, backend: nat)
    requires Inv(s) && Flows(s, w, log, id, backend) && Live(s, id, backend)
    requires s.streams[id].writes != [] && s.streams[id].writes[0] != []
    ensures var (t, data) := NextWrite(s, id);
      data == Some(s.streams[id].writes[0]) && !Flows(t, w, log, id, backend)
  {
    ClosedNotLive(s, id, backend);
    hide InvWith;
    var st := s.streams[id];
    FlowsMeans(s, w, log, id, backend);
    assert Flattened(st.writes) == st.writes[0] + Flattened(st.writes[1..]);
    var t := NextWrite(s, id).0;
    assert t.streams[id].writes == st.writes[1..];
  }

  /** Flow control towards the client: the bytes read and queued for the stream never exceed the initial
      window and the WINDOW amounts applied, although the credit saturates; and as long as these fit 32
      bits, the credit is exactly what of them has not been read. */
  lemma RelayWithinCredit(carrier: Carrier, limits: Limits, events: seq<FlowEvent>, id: nat, backend: nat)
    requires ValidLimits(limits)
    ensures var x := FlowFrom(FlowRun(NewSession(carrier, limits), Idling, NO_LOG), events, id, backend);
      x.s.panic.None? && Live(x.s, id, backend) ==>
        && x.log.queued <= x.log.spent
        && x.s.streams[id].sendCredit + x.log.spent <= INITIAL_STREAM_WINDOW + x.log.windows
        && (INITIAL_STREAM_WINDOW + x.log.windows <= MAX_UINT32 ==>
              x.s.streams[id].sendCredit + x.log.spent == INITIAL_STREAM_WINDOW + x.log.windows)
  {
    hide InvWith, FlowStep, NewSession;
    FlowReachable(carrier, limits, events, id, backend);
  }

  /** A WINDOW for a live stream adds its amount to the stream's credit, up to the largest uint32, in
      application as in validation; and changes no other stream. */
  lemma WindowAdds(x: Applying, id: nat, n: nat, a: Answer, sim: Sim, tombstones: set<nat>)
    requires id != 0 && id in x.state.streams && id !in x.state.tombstones.closed && 0 < n <= MAX_UINT32
    requires id in sim.live && !WasClosed(sim, tombstones, id)
    ensures var f := Frame(WINDOW, id, WindowPayload(n));
      var y := ApplyFrame(x, f, a);
      var credit := x.state.streams[id].sendCredit;
      && y.state.streams
        == x.state.streams[id :=
          x.state.streams[id].(sendCredit := if credit + n < MAX_UINT32 then credit + n else MAX_UINT32)]
      && y.state == x.state.(streams := y.state.streams) && y.ok == x.ok
      && Simulate(sim, tombstones, f).live[id].sendCredit
         == (if sim.live[id].sendCredit + n < MAX_UINT32 then sim.live[id].sendCredit + n else MAX_UINT32)
  {
    WindowRoundTrip(n);
  }

  // ------------------------------------------------------------- what validation then sees

  /** The DATA bytes a batch carries for one stream. */
  function DataBytes(frames: seq<Frame>, id: nat): nat {
    if frames == [] then 0
    else
      var here := if frames[0].typeCode == DATA && frames[0].streamID == id then |frames[0].payload| else 0;
      here + DataBytes(frames[1..], id)
  }

  /** The window the simulation has for a stream, or will have when it opens. */
  function WindowOf(sim: Sim, id: nat): nat {
    if id in sim.live then sim.live[id].receiveWindow else INITIAL_STREAM_WINDOW
  }

  /** A batch whose DATA for a stream fits the stream's window, taken together, never fails validation as
      an overrun of that stream, wherever in the batch the frame stands and also if the batch opens it:
      when it comes to the frame, it is accepted, unless there is and was no such stream at all. */
  lemma {:induction false} NoOverrun(sim: Sim, tombstones: set<nat>, frames: seq<Frame>, id: nat, at: nat)
    requires at < |frames| && OnWire(frames) && id != 0
    requires Validate(sim, tombstones, frames[..at]) && frames[at].typeCode == DATA && frames[at].streamID == id
    requires DataBytes(frames, id) <= WindowOf(sim, id) <= INITIAL_STREAM_WINDOW
    ensures var there := SimulateAll(sim, tombstones, frames[..at]);
      id in there.live || WasClosed(there, tombstones, id) ==> Accepts(there, tombstones, frames[at])
    decreases at
  {
    if at > 0 {
      var next := Simulate(sim, tombstones, frames[0]);
      assert frames[..at][0] == frames[0] && frames[..at][1..] == frames[1..][..at - 1]
          && frames[1..][at - 1] == frames[at];
      if WasClosed(next, tombstones, id) {
        ClosedStays(next, tombstones, frames[1..][..at - 1], id);
      } else {
        NoOverrunStep(sim, tombstones, frames, id);
        NoOverrun(next, tombstones, frames[1..], id, at - 1);
      }
    } else {
      assert |frames[0].payload| % TWO32 == |frames[0].payload|;
    }
  }

  lemma NoOverrunStep(sim: Sim, tombstones: set<nat>, frames: seq<Frame>, id: nat)
    requires frames != [] && OnWire(frames) && id != 0
    requires DataBytes(frames, id) <= WindowOf(sim, id) <= INITIAL_STREAM_WINDOW
    requires Accepts(sim, tombstones, frames[0]) && !WasClosed(Simulate(sim, tombstones, frames[0]), tombstones, id)
    ensures DataBytes(frames[1..], id) <= WindowOf(Simulate(sim, tombstones, frames[0]), id) <= INITIAL_STREAM_WINDOW
  {
    var f := frames[0];
    assert DataBytes(frames, id)
      == (if f.typeCode == DATA && f.streamID == id then |f.payload| else 0) + DataBytes(frames[1..], id);
    assert |f.payload| % TWO32 == |f.payload|;
    hide DataBytes, OnWire;
  }

  lemma {:induction false} ClosedStays(sim: Sim, tombstones: set<nat>, frames: seq<Frame>, id: nat)
    requires WasClosed(sim, tombstones, id)
    ensures WasClosed(SimulateAll(sim, tombstones, frames), tombstones, id)
    decreases |frames|
  {
    if frames != [] {
      ClosedStays(Simulate(sim, tombstones, frames[0]), tombstones, frames[1..], id);
    }
  }
}
