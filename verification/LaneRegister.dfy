/** How lanes enter and leave the register of `internal/session/session.go`. A section remembers at most
    one id, that of the stream it ends or refuses; on HTTPS lanes the one lane that can leave is that of
    the tombstone this pushes out of the ring. So a client that counts the streams closed since a lane's
    own can tell how long the relay keeps the lane. */
module LaneRegister {
  import opened Options
  import opened Frames
  import opened Lanes
  import opened Tombstones
  import opened SessionState
  import opened SessionInv
  import opened SessionSteps
  import opened Application
  import opened Validation
  import opened LaneLink
  import SessionRuns

  predicate WithinMap(small: map<nat, LaneRef>, big: map<nat, LaneRef>) {
    forall id :: id in small ==> id in big && small[id] == big[id]
  }

  /** The register once the id has been remembered. */
  function RegisterAfter(s: State, id: nat): map<nat, LaneRef> {
    if EvictedBy(s, id).Some? then s.carrierLanes - {EvictedBy(s, id).value} else s.carrierLanes
  }

  /** Ring and register are as they were. */
  predicate SameRegister(s: State, t: State) {
    t.limits == s.limits && t.carrier == s.carrier && t.tombstones == s.tombstones && t.carrierLanes == s.carrierLanes
  }

  /** The id has been remembered, and nothing else has happened to the register; a WebSocket carrier may
      have dropped lanes besides. */
  predicate Remembers(s: State, t: State, id: nat) {
    && t.limits == s.limits && t.carrier == s.carrier
    && t.tombstones == Remember(s.tombstones, id, s.limits.maxClosedStreamIDs) && id in t.tombstones.closed
    && t.carrierLanes == RegisterAfter(s, id)
  }

  predicate DropsLanes(s: State, t: State) {
    t.limits == s.limits && s.carrier == t.carrier == WebSocketLanes && WithinMap(t.carrierLanes, s.carrierLanes)
  }

  predicate OnlyCloses(s: State, t: State, id: nat) {
    SameRegister(s, t) || Remembers(s, t, id) || DropsLanes(s, t)
  }

  lemma OnlyClosesThen(s: State, t: State, u: State, id: nat)
    requires OnlyCloses(s, t, id) && OnlyCloses(t, u, id)
    ensures OnlyCloses(s, u, id)
  {
    hide Remember;
    if Remembers(s, t, id) && Remembers(t, u, id) {
      RememberTwice(t, id);
    }
  }

  lemma RememberTwice(t: State, id: nat)
    requires id in t.tombstones.closed
    ensures Remember(t.tombstones, id, t.limits.maxClosedStreamIDs) == t.tombstones
    ensures RegisterAfter(t, id) == t.carrierLanes
  {
  }

  // ----------------------------------------------------------------------------- frames

  lemma QueueCloses(s: State, f: Frame, granted: bool)
    requires Route(s, f.streamID).Some?
    ensures SameRegister(s, QueueFrame(s, f, granted).0)
  {
    hide QueueFrame;
    QueueShape(s, f, granted);
  }

  lemma RememberCloses(s: State, id: nat, cost: int, items: int)
    requires InvWith(s, cost, items) && id !in s.streams
    ensures Remembers(s, RememberClosed(s, id), id)
  {
    hide InvWith, RememberClosed, Remember;
    RememberShape(s, id, cost, items);
  }

  lemma RefuseCloses(s: State, id: nat, granted: bool, cost: int, items: int)
    requires InvWith(s, cost, items) && !s.closed && id !in s.streams && 0 < id <= MAX_STREAM_ID
    requires UsesLanes(s) ==> id in s.carrierLanes
    ensures Remembers(s, QueueFrame(RememberClosed(s, id), Frame(CLOSE, id, []), granted).0, id)
  {
    hide InvWith, RememberClosed, QueueFrame, Queueable, Remember;
    var u := RememberClosed(s, id);
    RememberKeepsInv(s, id, cost, items);
    RememberShape(s, id, cost, items);
    CloseIsQueueable(u, id, cost, items);
    EnqueueRoute(u, Frame(CLOSE, id, []), cost, items);
    QueueCloses(u, Frame(CLOSE, id, []), granted);
  }

  lemma EndCloses(s: State, id: nat, cost: int, items: int)
    requires InvWith(s, cost, items) && id in s.streams
    ensures Remembers(s, RememberClosed(DropStream(s, id), id), id)
  {
    hide InvWith, RememberClosed, DropStream, Remember;
    DropStreamKeepsInv(s, id, cost, items);
    RememberCloses(DropStream(s, id), id, cost, items);
  }

  lemma FrameCloses(x: Applying, f: Frame, a: Answer)
    requires InvWith(x.state, x.cost, x.items) && !x.state.closed && Applicable(x.state, f, x.cost, x.items)
    ensures OnlyCloses(x.state, ApplyFrame(x, f, a).state, f.streamID)
  {
    hide InvWith, RememberClosed, QueueFrame, DropStream, Fed, NewStream, Remembers, Remember;
    var s, id := x.state, f.streamID;
    TicketAsked(s, a, x.cost, x.items);
    if id != 0 && f.typeCode == OPEN && !Admitted(s, a) {
      var u := AskTicket(s, a);
      hide AskTicket;
      RefuseCloses(u, id, a.granted, x.cost, x.items);
      OnlyClosesThen(s, u, ApplyFrame(x, f, a).state, id);
    } else if id != 0 && f.typeCode == CLOSE && id !in s.tombstones.closed {
      EndCloses(s, id, x.cost, x.items);
    }
  }

  lemma {:induction false} BatchCloses(x: Applying, sim: Sim, tombstones: set<nat>, past: seq<nat>,
      counted: set<nat>, frames: seq<Frame>, laneID: nat, answers: seq<Answer>)
    requires UsesLanes(x.state) && InStep(x, sim, tombstones, past, counted, frames, laneID)
    ensures OnlyCloses(x.state, ApplyAll(x, frames, answers).state, laneID)
    decreases |frames|
  {
    hide InvWith, Linked, ApplyFrame, CoreStep, Simulate, PastAfter, Validate, OnWire, CountedAfter, Covered,
      Unknown, OnlyCloses, Applicable;
    NothingCloses(x.state, laneID);
    if frames != [] && x.state.panic.None? {
      var f, a := frames[0], First(answers);
      var y := ApplyFrame(x, f, a);
      if Unknown(CoreOf(x.state), f) {
        UnknownPanics(x, f, a);
        PanicCloses(x.state, y.state, laneID);
      } else {
        KnownIsApplicable(x, sim, tombstones, past, counted, frames, laneID);
        KnownStaysInStep(x, sim, tombstones, past, counted, frames, laneID, a);
        FrameCloses(x, f, a);
        if y.ok {
          BatchCloses(y, Simulate(sim, tombstones, f), tombstones,
              PastAfter(CoreOf(x.state), past, f, a, x.state.limits), CountedAfter(counted, f), frames[1..], laneID,
              Others(answers));
          OnlyClosesThen(x.state, y.state, ApplyAll(y, frames[1..], Others(answers)).state, laneID);
        }
      }
    }
  }

  lemma NothingCloses(s: State, id: nat)
    ensures OnlyCloses(s, s, id)
  {
  }

  lemma PanicCloses(s: State, t: State, id: nat)
    requires t == s.(panic := t.panic)
    ensures OnlyCloses(s, t, id)
  {
  }

  // --------------------------------------------------------------------------- sections

  lemma CommitCloses(s: State, r: LaneRef, sequence: nat, body: Bytes, frames: seq<Frame>, a: Answers, laneID: nat)
    requires Inv(s) && UsesLanes(s) && !s.closed && r in s.lanes && OnWire(frames) && OnOneLane(s, frames, laneID)
    ensures OnlyCloses(s, CommitBatch(s, r, sequence, body, frames, a).0, laneID)
  {
    hide InvWith, ValidateBatch, Reservation, ApplyAll, SessionRuns.ReservationGranted, OnOneLane, InStep, Fifo,
      OnWire, Release, SessionRuns.Unreserved, CommitBatch, Committed, Remembers, DropsLanes;
    SessionRuns.CommitCases(s, r, sequence, body, frames, a);
    if ValidateBatch(s, frames) && SessionRuns.ReservationGranted(s, frames, a) {
      var reserved := SessionRuns.Reserved(s, frames);
      SessionRuns.ReservedKeepsInv(s, frames, a);
      SessionRuns.ReservedSame(s, frames, laneID);
      BatchStartsInStep(reserved, frames, laneID);
      ReservedCloses(s, frames);
      BatchCloses(Begin(reserved, frames), Sim(Snapshots(s.streams), {}), s.tombstones.closed, Fifo(s.tombstones),
          s.streams.Keys, frames, laneID, a.frames);
      var y := SessionRuns.AppliedTo(s, frames, a);
      var t := CommitBatch(s, r, sequence, body, frames, a).0;
      OnlyClosesThen(s, reserved, y.state, laneID);
      ReleaseCloses(y.state, y.cost, y.items);
      assert SameRegister(y.state, t);
      OnlyClosesThen(s, y.state, t, laneID);
    } else if ValidateBatch(s, frames) {
      SessionRuns.UnreservedSame(s, frames, a);
    }
  }

  lemma ReservedCloses(s: State, frames: seq<Frame>)
    ensures SameRegister(s, SessionRuns.Reserved(s, frames))
        && UsesLanes(SessionRuns.Reserved(s, frames)) == UsesLanes(s)
  {
    hide Reservation;
  }

  lemma ReleaseCloses(s: State, cost: int, items: int)
    ensures SameRegister(s, Release(s, cost, items))
  {
  }

  lemma UpOnLaneCloses(s: State, laneID: nat, sequence: nat, body: Bytes, frames: seq<Frame>, a: Answers)
    requires Inv(s) && UsesLanes(s) && !s.closed && laneID in s.carrierLanes && OnWire(frames)
    requires forall i :: 0 <= i < |frames| ==> frames[i].streamID == laneID
    ensures OnlyCloses(s, UpOnLane(s, s.carrierLanes[laneID], sequence, body, frames, a).0, laneID)
  {
    hide InvWith, CommitBatch, OnWire, CheckUp, Remembers, DropsLanes;
    var r := s.carrierLanes[laneID];
    SessionRuns.RegisteredInLanes(s, laneID);
    SessionRuns.UpActiveKeepsInv(s, r, true);
    var active := SetUpActive(s, r, true);
    CommitCloses(active, r, sequence, body, frames, a, laneID);
    var t := CommitBatch(active, r, sequence, body, frames, a).0;
    OnlyClosesThen(s, active, t, laneID);
    OnlyClosesThen(s, t, SetUpActive(t, r, false), laneID);
  }

  /** The state a lane request acts on: its OPEN may register the lane. */
  function Registering(s: State, laneID: nat): State {
    if laneID in s.carrierLanes then s else AddLane(s, laneID)
  }

  lemma UpLaneCloses(s: State, laneID: nat, sequence: nat, body: Bytes, a: Answers)
    requires Inv(s) && UsesLanes(s)
    ensures var t := UpLane(s, laneID, sequence, body, a).0;
      OnlyCloses(s, t, laneID) || OnlyCloses(Registering(s, laneID), t, laneID)
  {
    hide InvWith, UpOnLane, ClientFrames, OnWire, OnlyLateFrames, AddLane, Remembers, DropsLanes;
    NothingCloses(s, laneID);
    if laneID <= MAX_STREAM_ID && ClientFrames(s, body, Some(laneID)).Some? && !s.closed {
      var frames := ClientFrames(s, body, Some(laneID)).value;
      SessionRuns.ClientFramesOnWire(s, body, Some(laneID));
      if laneID !in s.carrierLanes {
        AddLaneKeepsInv(s, laneID, 0, 0);
        SessionRuns.AddedLane(s, laneID);
      }
      UpOnLaneCloses(Registering(s, laneID), laneID, sequence, body, frames, a);
    }
  }

  lemma ReleaseLaneCloses(s: State, laneID: nat)
    requires Inv(s)
    ensures OnlyCloses(s, ReleaseWebSocketLane(s, laneID), laneID)
  {
    hide InvWith, DropLane, DropStream, RememberClosed, Evicted, Remember;
    if s.carrier == WebSocketLanes && laneID in s.carrierLanes {
      var r := s.carrierLanes[laneID];
      SessionRuns.RegisteredInLanes(s, laneID);
      SessionRuns.ActivateKeepsInv(s, r, false);
      var inactive := WithLane(s, r, s.lanes[r].(websocketActive := false));
      if laneID in s.streams {
        var ended := RememberClosed(DropStream(inactive, laneID), laneID);
        DropStreamKeepsInv(inactive, laneID, 0, 0);
        RememberKeepsInv(DropStream(inactive, laneID), laneID, 0, 0);
        RememberShape(DropStream(inactive, laneID), laneID, 0, 0);
        DropLaneShape(ended, laneID, 0, 0);
      } else {
        DropLaneShape(inactive, laneID, 0, 0);
      }
    }
  }

  lemma CloseCloses(s: State)
    ensures SameRegister(s, CloseSession(s))
  {
  }

  lemma BackendCloses(s: State, id: nat, backend: nat, granted: bool)
    requires Inv(s)
    ensures OnlyCloses(s, BackendClosed(s, id, backend, granted), id)
  {
    hide InvWith, DropStream, RememberClosed, QueueFrame, CloseSession, Queueable, Remember, Remembers, DropsLanes;
    if !s.closed && id in s.streams && s.streams[id].backend == backend {
      InvStream(s, id, 0, 0);
      var dropped := DropStream(s, id);
      DropStreamKeepsInv(s, id, 0, 0);
      RefuseCloses(dropped, id, granted, 0, 0);
      var queued := QueueFrame(RememberClosed(dropped, id), Frame(CLOSE, id, []), granted).0;
      OnlyClosesThen(s, dropped, queued, id);
      CloseCloses(queued);
      OnlyClosesThen(s, queued, CloseSession(queued), id);
    }
  }

  lemma RouteOfLive(s: State, id: nat)
    requires Inv(s) && id in s.streams
    ensures Route(s, id).Some?
  {
    hide LanesInv, Accounts;
  }

  lemma DataCloses(s: State, op: SessionRuns.Op)
    requires Inv(s) && s.panic.None? && op.OpBackendData?
    ensures SameRegister(s, SessionRuns.Step(s, op))
  {
    hide InvWith, QueueFrame;
    if !s.closed && op.id in s.streams && |op.data| <= s.streams[op.id].sendCredit {
      var st := s.streams[op.id];
      RouteOfLive(s, op.id);
      QueueCloses(WithStream(s, op.id, st.(sendCredit := st.sendCredit - |op.data|)), Frame(DATA, op.id, op.data),
          op.granted);
    }
  }

  lemma DrainedCloses(s: State, op: SessionRuns.Op)
    requires Inv(s) && s.panic.None? && op.OpDrained?
    ensures SameRegister(s, SessionRuns.Step(s, op))
  {
    hide InvWith, QueueFrame, Release;
    if !s.closed && op.id in s.streams && op.amount > 0 {
      var st := s.streams[op.id];
      InvStream(s, op.id, 0, 0);
      RouteOfLive(s, op.id);
      var drained := st.(pendingWriteBytes := st.pendingWriteBytes - op.amount,
        pendingWriteCost := st.pendingWriteCost - op.amount, receiveWindow := st.receiveWindow + op.amount);
      var t := Release(WithStream(s, op.id, drained), op.amount, 0);
      ReleaseCloses(WithStream(s, op.id, drained), op.amount, 0);
      QueueCloses(t, Frame(WINDOW, op.id, WindowPayload(op.amount)), op.granted);
    }
  }

  lemma WriterCloses(s: State, op: SessionRuns.Op)
    requires s.panic.None? && (op.OpNextWrite? || op.OpWriteFinished?)
    ensures SameRegister(s, SessionRuns.Step(s, op))
  {
    hide Release;
    ReleasesClose(s);
  }

  lemma ReleasesClose(s: State)
    ensures forall u, cost, items :: SameRegister(s, u) ==> SameRegister(s, Release(u, cost, items))
  {
    forall u, cost, items | SameRegister(s, u)
      ensures SameRegister(s, Release(u, cost, items))
    {
      ReleaseCloses(u, cost, items);
    }
  }

  lemma PollCloses(s: State, op: SessionRuns.Op)
    requires s.panic.None?
    requires op.OpPollWoken? || op.OpPollDeadline? || op.OpPollQuits? || op.OpPollDisplaced? || op.OpPollTakesToken?
    ensures SameRegister(s, SessionRuns.Step(s, op))
  {
    hide AfterToken, Deadline, Quit, ConditionOf, Signal;
  }

  lemma EnterCloses(s: State, laneID: nat, me: nat, cursor: nat)
    ensures SameRegister(s, PollEnter(s, laneID, me, cursor).0)
  {
    hide Release, ConditionOf, Loop, Present, TakeOver;
    ReleasesClose(s);
  }

  /** The stream a section may end or refuse. */
  function EndedBy(op: SessionRuns.Op): nat {
    match op
    case OpUpLane(laneID, _, _, _) => laneID
    case OpReleaseLane(laneID) => laneID
    case OpFailure(laneID) => laneID
    case OpBackendClosed(id, _, _) => id
    case _ => 0
  }

  /** A section that may register a lane. */
  predicate Registers(op: SessionRuns.Op) { op.OpUpLane? || op.OpAcquireLane? }

  lemma AcquireCloses(s: State, laneID: nat)
    requires Inv(s)
    ensures var t := AcquireWebSocketLane(s, laneID).0;
      SameRegister(s, t) || SameRegister(Registering(s, laneID), t)
  {
    hide InvWith, AddLane;
  }

  /** Every section remembers at most one id, and changes the register only for that. */
  lemma SectionCloses(s: State, op: SessionRuns.Op)
    requires Inv(s) && s.panic.None? && UsesLanes(s)
    ensures var t := SessionRuns.Step(s, op);
      || OnlyCloses(s, t, EndedBy(op))
      || (Registers(op) && OnlyCloses(Registering(s, op.laneID), t, EndedBy(op)))
  {
    hide InvWith, Remembers, DropsLanes, UpLane, CloseSession, AcquireWebSocketLane, ReleaseWebSocketLane,
      BackendClosed, PollEnter, AddLane;
    match op {
      case OpUpLane(laneID, sequence, body, a) => UpLaneCloses(s, laneID, sequence, body, a);
      case OpAcquireLane(laneID) => AcquireCloses(s, laneID);
      case OpReleaseLane(laneID) => ReleaseLaneCloses(s, laneID);
      case OpFailure(laneID) =>
        ReleaseLaneCloses(s, laneID);
        CloseCloses(s);
      case OpClose => CloseCloses(s);
      case OpBackendClosed(id, backend, granted) => BackendCloses(s, id, backend, granted);
      case OpBackendData(_, _, _) => DataCloses(s, op);
      case OpDrained(_, _, _) => DrainedCloses(s, op);
      case OpPollEnter(laneID, me, cursor) => EnterCloses(s, laneID, me, cursor);
      case OpUpBegin(_, _) =>
      case OpUpFinish(_, _, _) =>
      case OpAcquireWebSocket =>
      case _ => if op.OpNextWrite? || op.OpWriteFinished? { WriterCloses(s, op); } else { PollCloses(s, op); }
    }
  }

  // -------------------------------------------------------------- how long a lane is kept

  /** A lane object registered after a section was registered before it, or is new. */
  lemma RegisteredBefore(s: State, op: SessionRuns.Op, id: nat)
    requires Inv(s) && s.panic.None? && UsesLanes(s)
    ensures var t := SessionRuns.Step(s, op);
      && t.limits == s.limits && t.carrier == s.carrier
      && (id in t.carrierLanes ==>
            if id in s.carrierLanes then t.carrierLanes[id] == s.carrierLanes[id]
            else Registers(op) && op.laneID == id && t.carrierLanes[id] == s.nextLane)
  {
    hide InvWith, SessionRuns.Step, Remember;
    SectionCloses(s, op);
  }

  /** The id is remembered, and at most `n` ids after it. */
  predicate ClosedWithin(fifo: seq<nat>, id: nat, n: nat) {
    exists i :: 0 <= i < |fifo| && fifo[i] == id && |fifo| - 1 - i <= n
  }

  lemma OneMoreRemembered(fifo: seq<nat>, id: nat, n: nat, newest: nat, capacity: nat)
    requires ClosedWithin(fifo, id, n) && newest !in fifo && 0 < |fifo| <= capacity
    ensures ClosedWithin(FifoRemember(fifo, newest, capacity), id, n + 1) || (fifo[0] == id && n + 1 >= capacity)
  {
    var i :| 0 <= i < |fifo| && fifo[i] == id && |fifo| - 1 - i <= n;
    var after := FifoRemember(fifo, newest, capacity);
    if |fifo| < capacity {
      assert after[i] == id;
    } else if i > 0 {
      assert after[i - 1] == id;
    }
  }

  /** The relay keeps the lane object: its tombstone, if there is one, has at most `n` younger ones. */
  predicate Kept(s: State, id: nat, r: LaneRef, n: nat) {
    && RegisteredAs(s, id, r)
    && (id in s.tombstones.closed ==>
          s.tombstones.start <= |s.tombstones.order| && ClosedWithin(Fifo(s.tombstones), id, n))
  }

  /** One if the section remembers another id after this one. */
  function Younger(s: State, t: State, id: nat): nat {
    if id in s.tombstones.closed && t.tombstones != s.tombstones then 1 else 0
  }

  lemma RingOfInv(s: State)
    requires Inv(s)
    ensures RingInv(s.tombstones, s.limits.maxClosedStreamIDs) && 0 < s.limits.maxClosedStreamIDs
  {
    hide LanesInv, Accounts;
  }

  /** A lane that is kept stays so, until as many ids as the ring holds are remembered after its own. */
  lemma KeptStays(s: State, op: SessionRuns.Op, id: nat, r: LaneRef, n: nat)
    requires Inv(s) && s.panic.None? && s.carrier == HttpsLanes && Kept(s, id, r, n)
    ensures var t := SessionRuns.Step(s, op);
      var m := n + Younger(s, t, id);
      Kept(t, id, r, m) || m >= s.limits.maxClosedStreamIDs
  {
    hide InvWith, SessionRuns.Step, OnlyCloses, Kept, Younger, RingInv;
    var t := SessionRuns.Step(s, op);
    RingOfInv(s);
    SectionCloses(s, op);
    if OnlyCloses(s, t, EndedBy(op)) {
      KeptThrough(s, s, t, id, r, n, EndedBy(op));
    } else {
      KeptThrough(s, Registering(s, op.laneID), t, id, r, n, EndedBy(op));
    }
  }

  lemma KeptThrough(s: State, before: State, t: State, id: nat, r: LaneRef, n: nat, newest: nat)
    requires RingInv(s.tombstones, s.limits.maxClosedStreamIDs) && 0 < s.limits.maxClosedStreamIDs
    requires s.carrier == HttpsLanes && Kept(s, id, r, n)
    requires before == s || exists other :: before == Registering(s, other)
    requires OnlyCloses(before, t, newest)
    ensures var m := n + Younger(s, t, id);
      Kept(t, id, r, m) || m >= s.limits.maxClosedStreamIDs
  {
    hide RingInv, ClosedWithin, Remember, Evicted, Fifo;
    if newest in s.tombstones.closed {
      RememberTwice(before, newest);
    }
    if t.tombstones != s.tombstones {
      KeptRemembering(s, t, id, r, n, newest);
    }
  }

  lemma KeptRemembering(s: State, t: State, id: nat, r: LaneRef, n: nat, newest: nat)
    requires RingInv(s.tombstones, s.limits.maxClosedStreamIDs) && 0 < s.limits.maxClosedStreamIDs
    requires Kept(s, id, r, n) && t.tombstones == Remember(s.tombstones, newest, s.limits.maxClosedStreamIDs)
    requires newest !in s.tombstones.closed
    requires RegisteredAs(t, id, r) || EvictedBy(s, newest) == Some(id)
    ensures var m := n + (if id in s.tombstones.closed then 1 else 0);
      Kept(t, id, r, m) || m >= s.limits.maxClosedStreamIDs
  {
    hide Remember, RingInv;
    var capacity := s.limits.maxClosedStreamIDs;
    RingRefinesFifo(s.tombstones, newest, capacity);
    RingIsFifo(s.tombstones, capacity);
    if id in s.tombstones.closed {
      OneMoreRemembered(Fifo(s.tombstones), id, n, newest, capacity);
    } else if id in t.tombstones.closed {
      var fifo := Fifo(t.tombstones);
      assert fifo[|fifo| - 1] == id;
    }
  }
}
