/** Which CLOSE frames the relay sends: one for every stream whose backend ends it and for every OPEN it
    refuses, on the stream's own lane and after all its DATA (`backendClosed` and `applyBatchLocked` in
    `internal/session/session.go`). */
module Closing {
  import opened Options
  import opened Frames
  import opened Budget
  import opened DownQueue
  import opened Lanes
  import opened Tombstones
  import opened SessionState
  import opened SessionInv
  import opened SessionSteps
  import opened Application
  import opened Validation
  import opened LaneLink
  import opened Isolation
  import opened Flow
  import opened Credits
  import opened DownlinkRuns
  import SessionRuns
  import Runs = LaneRuns

  // ------------------------------------------------------------ what a section appends

  /** Downlink frames of the stream go to lane object `r`. */
  predicate Serves(s: State, r: LaneRef, id: nat) { Route(s, id) == Some(r) }

  /** From `s` to `t`, what the lane has queued for the stream is the same and then `marks`. */
  ghost predicate Appends(s: State, t: State, r: LaneRef, id: nat, marks: seq<int>) {
    && r in s.lanes && r in t.lanes
    && Trace(AsFrames(t.lanes[r].queue.frames), id) == Trace(AsFrames(s.lanes[r].queue.frames), id) + marks
  }

  lemma AppendsNothing(s: State, t: State, r: LaneRef, id: nat)
    requires r in s.lanes && r in t.lanes && t.lanes[r].queue == s.lanes[r].queue
    ensures Appends(s, t, r, id, [])
  {
  }

  lemma AppendsThen(s: State, t: State, u: State, r: LaneRef, id: nat, a: seq<int>, b: seq<int>)
    requires Appends(s, t, r, id, a) && Appends(t, u, r, id, b)
    ensures Appends(s, u, r, id, a + b)
  {
    hide Trace, AsFrames;
    assert (Trace(AsFrames(s.lanes[r].queue.frames), id) + a) + b
      == Trace(AsFrames(s.lanes[r].queue.frames), id) + (a + b);
  }

  /** The mark of a CLOSE that has been queued for the stream. */
  function MarkIf(queued: bool, closed: nat, id: nat): seq<int> {
    if queued && closed == id then [CLOSE_MARK] else []
  }

  /** A CLOSE queued for a stream is appended to what its lane holds for it. */
  lemma CloseAppends(s: State, closed: nat, granted: bool, cost: int, items: int, r: LaneRef, id: nat)
    requires InvWith(s, cost, items) && Queueable(s, Frame(CLOSE, closed, [])) && Serves(s, r, id)
    ensures var (t, ok) := QueueFrame(s, Frame(CLOSE, closed, []), granted);
      Serves(t, r, id) && Appends(s, t, r, id, MarkIf(ok, closed, id))
  {
    hide InvWith, QueueFrame, Admit, SessionAdmits, Push, Trace, AsFrames, Queueable;
    var f := Frame(CLOSE, closed, []);
    var (t, ok) := QueueFrame(s, f, granted);
    RouteIsThere(s, r, id, cost, items);
    EnqueueRoute(s, f, cost, items);
    QueueShape(s, f, granted);
    var q := Route(s, closed).value;
    if ok && q == r {
      LaneOf(s, r, cost, items);
      CloseIsPushable(s, closed);
      PushRefinesAppend(s.lanes[r].queue, f, s.limits.maxFramePayload, id);
      ViewSnoc(AsFrames(s.lanes[r].queue.frames), f, id);
    } else {
      AppendsNothing(s, t, r, id);
    }
  }

  lemma CloseIsPushable(s: State, closed: nat)
    requires Queueable(s, Frame(CLOSE, closed, []))
    ensures Pushable(Frame(CLOSE, closed, []), s.limits.maxFramePayload)
  {
  }

  lemma LaneOf(s: State, r: LaneRef, cost: int, items: int)
    requires InvWith(s, cost, items) && r in s.lanes
    ensures QueueInv(s.lanes[r].queue)
  {
    hide StreamsInv, Register, Placement, Accounts;
    assert LaneInv(s.lanes[r]);
  }

  lemma RouteIsThere(s: State, r: LaneRef, id: nat, cost: int, items: int)
    requires InvWith(s, cost, items) && Serves(s, r, id)
    ensures r in s.lanes
  {
    hide StreamsInv, Accounts, Placement, LaneInv;
  }

  /** Remembering an id leaves alone what the lanes that stay hold. */
  lemma RememberAppends(s: State, closed: nat, cost: int, items: int, r: LaneRef, id: nat)
    requires InvWith(s, cost, items) && closed !in s.streams && Serves(RememberClosed(s, closed), r, id)
    ensures Serves(s, r, id) && Appends(s, RememberClosed(s, closed), r, id, [])
  {
    hide InvWith, RememberClosed, Remember, Evicted, Trace, AsFrames;
    var t := RememberClosed(s, closed);
    RememberShape(s, closed, cost, items);
    RouteIsThere(s, r, id, cost, items);
    RememberedBefore(s, closed, cost, items);
    if closed !in s.tombstones.closed {
      RememberLanes(s, closed, cost, items, r);
      RegisterInjective(s, cost, items);
    }
    AppendsNothing(s, t, r, id);
  }

  /** A refused OPEN: the id is remembered, and a CLOSE queued for it. */
  lemma RefuseAppends(s: State, refused: nat, granted: bool, cost: int, items: int, r: LaneRef, id: nat)
    requires InvWith(s, cost, items) && !s.closed && refused !in s.streams && 0 < refused <= MAX_STREAM_ID
    requires UsesLanes(s) ==> refused in s.carrierLanes
    requires Serves(QueueFrame(RememberClosed(s, refused), Frame(CLOSE, refused, []), granted).0, r, id)
    ensures var (t, ok) := QueueFrame(RememberClosed(s, refused), Frame(CLOSE, refused, []), granted);
      Serves(s, r, id) && Appends(s, t, r, id, MarkIf(ok, refused, id))
  {
    hide InvWith, RememberClosed, QueueFrame, Queueable, Remember, Appends;
    var u := RememberClosed(s, refused);
    RememberKeepsInv(s, refused, cost, items);
    RememberShape(s, refused, cost, items);
    CloseIsQueueable(u, refused, cost, items);
    EnqueueRoute(u, Frame(CLOSE, refused, []), cost, items);
    QueueShape(u, Frame(CLOSE, refused, []), granted);
    var (t, ok) := QueueFrame(u, Frame(CLOSE, refused, []), granted);
    SameRoute(u, t, id);
    CloseAppends(u, refused, granted, cost, items, r, id);
    RememberAppends(s, refused, cost, items, r, id);
    AppendsThen(s, u, t, r, id, [], MarkIf(ok, refused, id));
    assert [] + MarkIf(ok, refused, id) == MarkIf(ok, refused, id);
  }

  lemma SameRoute(s: State, t: State, id: nat)
    requires t.carrier == s.carrier && t.carrierLanes == s.carrierLanes
    ensures Route(t, id) == Route(s, id)
  {
  }

  // ----------------------------------------------------------------------------- batches

  /** The mark a frame of a batch leaves: that of the CLOSE for an OPEN that is refused. */
  function MarkOf(x: Applying, f: Frame, a: Answer, id: nat): seq<int> {
    MarkIf(f.typeCode == OPEN && f.streamID != 0 && !Admitted(x.state, a) && ApplyFrame(x, f, a).ok, f.streamID, id)
  }

  function MarksOf(x: Applying, frames: seq<Frame>, answers: seq<Answer>, id: nat): seq<int>
    decreases |frames|
  {
    if frames == [] || !x.ok || x.state.panic.Some? then []
    else
      MarkOf(x, frames[0], First(answers), id)
        + MarksOf(ApplyFrame(x, frames[0], First(answers)), frames[1..], Others(answers), id)
  }

  lemma FrameAppends(x: Applying, f: Frame, a: Answer, r: LaneRef, id: nat)
    requires InvWith(x.state, x.cost, x.items) && !x.state.closed && x.ok && Applicable(x.state, f, x.cost, x.items)
    requires Serves(ApplyFrame(x, f, a).state, r, id)
    ensures Serves(x.state, r, id) && Appends(x.state, ApplyFrame(x, f, a).state, r, id, MarkOf(x, f, a, id))
  {
    hide InvWith, RememberClosed, QueueFrame, DropStream, Fed, NewStream, Trace, AsFrames;
    var s, j := x.state, f.streamID;
    var t := ApplyFrame(x, f, a).state;
    TicketAsked(s, a, x.cost, x.items);
    if j != 0 && f.typeCode == OPEN && !Admitted(s, a) {
      var u := AskTicket(s, a);
      hide AskTicket;
      RefuseAppends(u, j, a.granted, x.cost, x.items, r, id);
      SameRoute(u, s, id);
    } else if j != 0 && f.typeCode == CLOSE && j !in s.tombstones.closed {
      EndAppends(s, j, x.cost, x.items, r, id);
    } else {
      SameRoute(t, s, id);
      RouteIsThere(s, r, id, x.cost, x.items);
      AppendsNothing(s, t, r, id);
    }
  }

  /** A stream ended by its client: nothing is queued. */
  lemma EndAppends(s: State, j: nat, cost: int, items: int, r: LaneRef, id: nat)
    requires InvWith(s, cost, items) && j in s.streams && Serves(RememberClosed(DropStream(s, j), j), r, id)
    ensures Serves(s, r, id) && Appends(s, RememberClosed(DropStream(s, j), j), r, id, [])
  {
    hide InvWith, RememberClosed, DropStream, Trace, AsFrames;
    DropStreamKeepsInv(s, j, cost, items);
    RememberAppends(DropStream(s, j), j, cost, items, r, id);
    SameRoute(s, DropStream(s, j), id);
  }

  lemma PanicAppends(s: State, t: State, r: LaneRef, id: nat, cost: int, items: int)
    requires InvWith(s, cost, items) && t == s.(panic := t.panic) && Serves(t, r, id)
    ensures Serves(s, r, id) && Appends(s, t, r, id, [])
  {
    hide InvWith;
    SameRoute(s, t, id);
    RouteIsThere(s, r, id, cost, items);
    AppendsNothing(s, t, r, id);
  }

  lemma {:induction false} BatchAppends(x: Applying, sim: Sim, tombstones: set<nat>, past: seq<nat>,
      counted: set<nat>, frames: seq<Frame>, laneID: nat, answers: seq<Answer>, r: LaneRef, id: nat)
    requires InStep(x, sim, tombstones, past, counted, frames, laneID)
    requires Serves(ApplyAll(x, frames, answers).state, r, id)
    ensures Serves(x.state, r, id)
    ensures Appends(x.state, ApplyAll(x, frames, answers).state, r, id, MarksOf(x, frames, answers, id))
    decreases |frames|
  {
    hide InvWith, Linked, ApplyFrame, CoreStep, Simulate, PastAfter, Validate, OnWire, CountedAfter, Covered,
      Unknown, Applicable, Appends, Serves, OnOneLane;
    if frames == [] || x.state.panic.Some? {
      PanicAppends(x.state, x.state, r, id, x.cost, x.items);
    } else {
      var f, a := frames[0], First(answers);
      var y := ApplyFrame(x, f, a);
      if Unknown(CoreOf(x.state), f) {
        UnknownPanics(x, f, a);
        UnknownMarks(x, f, a, id);
        Stopped(y, frames[1..], Others(answers), id);
        PanicAppends(x.state, y.state, r, id, x.cost, x.items);
        assert ApplyAll(x, frames, answers).state == y.state && MarksOf(x, frames, answers, id) == [] + [];
      } else {
        KnownIsApplicable(x, sim, tombstones, past, counted, frames, laneID);
        KnownStaysInStep(x, sim, tombstones, past, counted, frames, laneID, a);
        if y.ok {
          BatchAppends(y, Simulate(sim, tombstones, f), tombstones,
              PastAfter(CoreOf(x.state), past, f, a, x.state.limits), CountedAfter(counted, f), frames[1..], laneID,
              Others(answers), r, id);
          FrameAppends(x, f, a, r, id);
          AppendsThen(x.state, y.state, ApplyAll(y, frames[1..], Others(answers)).state, r, id, MarkOf(x, f, a, id),
              MarksOf(y, frames[1..], Others(answers), id));
        } else {
          Stopped(y, frames[1..], Others(answers), id);
          FrameAppends(x, f, a, r, id);
          assert MarkOf(x, f, a, id) + [] == MarkOf(x, f, a, id);
        }
      }
    }
  }

  lemma UnknownMarks(x: Applying, f: Frame, a: Answer, id: nat)
    requires Unknown(CoreOf(x.state), f)
    ensures MarkOf(x, f, a, id) == []
  {
  }

  lemma Stopped(x: Applying, frames: seq<Frame>, answers: seq<Answer>, id: nat)
    requires !x.ok || x.state.panic.Some?
    ensures MarksOf(x, frames, answers, id) == [] && ApplyAll(x, frames, answers) == x
  {
  }

  // --------------------------------------------------------------------------- sections

  function CommitMarks(s: State, frames: seq<Frame>, a: Answers, id: nat): seq<int> {
    if ValidateBatch(s, frames) && SessionRuns.ReservationGranted(s, frames, a)
    then MarksOf(Begin(SessionRuns.Reserved(s, frames), frames), frames, a.frames, id)
    else []
  }

  function OnLaneMarks(s: State, r: LaneRef, sequence: nat, body: Bytes, frames: seq<Frame>, a: Answers,
      id: nat): seq<int> {
    if CheckUp(LaneAt(s, r), sequence, body) == Ready then CommitMarks(SetUpActive(s, r, true), frames, a, id) else []
  }

  /** The backend ends its own stream. */
  predicate EndsOwn(s: State, id: nat, backend: nat) {
    !s.closed && id in s.streams && s.streams[id].backend == backend
  }

  /** The marks a section leaves for the stream: one for each CLOSE it queues. */
  function MarksBy(s: State, op: SessionRuns.Op, id: nat): seq<int> {
    match op
    case OpUpFinish(sequence, body, a) =>
      if !UsesLanes(s) && !s.closed && ClientFrames(s, body, None).Some?
      then CommitMarks(SetUpActive(s, MAIN, false), ClientFrames(s, body, None).value, a, id) else []
    case OpUpLane(laneID, sequence, body, a) =>
      if !UsesLanes(s) || laneID > MAX_STREAM_ID || ClientFrames(s, body, Some(laneID)).None? || s.closed then []
      else
        var frames := ClientFrames(s, body, Some(laneID)).value;
        if laneID in s.carrierLanes then OnLaneMarks(s, s.carrierLanes[laneID], sequence, body, frames, a, id)
        else if laneID != 0 && frames != [] && frames[0].typeCode == OPEN
        then OnLaneMarks(AddLane(s, laneID), s.nextLane, sequence, body, frames, a, id)
        else []
    case OpBackendClosed(j, backend, granted) =>
      if EndsOwn(s, j, backend)
      then MarkIf(QueueFrame(RememberClosed(DropStream(s, j), j), Frame(CLOSE, j, []), granted).1, j, id) else []
    case _ => []
  }

  lemma QueueSame(s: State, t: State, r: LaneRef, id: nat)
    requires Serves(s, r, id) && t.carrier == s.carrier && t.carrierLanes == s.carrierLanes
    requires r in s.lanes && r in t.lanes && t.lanes[r].queue == s.lanes[r].queue
    ensures Serves(t, r, id) && Appends(s, t, r, id, [])
  {
    hide Trace, AsFrames;
    AppendsNothing(s, t, r, id);
  }

  lemma CommitAppends(s: State, q: LaneRef, sequence: nat, body: Bytes, frames: seq<Frame>, a: Answers, laneID: nat,
      r: LaneRef, id: nat)
    requires Inv(s) && !s.closed && q in s.lanes && OnWire(frames) && OnOneLane(s, frames, laneID)
    requires Serves(CommitBatch(s, q, sequence, body, frames, a).0, r, id)
    ensures Serves(s, r, id)
    ensures Appends(s, CommitBatch(s, q, sequence, body, frames, a).0, r, id, CommitMarks(s, frames, a, id))
  {
    hide InvWith, ValidateBatch, Reservation, ApplyAll, SessionRuns.ReservationGranted, OnOneLane, InStep, Fifo,
      OnWire, Release, SessionRuns.Unreserved, CommitBatch, Committed, Appends, MarksOf;
    SessionRuns.CommitCases(s, q, sequence, body, frames, a);
    if ValidateBatch(s, frames) && SessionRuns.ReservationGranted(s, frames, a) {
      var reserved := SessionRuns.Reserved(s, frames);
      var x := Begin(reserved, frames);
      var y := SessionRuns.AppliedTo(s, frames, a);
      var t := CommitBatch(s, q, sequence, body, frames, a).0;
      SessionRuns.ReservedKeepsInv(s, frames, a);
      SessionRuns.ReservedSame(s, frames, laneID);
      BatchStartsInStep(reserved, frames, laneID);
      ReservedQueues(s, frames);
      if y.state.panic.None? {
        SessionRuns.AppliedSame(s, frames, a, laneID);
      }
      SettledQueues(y, t, q, sequence, body);
      SameRoute(y.state, t, id);
      BatchAppends(x, Sim(Snapshots(s.streams), {}), s.tombstones.closed, Fifo(s.tombstones), s.streams.Keys, frames,
          laneID, a.frames, r, id);
      SameRoute(s, reserved, id);
      RouteIsThere(reserved, r, id, x.cost, x.items);
      var marks := CommitMarks(s, frames, a, id);
      QueueSame(s, reserved, r, id);
      AppendsThen(s, reserved, y.state, r, id, [], marks);
      StillThere(reserved, y.state, r, id, marks);
      QueueSame(y.state, t, r, id);
      AppendsThen(s, y.state, t, r, id, [] + marks, []);
      assert [] + marks + [] == marks;
    } else {
      var t := CommitBatch(s, q, sequence, body, frames, a).0;
      if ValidateBatch(s, frames) {
        SessionRuns.UnreservedSame(s, frames, a);
      }
      SameRoute(s, t, id);
      RouteIsThere(s, r, id, 0, 0);
      QueueSame(s, t, r, id);
    }
  }

  lemma StillThere(s: State, t: State, r: LaneRef, id: nat, marks: seq<int>)
    requires Appends(s, t, r, id, marks)
    ensures r in t.lanes
  {
  }

  lemma ReservedQueues(s: State, frames: seq<Frame>)
    ensures var t := SessionRuns.Reserved(s, frames);
      t.lanes == s.lanes && t.carrier == s.carrier && t.carrierLanes == s.carrierLanes
  {
    hide Reservation;
  }

  /** After the batch, only budget and sequence numbers change. */
  lemma SettledQueues(y: Applying, t: State, q: LaneRef, sequence: nat, body: Bytes)
    requires var settled := Release(y.state, y.cost, y.items);
      t == y.state
      || (q in y.state.lanes
          && (t == settled || t == WithLane(settled, q, Committed(LaneAt(settled, q), sequence, body))))
    ensures t.carrier == y.state.carrier && t.carrierLanes == y.state.carrierLanes
    ensures forall x :: x in y.state.lanes ==> x in t.lanes && t.lanes[x].queue == y.state.lanes[x].queue
  {
    hide Release;
    ReleaseShape(y.state, y.cost, y.items);
  }

  lemma UpActiveQueues(s: State, q: LaneRef, active: bool, r: LaneRef, id: nat)
    requires q in s.lanes && r in s.lanes
    ensures Route(SetUpActive(s, q, active), id) == Route(s, id)
    ensures Appends(s, SetUpActive(s, q, active), r, id, [])
  {
    AppendsNothing(s, SetUpActive(s, q, active), r, id);
  }

  lemma UpFinishAppends(s: State, op: SessionRuns.Op, r: LaneRef, id: nat)
    requires Inv(s) && s.panic.None? && op.OpUpFinish? && !UsesLanes(s) && Serves(s, r, id)
    ensures Appends(s, SessionRuns.Step(s, op), r, id, MarksBy(s, op, id))
  {
    hide InvWith, CommitBatch, OnWire, ClientFrames, Appends, CommitMarks;
    RouteIsThere(s, r, id, 0, 0);
    MainIsThere(s);
    var idle := SetUpActive(s, MAIN, false);
    UpActiveQueues(s, MAIN, false, r, id);
    if !s.closed && ClientFrames(s, op.body, None).Some? {
      var frames := ClientFrames(s, op.body, None).value;
      SessionRuns.ClientFramesOnWire(s, op.body, None);
      SessionRuns.UpActiveKeepsInv(s, MAIN, false);
      SessionRuns.CommitKeepsInv(idle, MAIN, op.sequence, op.body, frames, op.answers, 0);
      CommitSpares(idle, MAIN, op.sequence, op.body, frames, op.answers, 0);
      CommitAppends(idle, MAIN, op.sequence, op.body, frames, op.answers, 0, r, id);
      AppendsThen(s, idle, SessionRuns.Step(s, op), r, id, [], CommitMarks(idle, frames, op.answers, id));
      assert [] + CommitMarks(idle, frames, op.answers, id) == CommitMarks(idle, frames, op.answers, id);
    }
  }

  lemma UpOnLaneAppends(s: State, laneID: nat, sequence: nat, body: Bytes, frames: seq<Frame>, a: Answers, r: LaneRef,
      id: nat)
    requires Inv(s) && UsesLanes(s) && !s.closed && laneID in s.carrierLanes && OnWire(frames)
    requires forall i :: 0 <= i < |frames| ==> frames[i].streamID == laneID
    requires Serves(s, r, id) && Serves(UpOnLane(s, s.carrierLanes[laneID], sequence, body, frames, a).0, r, id)
    ensures var q := s.carrierLanes[laneID];
      Appends(s, UpOnLane(s, q, sequence, body, frames, a).0, r, id, OnLaneMarks(s, q, sequence, body, frames, a, id))
  {
    hide InvWith, CommitBatch, OnWire, CheckUp, Appends, CommitMarks;
    var q := s.carrierLanes[laneID];
    SessionRuns.RegisteredInLanes(s, laneID);
    RouteIsThere(s, r, id, 0, 0);
    if CheckUp(s.lanes[q], sequence, body) == Ready {
      var active := SetUpActive(s, q, true);
      var t := CommitBatch(active, q, sequence, body, frames, a).0;
      var marks := CommitMarks(active, frames, a, id);
      SessionRuns.UpActiveKeepsInv(s, q, true);
      UpActiveQueues(s, q, true, r, id);
      UpOnLaneSpares(s, laneID, sequence, body, frames, a);
      CommitSpares(active, q, sequence, body, frames, a, laneID);
      QueueAfter(t, q, r, id);
      CommitAppends(active, q, sequence, body, frames, a, laneID, r, id);
      StillThere(active, t, r, id, marks);
      UpActiveQueues(t, q, false, r, id);
      AppendsThen(s, active, t, r, id, [], marks);
      AppendsThen(s, t, SetUpActive(t, q, false), r, id, [] + marks, []);
      assert [] + marks + [] == marks;
    } else {
      QueueSame(s, s, r, id);
    }
  }

  lemma QueueAfter(t: State, q: LaneRef, r: LaneRef, id: nat)
    requires Serves(SetUpActive(t, q, false), r, id)
    ensures Serves(t, r, id)
  {
  }

  lemma UpLaneAppends(s: State, op: SessionRuns.Op, r: LaneRef, id: nat)
    requires Inv(s) && s.panic.None? && op.OpUpLane? && UsesLanes(s)
    requires Serves(s, r, id) && Serves(SessionRuns.Step(s, op), r, id)
    ensures Appends(s, SessionRuns.Step(s, op), r, id, MarksBy(s, op, id))
  {
    hide InvWith, UpOnLane, OnLaneMarks, ClientFrames, OnWire, OnlyLateFrames, AddLane, Appends;
    var laneID := op.laneID;
    RouteIsThere(s, r, id, 0, 0);
    QueueSame(s, s, r, id);
    if laneID <= MAX_STREAM_ID && ClientFrames(s, op.body, Some(laneID)).Some? && !s.closed {
      var frames := ClientFrames(s, op.body, Some(laneID)).value;
      SessionRuns.ClientFramesOnWire(s, op.body, Some(laneID));
      if laneID in s.carrierLanes {
        UpOnLaneAppends(s, laneID, op.sequence, op.body, frames, op.answers, r, id);
      } else if laneID != 0 && frames[0].typeCode == OPEN {
        SessionRuns.OpensIsNotLate(frames);
        var added := AddLane(s, laneID);
        AddLaneKeepsInv(s, laneID, 0, 0);
        SessionRuns.AddedLane(s, laneID);
        AddedServes(s, laneID, r, id);
        UpOnLaneAppends(added, laneID, op.sequence, op.body, frames, op.answers, r, id);
        var marks := OnLaneMarks(added, s.nextLane, op.sequence, op.body, frames, op.answers, id);
        AppendsThen(s, added, SessionRuns.Step(s, op), r, id, [], marks);
        assert [] + marks == marks;
      }
    }
  }

  lemma AddedServes(s: State, laneID: nat, r: LaneRef, id: nat)
    requires Inv(s) && UsesLanes(s) && laneID !in s.carrierLanes && Serves(s, r, id)
    ensures Serves(AddLane(s, laneID), r, id) && Appends(s, AddLane(s, laneID), r, id, [])
    ensures AddLane(s, laneID).carrierLanes[laneID] == s.nextLane
  {
    NewRef(s);
    RouteIsThere(s, r, id, 0, 0);
    OthersStay(s, laneID, r);
    AddedRoute(s, laneID, id);
    hide InvWith, Trace, AsFrames, AddLane;
    AppendsNothing(s, AddLane(s, laneID), r, id);
  }

  lemma AddedRoute(s: State, laneID: nat, id: nat)
    requires UsesLanes(s) && laneID !in s.carrierLanes && Route(s, id).Some?
    ensures Route(AddLane(s, laneID), id) == Route(s, id)
  {
  }

  lemma NewRef(s: State)
    requires Inv(s)
    ensures s.nextLane !in s.lanes
  {
    hide StreamsInv, LaneInv, Placement, Register, Accounts;
  }

  /** The backend's end: the stream is gone, and its CLOSE queued, or else the session closed. */
  lemma BackendAppends(s: State, op: SessionRuns.Op, r: LaneRef, id: nat)
    requires Inv(s) && s.panic.None? && op.OpBackendClosed? && Serves(s, r, id)
    ensures var t := SessionRuns.Step(s, op);
      Serves(t, r, id) && !t.closed ==> Appends(s, t, r, id, MarksBy(s, op, id))
    ensures var t := SessionRuns.Step(s, op);
      EndsOwn(s, op.id, op.backend) ==>
        op.id !in t.streams && op.id in t.tombstones.closed && (MarksBy(s, op, op.id) == [CLOSE_MARK] || t.closed)
  {
    hide InvWith, DropStream, RememberClosed, QueueFrame, CloseSession, Queueable, Appends;
    RouteIsThere(s, r, id, 0, 0);
    if EndsOwn(s, op.id, op.backend) {
      var j := op.id;
      InvStream(s, j, 0, 0);
      var dropped := DropStream(s, j);
      DropStreamKeepsInv(s, j, 0, 0);
      SameRoute(s, dropped, id);
      var (queued, ok) := QueueFrame(RememberClosed(dropped, j), Frame(CLOSE, j, []), op.granted);
      RememberKeepsInv(dropped, j, 0, 0);
      RememberShape(dropped, j, 0, 0);
      CloseIsQueueable(RememberClosed(dropped, j), j, 0, 0);
      EnqueueRoute(RememberClosed(dropped, j), Frame(CLOSE, j, []), 0, 0);
      QueueShape(RememberClosed(dropped, j), Frame(CLOSE, j, []), op.granted);
      ClosedIsClosed(queued);
      if ok && Serves(queued, r, id) {
        RefuseAppends(dropped, j, op.granted, 0, 0, r, id);
        QueueSame(s, dropped, r, id);
        var marks := MarksBy(s, op, id);
        AppendsThen(s, dropped, queued, r, id, [], marks);
        assert [] + marks == marks;
      }
    } else {
      QueueSame(s, s, r, id);
    }
  }

  lemma ClosedIsClosed(s: State)
    ensures CloseSession(s).closed && CloseSession(s).tombstones == s.tombstones
    ensures CloseSession(s).streams.Keys <= s.streams.Keys
  {
  }

  lemma ReleaseAppends(s: State, released: nat, r: LaneRef, id: nat)
    requires Inv(s) && Serves(s, r, id) && Serves(ReleaseWebSocketLane(s, released), r, id)
    ensures Appends(s, ReleaseWebSocketLane(s, released), r, id, [])
  {
    hide InvWith, DropLane, DropStream, RememberClosed, Evicted, Remember, Trace, AsFrames;
    RouteIsThere(s, r, id, 0, 0);
    QueueSame(s, s, r, id);
    if s.carrier == WebSocketLanes && released in s.carrierLanes {
      RegisterInjective(s, 0, 0);
      var other := s.carrierLanes[released];
      SessionRuns.RegisteredInLanes(s, released);
      SessionRuns.ActivateKeepsInv(s, other, false);
      var inactive := WithLane(s, other, s.lanes[other].(websocketActive := false));
      QueueSame(s, inactive, r, id);
      if released in s.streams {
        var ended := RememberClosed(DropStream(inactive, released), released);
        DropStreamKeepsInv(inactive, released, 0, 0);
        RememberKeepsInv(DropStream(inactive, released), released, 0, 0);
        RememberShape(DropStream(inactive, released), released, 0, 0);
        DropLaneAppends(ended, released, r, id);
        EndAppends(inactive, released, 0, 0, r, id);
        AppendsThen(s, inactive, ended, r, id, [], []);
        AppendsThen(s, ended, DropLane(ended, released), r, id, [], []);
      } else {
        DropLaneAppends(inactive, released, r, id);
        AppendsThen(s, inactive, DropLane(inactive, released), r, id, [], []);
      }
    }
  }

  lemma DropLaneAppends(s: State, dropped: nat, r: LaneRef, id: nat)
    requires Inv(s) && dropped !in s.streams && Serves(DropLane(s, dropped), r, id)
    ensures Serves(s, r, id) && Appends(s, DropLane(s, dropped), r, id, [])
  {
    hide InvWith, DropLane, Trace, AsFrames;
    DropLaneShape(s, dropped, 0, 0);
    RegisterInjective(s, 0, 0);
    RouteIsThere(s, r, id, 0, 0);
    AppendsNothing(s, DropLane(s, dropped), r, id);
  }

  /** A section of a stream's writer that queues nothing. */
  lemma WriterAppends(s: State, op: SessionRuns.Op, r: LaneRef, id: nat)
    requires s.panic.None? && r in s.lanes && (op.OpNextWrite? || op.OpWriteFinished?)
    ensures Appends(s, SessionRuns.Step(s, op), r, id, [])
  {
    hide Release, Trace, AsFrames;
    if op.OpWriteFinished? && !s.closed && op.id in s.streams {
      var st := s.streams[op.id];
      if st.pendingWriteItems != 0 && st.pendingWriteCost >= QUEUE_ITEM_COST {
        ReleaseShape(WithStream(s, op.id, st.(pendingWriteItems := st.pendingWriteItems - 1,
                pendingWriteCost := st.pendingWriteCost - QUEUE_ITEM_COST)), QUEUE_ITEM_COST, 1);
      }
    }
    AppendsNothing(s, SessionRuns.Step(s, op), r, id);
  }

  lemma DataAppends(s: State, op: SessionRuns.Op, r: LaneRef, id: nat)
    requires Inv(s) && s.panic.None? && Serves(s, r, id) && op.OpBackendData? && !FeedsLane(s, op, r)
    ensures Appends(s, SessionRuns.Step(s, op), r, id, [])
  {
    hide InvWith, QueueFrame, Trace, AsFrames;
    RouteIsThere(s, r, id, 0, 0);
    AppendsNothing(s, s, r, id);
    if !s.closed && op.id in s.streams && 0 < |op.data| <= DATA_CHUNK && |op.data| <= s.streams[op.id].sendCredit {
      var st := s.streams[op.id];
      var u := WithStream(s, op.id, st.(sendCredit := st.sendCredit - |op.data|));
      FeedsElsewhere(s, u, Frame(DATA, op.id, op.data), op.granted, r, id);
    }
  }

  lemma DrainedAppends(s: State, op: SessionRuns.Op, r: LaneRef, id: nat)
    requires Inv(s) && s.panic.None? && Serves(s, r, id) && op.OpDrained? && !FeedsLane(s, op, r)
    ensures Appends(s, SessionRuns.Step(s, op), r, id, [])
  {
    hide InvWith, QueueFrame, Release, Trace, AsFrames;
    RouteIsThere(s, r, id, 0, 0);
    AppendsNothing(s, s, r, id);
    var amount := op.amount;
    if !s.closed && op.id in s.streams {
      var st := s.streams[op.id];
      InvStream(s, op.id, 0, 0);
      if !(amount <= 0 || amount > st.pendingWriteBytes || amount > st.pendingWriteCost
           || st.receiveWindow + amount > INITIAL_STREAM_WINDOW) {
        var drained := WithStream(s, op.id, st.(pendingWriteBytes := st.pendingWriteBytes - amount,
              pendingWriteCost := st.pendingWriteCost - amount, receiveWindow := st.receiveWindow + amount));
        ReleaseShape(drained, amount, 0);
        FeedsElsewhere(s, Release(drained, amount, 0), Frame(WINDOW, op.id, WindowPayload(amount)), op.granted, r, id);
      }
    }
  }

  /** A frame refused, or queued on another lane. */
  lemma FeedsElsewhere(s: State, u: State, f: Frame, granted: bool, r: LaneRef, id: nat)
    requires Inv(s) && f.streamID in s.streams && Serves(s, r, id)
    requires u.lanes == s.lanes && u.carrier == s.carrier && u.carrierLanes == s.carrierLanes
    requires !QueueFrame(u, f, granted).1 || Route(s, f.streamID) != Some(r)
    ensures Appends(s, QueueFrame(u, f, granted).0, r, id, [])
  {
    hide InvWith, QueueFrame, Trace, AsFrames;
    RouteIsThere(s, r, id, 0, 0);
    LiveHasRoute(s, f.streamID);
    SameRoute(s, u, f.streamID);
    QueueShape(u, f, granted);
    AppendsNothing(s, QueueFrame(u, f, granted).0, r, id);
  }

  lemma LiveHasRoute(s: State, id: nat)
    requires Inv(s) && id in s.streams
    ensures Route(s, id).Some?
  {
    hide LanesInv, Accounts;
  }

  lemma WithLaneAppends(s: State, other: LaneRef, l: Lane, r: LaneRef, id: nat)
    requires r in s.lanes && other != r
    ensures Appends(s, WithLane(s, other, l), r, id, [])
  {
    hide Trace, AsFrames;
    AppendsNothing(s, WithLane(s, other, l), r, id);
  }

  lemma PollAppends(s: State, op: SessionRuns.Op, r: LaneRef, id: nat)
    requires s.panic.None? && r in s.lanes && !PollsLane(s, op, r)
    requires op.OpPollEnter? || op.OpPollWoken? || op.OpPollDeadline? || op.OpPollQuits? || op.OpPollDisplaced?
        || op.OpPollTakesToken?
    ensures Appends(s, SessionRuns.Step(s, op), r, id, [])
  {
    hide Appends, Loop, AfterToken, Deadline, Quit, Present, TakeOver, Release, ConditionOf, PollEnter, Signal;
    AppendsNothing(s, s, r, id);
    match op {
      case OpPollEnter(other, me, cursor) =>
        OtherEnterAppends(s, other, me, cursor, r);
        AppendsNothing(s, PollEnter(s, other, me, cursor).0, r, id);
      case OpPollWoken(other, laneID, me, cursor) =>
        WithLaneAppends(s, other,
            AfterToken(LaneAt(s, other), me, cursor, s.limits.carrierBatchBytes, ConditionOf(s, other, laneID)).lane, r,
            id);
      case OpPollDeadline(other, laneID, me, cursor) =>
        WithLaneAppends(s, other,
            Deadline(LaneAt(s, other), me, cursor, s.limits.carrierBatchBytes, ConditionOf(s, other, laneID)).lane, r,
            id);
      case OpPollQuits(other, me) => WithLaneAppends(s, other, Quit(LaneAt(s, other), me), r, id);
      case OpPollDisplaced(other) => WithLaneAppends(s, other, Signal(LaneAt(s, other)), r, id);
      case OpPollTakesToken(other) => WithLaneAppends(s, other, LaneAt(s, other).(notify := false), r, id);
    }
  }

  lemma OtherEnterAppends(s: State, polled: nat, me: nat, cursor: nat, r: LaneRef)
    requires PollLaneOf(s, polled) != Some(r) && r in s.lanes
    ensures var t := PollEnter(s, polled, me, cursor).0; r in t.lanes && t.lanes[r] == s.lanes[r]
  {
    hide Loop, Present, TakeOver, Release, ConditionOf;
    if !s.closed && PollLaneOf(s, polled).Some? {
      match Present(LaneAt(s, PollLaneOf(s, polled).value), cursor)
      case Accepted(l, cost, items) => ReleaseShape(s, cost, items);
      case _ =>
    }
  }

  lemma OthersStay(s: State, added: nat, r: LaneRef)
    requires r in s.lanes && r != s.nextLane
    ensures r in AddLane(s, added).lanes && AddLane(s, added).lanes[r] == s.lanes[r]
    ensures AddLane(s, added).carrierLanes[added] == s.nextLane
  {
  }

  lemma AcquireAppends(s: State, acquired: nat, r: LaneRef, id: nat)
    requires r in s.lanes && s.nextLane !in s.lanes
    ensures Appends(s, AcquireWebSocket(s).0, r, id, [])
    ensures Appends(s, AcquireWebSocketLane(s, acquired).0, r, id, [])
  {
    OthersStay(s, acquired, r);
    hide Trace, AsFrames, AddLane;
    AppendsNothing(s, AcquireWebSocket(s).0, r, id);
    AppendsNothing(s, AcquireWebSocketLane(s, acquired).0, r, id);
  }

  /** Every section that is not one of the lane's polls and feeds it nothing appends to what the lane has
      queued for the stream exactly the CLOSE of a backend's end or of a refused OPEN, if that is what it
      is, and nothing otherwise. */
  lemma SectionAppends(s: State, op: SessionRuns.Op, r: LaneRef, id: nat)
    requires Inv(s) && s.panic.None? && !PollsLane(s, op, r) && !FeedsLane(s, op, r)
    requires Serves(s, r, id) && Serves(SessionRuns.Step(s, op), r, id) && !SessionRuns.Step(s, op).closed
    ensures Appends(s, SessionRuns.Step(s, op), r, id, MarksBy(s, op, id))
  {
    hide InvWith, Appends, FeedsLane, CheckUp, UpFinish, UpLane, CloseSession, AcquireWebSocket, AcquireWebSocketLane,
      ReleaseWebSocketLane, BackendClosed, PollEnter, PollLaneOf, PollWoken, PollDeadline, PollQuits, PollDisplaced,
      PollTakesToken, NextWrite, Drained, WriteFinished, BackendData, ClientFrames, CommitMarks, OnLaneMarks,
          QueueFrame;
    RouteIsThere(s, r, id, 0, 0);
    NewRef(s);
    QueueSame(s, s, r, id);
    match op {
      case OpUpBegin(_, _) =>
        if !UsesLanes(s) {
          MainIsThere(s);
          UpActiveQueues(s, MAIN, true, r, id);
        }
      case OpUpFinish(_, _, _) => if !UsesLanes(s) { UpFinishAppends(s, op, r, id); }
      case OpUpLane(_, _, _, _) => if UsesLanes(s) { UpLaneAppends(s, op, r, id); } else { LaneRefused(s, op); }
      case OpFailure(failed) =>
        ClosedIsClosed(s);
        if s.carrier == WebSocketLanes { ReleaseAppends(s, failed, r, id); }
      case OpClose => ClosedIsClosed(s);
      case OpAcquireWebSocket => AcquireAppends(s, 0, r, id);
      case OpAcquireLane(acquired) => AcquireAppends(s, acquired, r, id);
      case OpReleaseLane(released) => ReleaseAppends(s, released, r, id);
      case OpBackendClosed(_, _, _) => BackendAppends(s, op, r, id);
      case _ =>
        if op.OpNextWrite? || op.OpWriteFinished? {
          WriterAppends(s, op, r, id);
        } else if op.OpBackendData? {
          DataAppends(s, op, r, id);
        } else if op.OpDrained? {
          DrainedAppends(s, op, r, id);
        } else {
          PollAppends(s, op, r, id);
        }
    }
  }

  lemma LaneRefused(s: State, op: SessionRuns.Op)
    requires op.OpUpLane? && !UsesLanes(s)
    ensures UpLane(s, op.laneID, op.sequence, op.body, op.answers).0 == s
  {
    hide ClientFrames, UpOnLane;
  }

  /** An OPEN after which its stream is not live has been refused: it is remembered and its CLOSE queued, or
      the batch stops there. */
  lemma RefusedIsTold(x: Applying, f: Frame, a: Answer, r: LaneRef)
    requires InvWith(x.state, x.cost, x.items) && !x.state.closed && x.ok && Applicable(x.state, f, x.cost, x.items)
    requires f.typeCode == OPEN && f.streamID != 0
    requires f.streamID !in ApplyFrame(x, f, a).state.streams && Serves(ApplyFrame(x, f, a).state, r, f.streamID)
    ensures var y := ApplyFrame(x, f, a);
      !y.ok || (f.streamID in y.state.tombstones.closed && Appends(x.state, y.state, r, f.streamID, [CLOSE_MARK]))
  {
    FrameAppends(x, f, a, r, f.streamID);
    RefusedCloses(x, f, a);
  }

  /** An OPEN is granted exactly when the session has room for one more stream and the manager a ticket, which
      is asked for only then; the stream is live with its windows full and nothing else has changed. */
  lemma OpenIsGranted(x: Applying, f: Frame, a: Answer)
    requires InvWith(x.state, x.cost, x.items) && !x.state.closed && x.ok && Applicable(x.state, f, x.cost, x.items)
    requires f.typeCode == OPEN && f.streamID != 0
    ensures var s, y := x.state, ApplyFrame(x, f, a);
      if |s.streams| < s.limits.maxStreamsPerSession && a.ticket then
        && y.state == s.(streams := s.streams[f.streamID := y.state.streams[f.streamID]],
                         nextBackend := s.nextBackend + 1, calls := s.calls + [TicketCall(s.nextBackend, true)])
        && y.state.streams[f.streamID].backend == s.nextBackend
        && y.state.streams[f.streamID].receiveWindow == y.state.streams[f.streamID].sendCredit
           == INITIAL_STREAM_WINDOW
        && y.state.streams[f.streamID].writes == [] && y.begun == x.begun + [s.nextBackend] && y.ok
      else
        f.streamID !in y.state.streams && y.begun == x.begun && y.state.nextBackend == s.nextBackend
  {
    hide InvWith, QueueFrame, RememberClosed, ApplyClose, ApplyData, ApplyWindow;
    if !(|x.state.streams| < x.state.limits.maxStreamsPerSession && a.ticket) {
      RefusedStaysOut(x, f, a);
    }
  }

  lemma RefusedStaysOut(x: Applying, f: Frame, a: Answer)
    requires InvWith(x.state, x.cost, x.items) && !x.state.closed && x.ok && Applicable(x.state, f, x.cost, x.items)
    requires f.typeCode == OPEN && f.streamID != 0 && !Admitted(x.state, a)
    ensures var y := ApplyFrame(x, f, a);
      f.streamID !in y.state.streams && y.begun == x.begun && y.state.nextBackend == x.state.nextBackend
  {
    hide InvWith, QueueFrame, RememberClosed, NewStream, Remember, Admitted;
    TicketAsked(x.state, a, x.cost, x.items);
    var u, id := AskTicket(x.state, a), f.streamID;
    hide AskTicket;
    RememberKeepsInv(u, id, x.cost, x.items);
    RememberShape(u, id, x.cost, x.items);
    CloseIsQueueable(RememberClosed(u, id), id, x.cost, x.items);
    QueueShape(RememberClosed(u, id), Frame(CLOSE, id, []), a.granted);
  }

  lemma RefusedCloses(x: Applying, f: Frame, a: Answer)
    requires InvWith(x.state, x.cost, x.items) && !x.state.closed && x.ok && Applicable(x.state, f, x.cost, x.items)
    requires f.typeCode == OPEN && f.streamID != 0 && f.streamID !in ApplyFrame(x, f, a).state.streams
    ensures !Admitted(x.state, a) && f.streamID in ApplyFrame(x, f, a).state.tombstones.closed
  {
    hide InvWith, QueueFrame, RememberClosed, NewStream, Remember;
    TicketAsked(x.state, a, x.cost, x.items);
    if !Admitted(x.state, a) {
      var u := AskTicket(x.state, a);
      hide AskTicket;
      var id := f.streamID;
      RememberKeepsInv(u, id, x.cost, x.items);
      RememberShape(u, id, x.cost, x.items);
      CloseIsQueueable(RememberClosed(u, id), id, x.cost, x.items);
      EnqueueRoute(RememberClosed(u, id), Frame(CLOSE, id, []), x.cost, x.items);
      QueueShape(RememberClosed(u, id), Frame(CLOSE, id, []), a.granted);
    }
  }

  // ------------------------------------------------------------------------ over every run

  lemma OutsideStep(x: Runs.Run, e: Runs.Event, c: Runs.Config)
    ensures FromOutside(e) ==> Runs.Step(x, e, c).batches == x.batches
    ensures Runs.Dropped(x) ==> Runs.Dropped(Runs.Step(x, e, c))
  {
    hide Enqueue, Emptied, Loop, AfterToken, Present, Pushable;
  }

  lemma {:induction false} OutsideBatches(x: Runs.Run, events: seq<Runs.Event>, c: Runs.Config)
    requires AllFromOutside(events)
    ensures Runs.RunFrom(x, events, c).batches == x.batches
    ensures Runs.Dropped(x) ==> Runs.Dropped(Runs.RunFrom(x, events, c))
  {
    hide Runs.Step;
    Runs.RunUnfolds(x, events, c);
    if events != [] {
      var n := |events| - 1;
      OutsideBatches(x, events[..n], c);
      OutsideStep(Runs.RunFrom(x, events[..n], c), events[n], c);
    }
  }

  lemma OutsideBatched(x: Runs.Run, t: State, r: LaneRef, laneID: nat)
    ensures Outside(x, t, r, laneID).batches == x.batches
    ensures Runs.Dropped(x) ==> Runs.Dropped(Outside(x, t, r, laneID))
  {
    hide Follows, Runs.RunFrom, AllFromOutside, Runs.Dropped;
    if Reaches(x, t, r, laneID) {
      var events :| AllFromOutside(events) && Follows(Runs.RunFrom(x, events, ConfigOf(t)), t, r, laneID)
        && Outside(x, t, r, laneID) == Runs.RunFrom(x, events, ConfigOf(t));
      OutsideBatches(x, events, ConfigOf(t));
    }
  }

  /** A lane that has not been dropped serves its streams. */
  lemma ServesUnlessDropped(x: Runs.Run, s: State, r: LaneRef, laneID: nat, id: nat)
    requires Inv(s) && Follows(x, s, r, laneID) && !Runs.Dropped(x) && MayUse(r, laneID, id)
    ensures Serves(s, r, id) && !s.closed && r in s.lanes && x.lane.queue == s.lanes[r].queue
  {
    hide InvWith;
    RegisterInjective(s, 0, 0);
  }

  lemma CancelPrefix(a: seq<int>, b: seq<int>, c: seq<int>, marks: seq<int>)
    requires b == c + marks
    ensures a + b == (a + c) + marks
  {
  }

  /** What was pushed on the lane for the stream, from the queue and the batches. */
  lemma PushedIsHeld(x: Runs.Run, id: nat)
    requires Runs.RunInv(x) && !Runs.Dropped(x)
    ensures Trace(x.pushed, id) == Trace(Runs.AllFrames(x.batches), id) + Trace(AsFrames(x.lane.queue.frames), id)
  {
    assert Runs.OrderInv(x, id);
    hide Runs.BatchesInv, Runs.OwnerInv, Runs.WakeInv, Runs.NetworkInv;
    ViewConcat(Runs.AllFrames(x.batches), AsFrames(x.lane.queue.frames), id);
  }

  /** What a section pushes on the lane for the stream: what is fed, or the CLOSE. */
  function PushedBy(s: State, op: SessionRuns.Op, r: LaneRef, id: nat): seq<int> {
    if FeedsLane(s, op, r) then TraceOf(FedFrame(op), id) else MarksBy(s, op, id)
  }

  /** In every run: a section that keeps the lane adds to all that was ever pushed on it for the stream
      exactly the DATA read, or exactly the CLOSE of the stream's end or refusal, or nothing. */
  lemma SectionPushes(j: Joint, op: SessionRuns.Op, r: LaneRef, laneID: nat, id: nat)
    requires JointInv(j, r, laneID) && !PollsLane(j.s, op, r) && j.s.panic.None? && MayUse(r, laneID, id)
    requires var z := JointStep(j, DownlinkRuns.Elsewhere(op), r, laneID); z.s.panic.None? && !Runs.Dropped(z.x)
    ensures var z := JointStep(j, DownlinkRuns.Elsewhere(op), r, laneID);
      && !Runs.Dropped(j.x) && Trace(z.x.pushed, id) == Trace(j.x.pushed, id) + PushedBy(j.s, op, r, id)
  {
    hide InvWith, Runs.RunInv, Follows, SessionRuns.Step, Runs.Step, FeedsLane, Outside, ConditionOf, BytesInv,
        CreditInv,
      Runs.Dropped, TakenBy, Trace, MarksBy, PollsLane, AsFrames, Runs.AllFrames, MayUse;
    var z := JointStep(j, DownlinkRuns.Elsewhere(op), r, laneID);
    ElsewhereKeepsInv(j, op, r, laneID);
    if FeedsLane(j.s, op, r) {
      FedIsFed(j.s, op, r);
      FeedingIsPush(j.x, j.s, op, r, laneID);
      PushedByStep(j.x, Runs.FramePushed(FedFrame(op)), ConfigOf(j.s));
      ViewSnoc(j.x.pushed, FedFrame(op), id);
    } else {
      OutsideBatched(j.x, z.s, r, laneID);
      ServesUnlessDropped(j.x, j.s, r, laneID, id);
      ServesUnlessDropped(z.x, z.s, r, laneID, id);
      SectionAppends(j.s, op, r, id);
      PushedIsHeld(j.x, id);
      PushedIsHeld(z.x, id);
      CancelPrefix(Trace(Runs.AllFrames(j.x.batches), id), Trace(AsFrames(z.x.lane.queue.frames), id),
          Trace(AsFrames(j.x.lane.queue.frames), id), MarksBy(j.s, op, id));
    }
  }

  /** The section ends the stream on the relay's side: its own backend ends it, or its OPEN is refused. */
  predicate RelayEnds(s: State, op: SessionRuns.Op, id: nat) {
    || (op.OpBackendClosed? && op.id == id && EndsOwn(s, id, op.backend))
    || MarksBy(s, op, id) != []
  }

  /** After these events, the stream has been ended by the relay and not been opened since. */
  ghost predicate Ended(j: Joint, events: seq<JointEvent>, r: LaneRef, laneID: nat, id: nat)
    decreases |events|
  {
    events != [] &&
    var past, e := events[..|events| - 1], events[|events| - 1];
    var y := JointRun(j, past, r, laneID);
    if !e.Elsewhere? || PollsLane(y.s, e.op, r) || y.s.panic.Some? then Ended(j, past, r, laneID, id)
    else
      && (Ended(j, past, r, laneID, id) || RelayEnds(y.s, e.op, id))
      && id !in JointStep(y, e, r, laneID).s.streams
  }

  /** The last that the trace shows of the stream is its end. */
  predicate EndsInClose(trace: seq<int>) { trace != [] && trace[|trace| - 1] == CLOSE_MARK }

  lemma {:induction false} MarksClose(x: Applying, frames: seq<Frame>, answers: seq<Answer>, id: nat)
    ensures MarksOf(x, frames, answers, id) != [] ==> EndsInClose(MarksOf(x, frames, answers, id))
    decreases |frames|
  {
    hide ApplyFrame, Admitted;
    if frames != [] && x.ok && x.state.panic.None? {
      var y := ApplyFrame(x, frames[0], First(answers));
      MarksClose(y, frames[1..], Others(answers), id);
      var rest := MarksOf(y, frames[1..], Others(answers), id);
      var mark := MarkOf(x, frames[0], First(answers), id);
      assert MarksOf(x, frames, answers, id) == mark + rest;
      assert mark == [] || mark == [CLOSE_MARK];
    }
  }

  lemma MarksByClose(s: State, op: SessionRuns.Op, id: nat)
    ensures MarksBy(s, op, id) != [] ==> EndsInClose(MarksBy(s, op, id))
  {
    hide MarksOf, ClientFrames, ValidateBatch, SessionRuns.ReservationGranted, SessionRuns.Reserved, QueueFrame,
      DropStream, RememberClosed, CheckUp, AddLane, Begin, EndsInClose;
    assert EndsInClose([CLOSE_MARK]) by {
      CloseAlone([CLOSE_MARK]);
    }
    forall x, frames, answers
      ensures MarksOf(x, frames, answers, id) != [] ==> EndsInClose(MarksOf(x, frames, answers, id))
    {
      MarksClose(x, frames, answers, id);
    }
  }

  lemma CloseAlone(trace: seq<int>)
    requires |trace| == 1 && trace[0] == CLOSE_MARK
    ensures EndsInClose(trace)
  {
  }

  lemma AfterClose(a: seq<int>, b: seq<int>)
    requires b != [] ==> EndsInClose(b)
    requires EndsInClose(a) || b != []
    ensures EndsInClose(a + b)
  {
    if b == [] {
      assert a + b == a;
    }
  }

  /** What is fed to a stream that is not live, on this lane, is no DATA. */
  lemma FedIsLive(s: State, op: SessionRuns.Op, r: LaneRef, id: nat)
    requires FeedsLane(s, op, r) && id !in s.streams
    ensures TraceOf(FedFrame(op), id) == []
  {
    hide QueueFrame, Release;
  }

  ghost predicate EndShown(y: Joint, r: LaneRef, laneID: nat, id: nat) {
    y.s.panic.None? ==> id !in y.s.streams && (!Runs.Dropped(y.x) ==> EndsInClose(Trace(y.x.pushed, id)))
  }

  lemma SectionShowsEnd(y: Joint, op: SessionRuns.Op, r: LaneRef, laneID: nat, id: nat)
    requires JointInv(y, r, laneID) && !PollsLane(y.s, op, r) && y.s.panic.None? && MayUse(r, laneID, id)
    requires EndShown(y, r, laneID, id) || RelayEnds(y.s, op, id)
    requires id !in JointStep(y, DownlinkRuns.Elsewhere(op), r, laneID).s.streams
    ensures EndShown(JointStep(y, DownlinkRuns.Elsewhere(op), r, laneID), r, laneID, id)
  {
    hide JointInv, JointStep, Runs.Dropped, FeedsLane, PollsLane, MayUse, MarksBy, Trace, EndsInClose;
    var z := JointStep(y, DownlinkRuns.Elsewhere(op), r, laneID);
    if z.s.panic.None? && !Runs.Dropped(z.x) {
      SectionPushes(y, op, r, laneID, id);
      MarksByClose(y.s, op, id);
      if FeedsLane(y.s, op, r) {
        FedEndsNothing(y.s, op, r, id);
        FedIsLive(y.s, op, r, id);
        AfterClose(Trace(y.x.pushed, id), TraceOf(FedFrame(op), id));
      } else {
        if op.OpBackendClosed? && op.id == id && EndsOwn(y.s, id, op.backend) {
          EndLeavesMark(y, z, op, r, laneID, id);
        }
        AfterClose(Trace(y.x.pushed, id), MarksBy(y.s, op, id));
      }
    }
  }

  lemma FedEndsNothing(s: State, op: SessionRuns.Op, r: LaneRef, id: nat)
    requires FeedsLane(s, op, r)
    ensures !RelayEnds(s, op, id) && (op.OpBackendData? || op.OpDrained?)
  {
    hide BackendData, Drained;
  }

  lemma EndLeavesMark(y: Joint, z: Joint, op: SessionRuns.Op, r: LaneRef, laneID: nat, id: nat)
    requires JointInv(y, r, laneID) && !PollsLane(y.s, op, r) && y.s.panic.None? && MayUse(r, laneID, id)
    requires z == JointStep(y, DownlinkRuns.Elsewhere(op), r, laneID) && z.s.panic.None? && !Runs.Dropped(z.x)
    requires !Runs.Dropped(y.x) && op.OpBackendClosed? && op.id == id && EndsOwn(y.s, id, op.backend)
    ensures MarksBy(y.s, op, id) == [CLOSE_MARK]
  {
    hide InvWith, Follows, Runs.RunInv, Runs.Dropped, MayUse, MarksBy, SessionRuns.Step, FeedsLane, Outside, TakenBy,
      Runs.Step, BytesInv, CreditInv, EndsOwn, PollsLane;
    ElsewhereKeepsInv(y, op, r, laneID);
    ServesUnlessDropped(y.x, y.s, r, laneID, id);
    ServesUnlessDropped(z.x, z.s, r, laneID, id);
    BackendAppends(y.s, op, r, id);
  }

  lemma {:induction false} EndedShowsClose(j: Joint, events: seq<JointEvent>, r: LaneRef, laneID: nat, id: nat)
    requires JustMade(j, r, laneID) && MayUse(r, laneID, id) && Ended(j, events, r, laneID, id)
    ensures EndShown(JointRun(j, events, r, laneID), r, laneID, id)
    decreases |events|
  {
    hide JustMade, JointStep, EndShown, RelayEnds, MayUse, JointInv, PollsLane;
    var past, e := events[..|events| - 1], events[|events| - 1];
    var y := JointRun(j, past, r, laneID);
    JointUnfolds(j, events, r, laneID);
    JointReachable(j, past, r, laneID);
    if !e.Elsewhere? || PollsLane(y.s, e.op, r) || y.s.panic.Some? {
      EndedShowsClose(j, past, r, laneID, id);
      QuietShowsEnd(y, e, r, laneID, id);
    } else {
      if Ended(j, past, r, laneID, id) {
        EndedShowsClose(j, past, r, laneID, id);
      }
      SectionShowsEnd(y, e.op, r, laneID, id);
    }
  }

  /** The polls of the lane, the network and the client push nothing. */
  lemma QuietShowsEnd(y: Joint, e: JointEvent, r: LaneRef, laneID: nat, id: nat)
    requires JointInv(y, r, laneID) && EndShown(y, r, laneID, id)
    requires !e.Elsewhere? || PollsLane(y.s, e.op, r) || y.s.panic.Some?
    ensures EndShown(JointStep(y, e, r, laneID), r, laneID, id)
  {
    hide InvWith, Follows, Runs.RunInv, Runs.Step, SessionRuns.Step, Outside, BytesInv, CreditInv, Trace, EndsInClose,
      FeedsLane, TakenBy, OnlyEnds, Runs.Dropped;
    if !e.Elsewhere? && y.s.panic.None? {
      QuietStep(y.x, e.event, ConfigOf(y.s));
      if e.PollSection? && PollsLane(y.s, e.op, r) && Matches(y.x, e.op, e.event, r, laneID) {
        PollEndsNone(y.s, e.op, r, id);
        MatchesNoPush(y.x, e.op, e.event, r, laneID);
      }
    }
  }

  lemma QuietStep(x: Runs.Run, e: Runs.Event, c: Runs.Config)
    requires Runs.RunInv(x)
    ensures !e.FramePushed? ==> Runs.Step(x, e, c).pushed == x.pushed
    ensures Runs.Dropped(x) ==> Runs.Dropped(Runs.Step(x, e, c))
  {
    PushedByStep(x, e, c);
    OutsideStep(x, e, c);
  }

  lemma MatchesNoPush(x: Runs.Run, op: SessionRuns.Op, e: Runs.Event, r: LaneRef, laneID: nat)
    requires Matches(x, op, e, r, laneID)
    ensures !e.FramePushed?
  {
  }

  lemma PollEndsNone(s: State, op: SessionRuns.Op, r: LaneRef, id: nat)
    requires PollsLane(s, op, r) && s.panic.None? && id !in s.streams
    ensures id !in SessionRuns.Step(s, op).streams
  {
    hide SessionRuns.Step, PollLaneOf;
    Flow.PollEnds(s, op);
  }

  /** Over every run of every session: once the relay has ended a stream, because its backend did or its
      OPEN was refused, and until the id is opened again or the lane dropped, the last that the client has
      or that is still kept for it of that stream is a CLOSE. */
  lemma EndReachesClient(j: Joint, events: seq<JointEvent>, r: LaneRef, laneID: nat, id: nat)
    requires JustMade(j, r, laneID) && MayUse(r, laneID, id) && Ended(j, events, r, laneID, id)
    ensures var y := JointRun(j, events, r, laneID);
      y.s.panic.None? && !Runs.Dropped(y.x) ==>
        EndsInClose(Trace(Runs.AllFrames(y.x.received) + Runs.Outstanding(y.x), id))
  {
    hide JustMade, Ended, MayUse, Runs.RunInv, Runs.Dropped, InvWith, Follows, BytesInv, CreditInv, Runs.AllFrames,
      Runs.Outstanding, Trace, EndsInClose;
    EndedShowsClose(j, events, r, laneID, id);
    JointReachable(j, events, r, laneID);
    var y := JointRun(j, events, r, laneID);
    if y.s.panic.None? && !Runs.Dropped(y.x) {
      Runs.HeldIsReceivedAndOutstanding(y.x, id);
    }
  }
}
