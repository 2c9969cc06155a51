/** The stop-and-wait uplink, from the bridge's sending loop (`runUp` and `runLaneUp` in
    `internal/bridge/page.go`) to the relay's `ProcessUp` and `ProcessUpLane`
    (`internal/session/session.go`), over a network that delays, repeats and loses requests and
    replies, with everything else the session does going on in between.

    `ProcessUp` checks the sequence number in one critical section, parses the body without the lock,
    and applies it in a second one; `upActive` is what keeps other requests out in between. */
module Uplink {
  import opened Options
  import opened Frames
  import opened Charges
  import opened Budget
  import opened Lanes
  import opened DownQueue
  import opened Tombstones
  import opened SessionState
  import opened SessionInv
  import opened SessionSteps
  import opened Application
  import opened Validation
  import opened LaneLink
  import opened Isolation
  import opened LaneRegister
  import SessionRuns

  // ----------------------------------------- sequence numbers and the rest of the session

  predicate IsUplink(op: SessionRuns.Op) { op.OpUpBegin? || op.OpUpFinish? || op.OpUpLane? }

  lemma GatesOfQueue(s: State, f: Frame, granted: bool, cost: int, items: int)
    requires InvWith(s, cost, items) && Queueable(s, f)
    ensures GatesKept(s, QueueFrame(s, f, granted).0)
  {
    hide InvWith, QueueFrame, GatesKept;
    QueueSpares(s, f, granted, cost, items);
  }

  lemma GatesOfDrop(s: State, laneID: nat, cost: int, items: int)
    requires InvWith(s, cost, items) && laneID !in s.streams
    ensures GatesKept(s, DropLane(s, laneID))
  {
    hide InvWith, DropLane;
    DropLaneShape(s, laneID, cost, items);
  }

  /** A lane released loses its socket; every other lane keeps all. */
  lemma GatesOfRelease(s: State, laneID: nat)
    requires Inv(s)
    ensures UplinksKept(s, ReleaseWebSocketLane(s, laneID))
    ensures SocketsKeptBut(s, ReleaseWebSocketLane(s, laneID), laneID)
  {
    hide InvWith, DropLane, DropStream, RememberClosed, Evicted, Remember;
    if s.carrier == WebSocketLanes && laneID in s.carrierLanes {
      var r := s.carrierLanes[laneID];
      SessionRuns.RegisteredInLanes(s, laneID);
      SessionRuns.ActivateKeepsInv(s, r, false);
      var inactive := WithLane(s, r, s.lanes[r].(websocketActive := false));
      assert UplinksKept(s, inactive) && SocketsKeptBut(s, inactive, laneID);
      hide GatesKept, UplinksKept, SocketsKeptBut;
      if laneID in s.streams {
        var ended := RememberClosed(DropStream(inactive, laneID), laneID);
        DropStreamKeepsInv(inactive, laneID, 0, 0);
        RememberKeepsInv(DropStream(inactive, laneID), laneID, 0, 0);
        RememberShape(DropStream(inactive, laneID), laneID, 0, 0);
        EndStreamSpares(inactive, laneID, 0, 0);
        UplinksThen(s, inactive, ended, laneID);
        GatesOfDrop(ended, laneID, 0, 0);
        UplinksThen(s, ended, DropLane(ended, laneID), laneID);
      } else {
        GatesOfDrop(inactive, laneID, 0, 0);
        UplinksThen(s, inactive, DropLane(inactive, laneID), laneID);
      }
    }
  }

  /** Every lane but that of the id keeps its socket. */
  predicate SocketsKeptBut(s: State, t: State, laneID: nat) {
    forall r :: r in s.lanes && !RegisteredAs(s, laneID, r) ==>
      r in t.lanes && t.lanes[r].websocketActive == s.lanes[r].websocketActive
  }

  lemma UplinksThen(s: State, t: State, u: State, laneID: nat)
    requires UplinksKept(s, t) && SocketsKeptBut(s, t, laneID) && GatesKept(t, u)
    ensures UplinksKept(s, u) && SocketsKeptBut(s, u, laneID)
  {
  }

  lemma GatesOfClose(s: State)
    ensures GatesKept(s, CloseSession(s))
  {
  }

  lemma GatesOfAcquire(s: State, laneID: nat)
    requires Inv(s)
    ensures UplinksKept(s, AcquireWebSocket(s).0) && UplinksKept(s, AcquireWebSocketLane(s, laneID).0)
    ensures SocketsStay(s, AcquireWebSocket(s).0) && SocketsStay(s, AcquireWebSocketLane(s, laneID).0)
  {
    hide StreamsInv, LaneInv, Placement, Register, Accounts;
  }

  predicate SocketsStay(s: State, t: State) {
    forall r :: r in s.lanes && s.lanes[r].websocketActive ==> r in t.lanes && t.lanes[r].websocketActive
  }

  lemma GatesOfBackend(s: State, op: SessionRuns.Op)
    requires Inv(s) && s.panic.None?
        && (op.OpNextWrite? || op.OpDrained? || op.OpWriteFinished? || op.OpBackendData? || op.OpBackendClosed?)
    ensures GatesKept(s, SessionRuns.Step(s, op))
  {
    hide InvWith, QueueFrame, Release, DropStream, RememberClosed, CloseSession, GatesKept;
    LanesSameGates(s);
    if !s.closed && op.id in s.streams {
      var id := op.id;
      var st := s.streams[id];
      InvStream(s, id, 0, 0);
      match op
      case OpNextWrite(_) => GatesSame(s, SessionRuns.Step(s, op));
      case OpDrained(_, amount, granted) => GatesOfDrained(s, id, amount, granted);
      case OpWriteFinished(_) =>
        ReleaseShape(WithStream(s, id, st.(pendingWriteItems := st.pendingWriteItems - 1,
                pendingWriteCost := st.pendingWriteCost - QUEUE_ITEM_COST)), QUEUE_ITEM_COST, 1);
        GatesSame(s, SessionRuns.Step(s, op));
      case OpBackendData(_, data, granted) =>
        if 0 < |data| <= DATA_CHUNK && |data| <= st.sendCredit {
          var t := WithStream(s, id, st.(sendCredit := st.sendCredit - |data|));
          SessionRuns.StreamTouchKeepsInv(s, id, st.(sendCredit := st.sendCredit - |data|));
          SessionRuns.LiveIsQueueable(t, Frame(DATA, id, data));
          GatesSame(s, t);
          GatesOfQueue(t, Frame(DATA, id, data), granted, 0, 0);
          GatesThen(s, t, QueueFrame(t, Frame(DATA, id, data), granted).0);
        }
      case OpBackendClosed(_, backend, granted) => GatesOfBackendClosed(s, id, backend, granted);
    }
  }

  lemma LanesSameGates(s: State)
    ensures GatesKept(s, s)
  {
  }

  lemma GatesSame(s: State, t: State)
    requires t.lanes == s.lanes && t.carrier == s.carrier
    ensures GatesKept(s, t)
  {
  }

  lemma GatesOfDrained(s: State, id: nat, amount: int, granted: bool)
    requires Inv(s) && !s.closed && id in s.streams
    ensures GatesKept(s, Drained(s, id, amount, granted).0)
  {
    hide InvWith, QueueFrame, Release, GatesKept;
    LanesSameGates(s);
    var st := s.streams[id];
    InvStream(s, id, 0, 0);
    if !(amount <= 0 || amount > st.pendingWriteBytes || amount > st.pendingWriteCost
         || st.receiveWindow + amount > INITIAL_STREAM_WINDOW) {
      var drained :=
        st.(pendingWriteBytes := st.pendingWriteBytes - amount, pendingWriteCost := st.pendingWriteCost - amount,
                         receiveWindow := st.receiveWindow + amount);
      SessionRuns.StreamShrinkKeepsInv(s, id, drained, amount, 0);
      var t := Release(WithStream(s, id, drained), amount, 0);
      var f := Frame(WINDOW, id, WindowPayload(amount));
      GatesSame(s, t);
      SessionRuns.LiveIsQueueable(t, f);
      GatesOfQueue(t, f, granted, 0, 0);
      GatesThen(s, t, QueueFrame(t, f, granted).0);
    }
  }

  lemma GatesOfBackendClosed(s: State, id: nat, backend: nat, granted: bool)
    requires Inv(s) && !s.closed && id in s.streams
    ensures GatesKept(s, BackendClosed(s, id, backend, granted))
  {
    hide InvWith, QueueFrame, DropStream, RememberClosed, CloseSession, GatesKept;
    LanesSameGates(s);
    if s.streams[id].backend == backend {
      InvStream(s, id, 0, 0);
      var dropped := DropStream(s, id);
      DropStreamKeepsInv(s, id, 0, 0);
      DropStreamSpares(s, id, 0, 0);
      RefuseSpares(dropped, id, granted, 0, 0);
      var queued := QueueFrame(RememberClosed(dropped, id), Frame(CLOSE, id, []), granted).0;
      GatesThen(s, dropped, queued);
      GatesOfClose(queued);
      GatesThen(s, queued, CloseSession(queued));
    }
  }

  lemma GateOfLoop(l: Lane, me: nat, cursor: nat, batchLimit: int, c: Condition)
    ensures SameGate(Loop(l, me, cursor, batchLimit, c).lane, l)
    ensures SameGate(AfterToken(l, me, cursor, batchLimit, c).lane, l)
    ensures SameGate(Deadline(l, me, cursor, batchLimit, c).lane, l)
    ensures SameGate(Quit(l, me), l)
  {
    hide TakeBatch, AfterBatch;
  }

  lemma GatesOfWithLane(s: State, r: LaneRef, l: Lane)
    requires SameGate(l, LaneAt(s, r))
    ensures GatesKept(s, WithLane(s, r, l))
  {
  }

  lemma GatesOfPolls(s: State, op: SessionRuns.Op)
    requires s.panic.None?
    requires op.OpPollWoken? || op.OpPollDeadline? || op.OpPollQuits? || op.OpPollDisplaced? || op.OpPollTakesToken?
    ensures GatesKept(s, SessionRuns.Step(s, op))
  {
    hide AfterToken, Deadline, Quit, ConditionOf, SameGate, GatesKept;
    LanesSameGates(s);
    match op {
      case OpPollWoken(r, laneID, me, cursor) =>
        GateOfLoop(LaneAt(s, r), me, cursor, s.limits.carrierBatchBytes, ConditionOf(s, r, laneID));
        GatesOfWithLane(s, r,
            AfterToken(LaneAt(s, r), me, cursor, s.limits.carrierBatchBytes, ConditionOf(s, r, laneID)).lane);
      case OpPollDeadline(r, laneID, me, cursor) =>
        GateOfLoop(LaneAt(s, r), me, cursor, s.limits.carrierBatchBytes, ConditionOf(s, r, laneID));
        GatesOfWithLane(s, r,
            Deadline(LaneAt(s, r), me, cursor, s.limits.carrierBatchBytes, ConditionOf(s, r, laneID)).lane);
      case OpPollQuits(r, me) =>
        GateOfLoop(LaneAt(s, r), me, 0, 0, Condition(false, false, false));
        GatesOfWithLane(s, r, Quit(LaneAt(s, r), me));
      case OpPollDisplaced(r) => SignalGate(LaneAt(s, r)); GatesOfWithLane(s, r, Signal(LaneAt(s, r)));
      case OpPollTakesToken(r) => SignalGate(LaneAt(s, r)); GatesOfWithLane(s, r, LaneAt(s, r).(notify := false));
    }
  }

  lemma SameGateItself(s: State)
    ensures forall r :: r in s.lanes ==> SameGate(s.lanes[r], s.lanes[r])
  {
  }

  lemma SignalGate(l: Lane)
    ensures SameGate(Signal(l), l) && SameGate(l.(notify := false), l)
  {
  }

  lemma GateOfEntry(l: Lane, cursor: nat, me: nat)
    requires Present(l, cursor).Accepted?
    ensures SameGate(TakeOver(Present(l, cursor).lane, me), l)
  {
  }

  lemma GatesOfEnter(s: State, laneID: nat, me: nat, cursor: nat)
    ensures GatesKept(s, PollEnter(s, laneID, me, cursor).0)
  {
    hide Present, Loop, TakeOver, ConditionOf, SameGate, Release;
    SameGateItself(s);
    if !s.closed && PollLaneOf(s, laneID).Some? {
      var r := PollLaneOf(s, laneID).value;
      var l := LaneAt(s, r);
      if Present(l, cursor).Accepted? {
        var p := Present(l, cursor);
        ReleaseShape(s, p.cost, p.items);
        GateOfEntry(l, cursor, me);
        GateOfLoop(TakeOver(p.lane, me), me, cursor, s.limits.carrierBatchBytes,
            ConditionOf(Release(s, p.cost, p.items), r, laneID));
        SameGateThen(Loop(TakeOver(p.lane, me), me, cursor, s.limits.carrierBatchBytes,
            ConditionOf(Release(s, p.cost, p.items), r, laneID)).lane, TakeOver(p.lane, me), l);
      }
    }
  }

  lemma SameGateThen(a: Lane, b: Lane, c: Lane)
    requires SameGate(a, b) && SameGate(b, c)
    ensures SameGate(a, c)
  {
  }

  /** Only uplink requests touch sequence numbers, and only sockets that come or go touch sockets. */
  lemma OthersKeepGates(s: State, op: SessionRuns.Op)
    requires Inv(s) && s.panic.None? && !IsUplink(op)
    ensures UplinksKept(s, SessionRuns.Step(s, op))
    ensures if op.OpReleaseLane? || op.OpFailure? then SocketsKeptBut(s, SessionRuns.Step(s, op), op.laneID)
            else SocketsStay(s, SessionRuns.Step(s, op))
  {
    GatesAreUplinks(s, SessionRuns.Step(s, op));
    hide InvWith, GatesKept, UplinksKept, SocketsKeptBut, SocketsStay, LaneFailure, CloseSession, AcquireWebSocket,
        AcquireWebSocketLane, ReleaseWebSocketLane,
      BackendClosed,
      PollEnter, PollWoken, PollDeadline, PollQuits, PollDisplaced, PollTakesToken, NextWrite, Drained, WriteFinished,
          BackendData;
    LanesSameGates(s);
    match op {
      case OpFailure(laneID) => GatesOfFailure(s, laneID);
      case OpClose => GatesOfClose(s);
      case OpAcquireWebSocket => GatesOfAcquire(s, 0);
      case OpAcquireLane(laneID) => GatesOfAcquire(s, laneID);
      case OpReleaseLane(laneID) => GatesOfRelease(s, laneID);
      case OpPollEnter(laneID, me, cursor) => GatesOfEnter(s, laneID, me, cursor);
      case _ =>
        if op.OpNextWrite? || op.OpDrained? || op.OpWriteFinished? || op.OpBackendData? || op.OpBackendClosed? {
          GatesOfBackend(s, op);
        } else {
          GatesOfPolls(s, op);
        }
    }
  }

  lemma GatesAreUplinks(s: State, t: State)
    ensures GatesKept(s, t) ==> UplinksKept(s, t) && SocketsStay(s, t) && forall id :: SocketsKeptBut(s, t, id)
  {
  }

  lemma GatesOfFailure(s: State, laneID: nat)
    requires Inv(s)
    ensures UplinksKept(s, LaneFailure(s, laneID)) && SocketsKeptBut(s, LaneFailure(s, laneID), laneID)
  {
    GatesAreUplinks(s, CloseSession(s));
    hide InvWith, GatesKept, CloseSession, ReleaseWebSocketLane, UplinksKept, SocketsKeptBut;
    GatesOfRelease(s, laneID);
    GatesOfClose(s);
  }

  // ------------------------------------------------------------------- the whole uplink

  datatype Request = Request(sequence: nat, body: Bytes)

  /** JavaScript's largest exact integer: the bridge's counter. */
  const MAX_SAFE_INTEGER := 0x1F_FFFF_FFFF_FFFF

  /** One lane of a session, its bridge and the network between them; `r` is the lane object at the start.
      `committed` is the history of the batches the relay has applied and committed on this lane, `order`
      the sequence numbers it took them under; `sent` that of the bodies the bridge has taken from its
      queue, of which it knows the first `acked` to be acknowledged; `holder` is the request between the
      two sections of `ProcessUp`. `others` counts the ids remembered as closed after the lane's own, and
      `strayed` is set by a request that a forgotten lane takes for another. */
  datatype UpRun = UpRun(
    s: State, r: LaneRef, laneID: nat, holder: Option<Request>, committed: seq<Bytes>, order: seq<nat>,
    sent: seq<Bytes>, acked: nat, requests: set<Request>, acks: set<nat>, others: nat, strayed: bool)

  /** Nothing has been sent. */
  function Unused(s: State, r: LaneRef, laneID: nat): UpRun {
    UpRun(s, r, laneID, None, [], [], [], 0, {}, {}, 0, false)
  }

  datatype UpEvent =
    | Elsewhere(op: SessionRuns.Op)
    | BridgeTakes(body: Bytes)
    | BridgeRetries
    | RequestArrives(request: Request, answers: Answers)
    | HolderFinishes(answers: Answers)
    | AckArrives(sequence: nat)

  /** The section is an uplink request for this lane. */
  predicate OnThisLane(x: UpRun, op: SessionRuns.Op) {
    if UsesLanes(x.s) then op.OpUpLane? && op.laneID == x.laneID else op.OpUpBegin? || op.OpUpFinish?
  }

  /** The session moves on. */
  function Moved(x: UpRun, t: State): UpRun { x.(s := t, others := x.others + Younger(x.s, t, x.laneID)) }

  /** What a finished request leaves in the history and sends back. */
  function Answered(x: UpRun, t: State, o: UpOutcome, q: Request): UpRun {
    Moved(x, t).(
      committed := if o == Applied then x.committed + [q.body] else x.committed,
      order := if o == Applied then x.order + [q.sequence] else x.order,
      acks := if o == Applied || o == Acked then x.acks + {q.sequence} else x.acks)
  }

  /** A body that is acknowledged as late, with no lane to apply it on. */
  predicate LateBody(s: State, laneID: nat, body: Bytes) {
    && UsesLanes(s) && !s.closed && 0 < laneID <= MAX_STREAM_ID && laneID !in s.carrierLanes
    && ClientFrames(s, body, Some(laneID)).Some? && OnlyLateFrames(ClientFrames(s, body, Some(laneID)).value)
  }

  /** The relay has no lane object of the id, or one that knows nothing of what was committed before. */
  predicate Forgotten(x: UpRun) {
    && UsesLanes(x.s)
    && (x.laneID in x.s.carrierLanes ==> LaneAt(x.s, x.s.carrierLanes[x.laneID]).lastUpSequence != |x.committed|)
  }

  /** A request that goes wrong because the lane is forgotten: the next body, acknowledged as late, or the
      first one, applied again on a new lane. */
  predicate Strays(x: UpRun, q: Request, a: Answers) {
    && Forgotten(x)
    && (|| (|x.committed| < q.sequence && LateBody(x.s, x.laneID, q.body))
        || (x.committed != [] && UpLane(x.s, x.laneID, q.sequence, q.body, a).1 == Applied))
  }

  /** A request arrives at the relay. */
  function Arrives(x: UpRun, q: Request, a: Answers): UpRun {
    if UsesLanes(x.s) then
      var (t, o) := UpLane(x.s, x.laneID, q.sequence, q.body, a);
      Answered(x, t, o, q).(strayed := x.strayed || Strays(x, q, a))
    else
      var (t, o) := UpBegin(x.s, q.sequence, q.body);
      Answered(x, t, o, q).(holder := if o == Begun then Some(q) else x.holder)
  }

  /** An event changes the run if it is possible in it, and otherwise nothing. */
  function UpStep(x: UpRun, e: UpEvent): UpRun {
    match e
    case Elsewhere(op) => if OnThisLane(x, op) then x else Moved(x, SessionRuns.Step(x.s, op))
    case BridgeTakes(body) =>
      if x.acked == |x.sent| && |x.sent| < MAX_SAFE_INTEGER
      then x.(sent := x.sent + [body], requests := x.requests + {Request(|x.sent| + 1, body)}) else x
    case BridgeRetries =>
      if x.acked < |x.sent| then x.(requests := x.requests + {Request(|x.sent|, x.sent[|x.sent| - 1])}) else x
    case RequestArrives(q, a) => if q in x.requests && x.s.panic.None? then Arrives(x, q, a) else x
    case HolderFinishes(a) =>
      if x.holder.None? || x.s.panic.Some? then x
      else
        var q := x.holder.value;
        var (t, o) := UpFinish(x.s, q.sequence, q.body, a);
        Answered(x, t, o, q).(holder := None)
    case AckArrives(n) => if n in x.acks && n == |x.sent| && x.acked < n then x.(acked := n) else x
  }

  /** The run, event by event. It is in three parts so that proofs look at a step only where they ask to,
      by `UpRunUnfolds`. */
  function UpRunFrom(x: UpRun, events: seq<UpEvent>): UpRun
    decreases |events|, 2
  {
    UpRunEvents(x, events)
  }

  function UpRunEvents(x: UpRun, events: seq<UpEvent>): UpRun
    decreases |events|, 1
  {
    if events == [] then x else UpRunLastEvent(x, events)
  }

  function UpRunLastEvent(x: UpRun, events: seq<UpEvent>): UpRun
    requires events != []
    decreases |events|, 0
  {
    UpStep(UpRunFrom(x, events[..|events| - 1]), events[|events| - 1])
  }

  lemma UpRunUnfolds(x: UpRun, events: seq<UpEvent>)
    ensures events == [] ==> UpRunFrom(x, events) == x
    ensures events != [] ==> UpRunFrom(x, events) == UpStep(UpRunFrom(x, events[..|events| - 1]), events[|events| - 1])
  {
    hide UpStep;
    assert UpRunFrom(x, events) == UpRunEvents(x, events);
    if events != [] {
      assert UpRunEvents(x, events) == UpRunLastEvent(x, events);
    }
  }

  /** The run starts with a lane that has committed nothing. */
  ghost predicate Fresh(x: UpRun) {
    && x == Unused(x.s, x.r, x.laneID) && SessionPart(x) && PollLaneOf(x.s, x.laneID) == Some(x.r)
    && x.s.lanes[x.r].lastUpSequence == 0 && !x.s.lanes[x.r].upActive
  }

  /** The session is in order; if `r` is registered at all, then as the lane of `laneID`. */
  ghost predicate SessionPart(x: UpRun) {
    && (x.s.panic.None? ==> Inv(x.s))
    && Owns(x.s, x.r, x.laneID) && (x.r == MAIN <==> !UsesLanes(x.s))
    && (UsesLanes(x.s) ==> x.holder.None?) && (x.strayed ==> UsesLanes(x.s))
  }

  /** The lane object counts what has been committed, or is a new one in the place of `r`. */
  predicate Counts(x: UpRun, r: LaneRef, gate: Lane) {
    || (&& gate.lastUpSequence == |x.committed|
        && (x.committed != [] ==> gate.lastUpDigest == Sha256(x.committed[|x.committed| - 1])))
    || (gate.lastUpSequence == 0 && r != x.r)
  }

  /** The lane object the relay has, if it has one, counts the committed bodies; and whoever holds the
      uplink holds the next one. */
  predicate GatePart(x: UpRun) {
    var lane := PollLaneOf(x.s, x.laneID);
    && (lane.Some? ==>
          && lane.value in x.s.lanes && Counts(x, lane.value, x.s.lanes[lane.value])
          && (x.s.lanes[lane.value].upActive <==> x.holder.Some?))
    && (x.holder.Some? ==> x.holder.value in x.requests && x.holder.value.sequence == |x.committed| + 1)
  }

  predicate BridgePart(x: UpRun) {
    && x.acked <= |x.committed| <= |x.sent| <= x.acked + 1 && |x.sent| <= MAX_SAFE_INTEGER
    && x.committed == x.sent[..|x.committed|]
    && |x.order| == |x.committed| && (forall i :: 0 <= i < |x.order| ==> x.order[i] == i + 1)
    && (forall q :: q in x.requests ==> 1 <= q.sequence <= |x.sent| && x.sent[q.sequence - 1] == q.body)
    && (forall n :: n in x.acks ==> 1 <= n <= |x.committed|)
  }

  /** What holds until a request strays, and of the session also after that. */
  ghost predicate UpInv(x: UpRun) {
    SessionPart(x) && (!x.strayed ==> GatePart(x) && BridgePart(x))
  }

  // ------------------------------------------------------------------- it holds throughout

  /** A lane object stays the one it was created as. */
  lemma OwnsKept(s: State, op: SessionRuns.Op, r: LaneRef, laneID: nat)
    requires Inv(s) && s.panic.None? && Owns(s, r, laneID)
    ensures Owns(SessionRuns.Step(s, op), r, laneID)
  {
    hide InvWith, Tracked, SessionRuns.Step, ConditionOf, Owns, PollsLane, FeedsLane, Runs.Step;
    if PollsLane(s, op, r) {
      OwnsInPoll(s, op, r, laneID);
    } else if FeedsLane(s, op, r) {
      OwnsMeans(s, r, laneID);
      var x := Runs.Run(s.lanes[r], ConditionOf(s, r, laneID), map[], 0, [], [], {}, {}, 0, []);
      assert Follows(x, s, r, laneID);
      FeedingIsPush(x, s, op, r, laneID);
    } else {
      SectionIsLaneEvents(s, op, r, laneID);
      TrackedKeepsOwner(s, SessionRuns.Step(s, op), r, laneID);
    }
  }

  lemma TrackedKeepsOwner(s: State, t: State, r: LaneRef, laneID: nat)
    requires Tracked(s, t, r, laneID) && Owns(s, r, laneID)
    ensures Owns(t, r, laneID)
  {
    hide ConditionOf, Owns;
    OwnsMeans(s, r, laneID);
    var x := Runs.Run(s.lanes[r], ConditionOf(s, r, laneID), map[], 0, [], [], {}, {}, 0, []);
    assert Follows(x, s, r, laneID);
    assert Reaches(x, t, r, laneID);
  }

  lemma OwnsMeans(s: State, r: LaneRef, laneID: nat)
    requires Owns(s, r, laneID)
    ensures r in s.lanes
  {
  }

  lemma OwnsInPoll(s: State, op: SessionRuns.Op, r: LaneRef, laneID: nat)
    requires s.panic.None? && Owns(s, r, laneID) && PollsLane(s, op, r)
    ensures Owns(SessionRuns.Step(s, op), r, laneID)
  {
    hide AfterToken, Deadline, Quit, ConditionOf, Signal;
    if op.OpPollEnter? {
      EnterOwns(s, op.laneID, op.me, op.cursor, r, laneID);
    }
  }

  lemma EnterOwns(s: State, polled: nat, me: nat, cursor: nat, r: LaneRef, laneID: nat)
    requires Owns(s, r, laneID)
    ensures Owns(PollEnter(s, polled, me, cursor).0, r, laneID)
  {
    hide Loop, TakeOver, ConditionOf, Present;
  }

  // ------------------------------------------------------------------- step by step

  /** The lane's uplink state after a section. */
  predicate GateIs(l: Lane, sequence: nat, digest: Digest, active: bool) {
    l.lastUpSequence == sequence && l.lastUpDigest == digest && l.upActive == active
  }

  lemma UpLaneElsewhere(s: State, bodyLane: nat, sequence: nat, body: Bytes, a: Answers, r: LaneRef, laneID: nat)
    requires Inv(s) && Owns(s, r, laneID) && bodyLane != laneID && r != MAIN
    ensures var t := UpLane(s, bodyLane, sequence, body, a).0;
      t.carrier == s.carrier && r in t.lanes && SameGate(t.lanes[r], s.lanes[r])
  {
    hide InvWith, UpOnLane, ClientFrames, OnWire, OnlyLateFrames, AddLane, Spares;
    if UsesLanes(s) && bodyLane <= MAX_STREAM_ID && ClientFrames(s, body, Some(bodyLane)).Some? && !s.closed {
      var frames := ClientFrames(s, body, Some(bodyLane)).value;
      SessionRuns.ClientFramesOnWire(s, body, Some(bodyLane));
      var before := if bodyLane in s.carrierLanes then s else AddLane(s, bodyLane);
      LanesSameGates(s);
      if bodyLane !in s.carrierLanes {
        AddLaneKeepsInv(s, bodyLane, 0, 0);
        AddLaneSpares(s, bodyLane);
        SessionRuns.AddedLane(s, bodyLane);
        NextLaneIsNew(s);
      }
      UpOnLaneSpares(before, bodyLane, sequence, body, frames, a);
      assert before.carrierLanes[bodyLane] != r;
    }
  }

  lemma NextLaneIsNew(s: State)
    requires Inv(s)
    ensures s.nextLane !in s.lanes
  {
    hide StreamsInv, LaneInv, Placement, Register, Accounts;
  }

  /** What happens elsewhere leaves this lane's sequence number alone. */
  lemma ElsewhereKeepsGate(x: UpRun, op: SessionRuns.Op, r: LaneRef)
    requires SessionPart(x) && x.s.panic.None? && !OnThisLane(x, op)
    requires Owns(x.s, r, x.laneID) && (r == MAIN <==> !UsesLanes(x.s))
    ensures var t := SessionRuns.Step(x.s, op);
      t.carrier == x.s.carrier && r in t.lanes && r in x.s.lanes && SameUplink(t.lanes[r], x.s.lanes[r])
  {
    hide InvWith, UpLane;
    OwnsMeans(x.s, r, x.laneID);
    if !IsUplink(op) {
      hide Owns, SessionRuns.Step;
      OthersKeepGates(x.s, op);
    } else if op.OpUpLane? {
      if UsesLanes(x.s) {
        UpLaneElsewhere(x.s, op.laneID, op.sequence, op.body, op.answers, r, x.laneID);
      } else {
        UpLaneRefused(x.s, op.laneID, op.sequence, op.body, op.answers);
      }
    }
  }

  lemma UpLaneRefused(s: State, laneID: nat, sequence: nat, body: Bytes, a: Answers)
    requires !UsesLanes(s)
    ensures UpLane(s, laneID, sequence, body, a).0 == s
  {
    hide ClientFrames, UpOnLane;
  }

  /** A lane registered by a WebSocket starts anew. */
  lemma AcquiredGate(s: State, laneID: nat)
    requires Inv(s) && laneID !in s.carrierLanes && laneID in AcquireWebSocketLane(s, laneID).0.carrierLanes
    ensures var t := AcquireWebSocketLane(s, laneID).0;
      s.nextLane in t.lanes && t.lanes[s.nextLane].lastUpSequence == 0 && !t.lanes[s.nextLane].upActive
  {
    hide InvWith;
  }

  lemma RegisteredOwns(s: State, laneID: nat)
    requires Inv(s) && UsesLanes(s) && laneID in s.carrierLanes
    ensures Owns(s, s.carrierLanes[laneID], laneID) && s.carrierLanes[laneID] != MAIN
  {
    hide InvWith;
    RegisterInjective(s, 0, 0);
  }

  lemma ElsewhereKeepsGates(x: UpRun, op: SessionRuns.Op)
    requires UpInv(x) && !x.strayed && x.s.panic.None? && !OnThisLane(x, op)
    ensures GatePart(Moved(x, SessionRuns.Step(x.s, op)))
  {
    hide InvWith, SessionRuns.Step, Owns, SessionPart, BridgePart;
    var t := SessionRuns.Step(x.s, op);
    SessionMeans(x);
    ElsewhereKeepsGate(x, op, x.r);
    if UsesLanes(x.s) {
      RegisteredBefore(x.s, op, x.laneID);
      if x.laneID in t.carrierLanes {
        if x.laneID in x.s.carrierLanes {
          RegisteredOwns(x.s, x.laneID);
          ElsewhereKeepsGate(x, op, x.s.carrierLanes[x.laneID]);
        } else {
          OnlyAcquires(x, op);
          AcquiredGate(x.s, x.laneID);
          NextLaneIsNew(x.s);
        }
      }
    }
  }

  lemma SessionMeans(x: UpRun)
    requires SessionPart(x)
    ensures x.s.panic.None? ==> Inv(x.s)
    ensures Owns(x.s, x.r, x.laneID) && x.r in x.s.lanes && (x.r == MAIN <==> !UsesLanes(x.s))
    ensures UsesLanes(x.s) ==> x.holder.None?
  {
    hide InvWith;
  }

  lemma OnlyAcquires(x: UpRun, op: SessionRuns.Op)
    requires UsesLanes(x.s) && !OnThisLane(x, op) && Registers(op) && op.laneID == x.laneID && x.s.panic.None?
    ensures op == SessionRuns.OpAcquireLane(x.laneID)
    ensures SessionRuns.Step(x.s, op) == AcquireWebSocketLane(x.s, x.laneID).0
  {
    hide AcquireWebSocketLane;
  }

  lemma ElsewhereKeepsInv(x: UpRun, op: SessionRuns.Op)
    requires UpInv(x) && x.s.panic.None? && !OnThisLane(x, op)
    ensures UpInv(Moved(x, SessionRuns.Step(x.s, op)))
  {
    hide InvWith, SessionRuns.Step, Owns, OnThisLane, SessionRuns.Unretained, GatePart;
    SessionMeans(x);
    ElsewhereKeepsGate(x, op, x.r);
    OwnsKept(x.s, op, x.r, x.laneID);
    SessionRuns.StepKeepsInv(x.s, op);
    if !x.strayed {
      ElsewhereKeepsGates(x, op);
    }
  }

  // ------------------------------------------------------------- requests on this lane

  /** What a request does to the lane object it is applied on. */
  predicate GateMoves(before: Lane, after: Lane, q: Request, o: UpOutcome) {
    && (o == Applied ==> CheckUp(before, q.sequence, q.body) == Ready)
    && (o == Acked ==> CheckUp(before, q.sequence, q.body) == Acknowledged)
    && after.lastUpSequence == (if o == Applied then q.sequence else before.lastUpSequence)
    && after.lastUpDigest == (if o == Applied then Sha256(q.body) else before.lastUpDigest)
    && (after.upActive ==> before.upActive)
  }

  /** The lane object a request finds, or has its OPEN register. */
  function ServedBy(s: State, laneID: nat): LaneRef {
    if laneID in s.carrierLanes then s.carrierLanes[laneID] else s.nextLane
  }

  /** A lane request either leaves the session alone, being refused or acknowledged as late, or is decided
      by the lane object it finds or registers. */
  lemma LaneRequestGate(s: State, laneID: nat, q: Request, a: Answers)
    requires Inv(s) && UsesLanes(s)
    ensures var (t, o) := UpLane(s, laneID, q.sequence, q.body, a);
      var r := ServedBy(s, laneID);
      || (t == s && o != Applied && (o == Acked ==> LateBody(s, laneID, q.body)))
      || (&& PollLaneOf(t, laneID) == Some(r) && r in t.lanes && !LateBody(s, laneID, q.body)
          && GateMoves(LaneAt(Registering(s, laneID), r), t.lanes[r], q, o))
  {
    hide InvWith, UpOnLane, ClientFrames, OnWire, OnlyLateFrames, AddLane, Spares, CheckUp;
    if laneID <= MAX_STREAM_ID && ClientFrames(s, q.body, Some(laneID)).Some? && !s.closed {
      var frames := ClientFrames(s, q.body, Some(laneID)).value;
      var before := Registering(s, laneID);
      SessionRuns.ClientFramesOnWire(s, q.body, Some(laneID));
      if laneID !in s.carrierLanes {
        if laneID == 0 || frames[0].typeCode != OPEN {
          return;
        }
        AddLaneKeepsInv(s, laneID, 0, 0);
        SessionRuns.AddedLane(s, laneID);
        NewLaneServes(s, laneID);
        SessionRuns.OpensIsNotLate(frames);
      }
      var r := ServedBy(s, laneID);
      UpOnLaneSpares(before, laneID, q.sequence, q.body, frames, a);
      AckedOnLane(before, r, q.sequence, q.body, frames, a);
      SparedLane(before, UpOnLane(before, r, q.sequence, q.body, frames, a).0, laneID);
    }
  }

  lemma NewLaneServes(s: State, laneID: nat)
    ensures AddLane(s, laneID).carrierLanes[laneID] == s.nextLane
    ensures LaneAt(AddLane(s, laneID), s.nextLane) == NEW_LANE
  {
  }

  lemma SparedLane(s: State, t: State, laneID: nat)
    requires Spares(s, t, laneID) && UsesLanes(s) && laneID in s.carrierLanes
    ensures PollLaneOf(t, laneID) == Some(s.carrierLanes[laneID])
  {
  }

  lemma AckedOnLane(s: State, r: LaneRef, sequence: nat, body: Bytes, frames: seq<Frame>, a: Answers)
    ensures UpOnLane(s, r, sequence, body, frames, a).1 == Acked ==>
      CheckUp(LaneAt(s, r), sequence, body) == Acknowledged
  {
    hide CheckUp, CommitBatch;
    CommitNeverAcks(SetUpActive(s, r, true), r, sequence, body, frames, a);
  }

  lemma CommitNeverAcks(s: State, r: LaneRef, sequence: nat, body: Bytes, frames: seq<Frame>, a: Answers)
    ensures CommitBatch(s, r, sequence, body, frames, a).1 != Acked
        && CommitBatch(s, r, sequence, body, frames, a).1 != Begun
  {
    hide ValidateBatch, Reservation, ApplyAll, Release, Committed;
  }

  /** The second section of `ProcessUp`, in the terms of the invariant. */
  lemma FinishGate(s: State, q: Request, a: Answers)
    requires Inv(s) && !UsesLanes(s)
    ensures var (t, o) := UpFinish(s, q.sequence, q.body, a);
      && t.carrier == s.carrier && MAIN in s.lanes && MAIN in t.lanes && o != Acked
      && GateIs(t.lanes[MAIN], if o == Applied then q.sequence else s.lanes[MAIN].lastUpSequence,
                if o == Applied then Sha256(q.body) else s.lanes[MAIN].lastUpDigest, false)
  {
    hide InvWith, CommitBatch, OnWire, ClientFrames;
    MainIsThere(s);
    if !s.closed && ClientFrames(s, q.body, None).Some? {
      var idle := SetUpActive(s, MAIN, false);
      SessionRuns.ClientFramesOnWire(s, q.body, None);
      SessionRuns.UpActiveKeepsInv(s, MAIN, false);
      CommitSpares(idle, MAIN, q.sequence, q.body, ClientFrames(s, q.body, None).value, a, 0);
      CommitNeverAcks(idle, MAIN, q.sequence, q.body, ClientFrames(s, q.body, None).value, a);
    }
  }

  /** A committed request is the next body of the bridge. */
  lemma NextBody(x: UpRun, q: Request)
    requires BridgePart(x) && q in x.requests && q.sequence == |x.committed| + 1
    ensures |x.committed| < |x.sent| && x.committed + [q.body] == x.sent[..|x.committed| + 1]
  {
  }

  /** A request is answered: its batch is committed as the next one, or nothing is. */
  lemma AnswerKeepsInv(x: UpRun, t: State, o: UpOutcome, q: Request, holder: Option<Request>)
    requires UpInv(x) && q in x.requests && !UsesLanes(x.s) && x.r in x.s.lanes
    requires (t.panic.None? ==> Inv(t)) && Owns(t, x.r, x.laneID) && t.carrier == x.s.carrier && x.r in t.lanes
    requires o == Applied ==> q.sequence == |x.committed| + 1
    requires o == Acked ==> q.sequence == |x.committed| && q.sequence != 0
    requires t.lanes[x.r].lastUpSequence == (if o == Applied then q.sequence else x.s.lanes[x.r].lastUpSequence)
    requires t.lanes[x.r].lastUpDigest == (if o == Applied then Sha256(q.body) else x.s.lanes[x.r].lastUpDigest)
    requires t.lanes[x.r].upActive <==> holder.Some?
    requires holder.Some? ==>
      o != Applied && holder.value in x.requests && holder.value.sequence == |x.committed| + 1
    ensures UpInv(Answered(x, t, o, q).(holder := holder))
  {
    hide InvWith, Owns, Younger;
    CommittedIsSafe(x);
    AnswerKeepsBridge(x, t, o, q);
    var y := Answered(x, t, o, q).(holder := holder);
    assert BridgePart(y);
    hide BridgePart;
    assert SessionPart(y);
    hide SessionPart;
    assert GatePart(y);
  }

  lemma AnswerKeepsBridge(x: UpRun, t: State, o: UpOutcome, q: Request)
    requires BridgePart(x) && q in x.requests
    requires o == Applied ==> q.sequence == |x.committed| + 1
    requires o == Acked ==> q.sequence == |x.committed| && q.sequence != 0
    ensures BridgePart(Answered(x, t, o, q))
  {
    hide Younger;
    if o == Applied {
      NextBody(x, q);
    }
  }

  lemma ReadyMeansNext(l: Lane, sequence: nat, body: Bytes)
    requires l.lastUpSequence <= MAX_SAFE_INTEGER
    ensures CheckUp(l, sequence, body) == Ready ==> sequence == l.lastUpSequence + 1 && !l.upActive
    ensures CheckUp(l, sequence, body) == Acknowledged ==>
      sequence == l.lastUpSequence && sequence != 0 && l.lastUpDigest == Sha256(body)
  {
  }

  /** A request that does not stray moves the lane object and the histories on together. */
  lemma GateMovesOn(x: UpRun, t: State, o: UpOutcome, q: Request, r: LaneRef, before: Lane, after: Lane)
    requires BridgePart(x) && q in x.requests && Counts(x, r, before) && GateMoves(before, after, q, o)
    requires o == Applied && before.lastUpSequence != |x.committed| ==> x.committed == []
    ensures BridgePart(Answered(x, t, o, q)) && Counts(Answered(x, t, o, q), r, after)
  {
    hide CheckUp;
    ReadyMeansNext(before, q.sequence, q.body);
    if o == Applied {
      NextBody(x, q);
    }
  }

  lemma UnmovedKeepsInv(x: UpRun, o: UpOutcome, q: Request)
    requires UpInv(x) && !x.strayed && q in x.requests && o != Applied
    requires o == Acked ==> q.sequence <= |x.committed|
    ensures GatePart(Answered(x, x.s, o, q)) && BridgePart(Answered(x, x.s, o, q))
  {
    hide InvWith, Owns;
  }

  lemma NewGateCounts(x: UpRun)
    requires x.s.panic.None? && SessionPart(x) && UsesLanes(x.s) && x.laneID !in x.s.carrierLanes
    ensures Counts(x, x.s.nextLane, NEW_LANE) && !NEW_LANE.upActive
  {
    hide InvWith, Owns;
    SessionMeans(x);
    NextLaneIsNew(x.s);
  }

  /** The histories after a lane request that does not stray. */
  lemma LaneRequestCounts(x: UpRun, q: Request, a: Answers)
    requires UpInv(x) && !x.strayed && x.s.panic.None? && q in x.requests && UsesLanes(x.s) && !Strays(x, q, a)
    ensures GatePart(Arrives(x, q, a)) && BridgePart(Arrives(x, q, a))
  {
    hide InvWith, UpLane, Owns, CheckUp, AddLane, LateBody;
    var (t, o) := UpLane(x.s, x.laneID, q.sequence, q.body, a);
    var r := ServedBy(x.s, x.laneID);
    SessionMeans(x);
    LaneRequestGate(x.s, x.laneID, q, a);
    LateIsForgotten(x, q);
    if t == x.s && o != Applied && (o == Acked ==> LateBody(x.s, x.laneID, q.body)) {
      UnmovedKeepsInv(x, o, q);
    } else {
      var before := LaneAt(Registering(x.s, x.laneID), r);
      if x.laneID !in x.s.carrierLanes {
        NewLaneServes(x.s, x.laneID);
        NewGateCounts(x);
      }
      GateMovesOn(x, t, o, q, r, before, t.lanes[r]);
    }
  }

  lemma LateIsForgotten(x: UpRun, q: Request)
    ensures LateBody(x.s, x.laneID, q.body) ==> Forgotten(x)
  {
  }

  lemma LaneRequestKeepsInv(x: UpRun, q: Request, a: Answers)
    requires UpInv(x) && x.s.panic.None? && q in x.requests && UsesLanes(x.s)
    ensures UpInv(Arrives(x, q, a))
  {
    hide InvWith, UpLane, Owns, GatePart, BridgePart, Strays;
    var t := UpLane(x.s, x.laneID, q.sequence, q.body, a).0;
    var op := SessionRuns.OpUpLane(x.laneID, q.sequence, q.body, a);
    SessionMeans(x);
    OwnsKept(x.s, op, x.r, x.laneID);
    SessionRuns.UpLaneKeepsInv(x.s, x.laneID, q.sequence, q.body, a);
    RegisteredBefore(x.s, op, x.laneID);
    if !x.strayed && !Strays(x, q, a) {
      LaneRequestCounts(x, q, a);
    }
  }

  /** No lane request is ever refused as concurrent: the whole of `ProcessUpLane` after parsing is one
      critical section, so nothing observes `upActive` set. */
  lemma LanesNeverHeld(x: UpRun)
    requires UpInv(x) && !x.strayed && UsesLanes(x.s) && x.laneID in x.s.carrierLanes
    ensures x.holder == None && !LaneAt(x.s, x.s.carrierLanes[x.laneID]).upActive
  {
  }

  lemma CommittedIsSafe(x: UpRun)
    requires UpInv(x) && !UsesLanes(x.s)
    ensures x.r == MAIN && MAIN in x.s.lanes && x.s.lanes[MAIN].lastUpSequence == |x.committed| <= MAX_SAFE_INTEGER
    ensures !x.strayed
  {
  }

  lemma BeginKeepsInv(x: UpRun, q: Request, a: Answers)
    requires UpInv(x) && x.s.panic.None? && q in x.requests && !UsesLanes(x.s)
    ensures UpInv(Arrives(x, q, a))
  {
    hide InvWith, Owns, CheckUp, BridgePart, Answered;
    var (t, o) := UpBegin(x.s, q.sequence, q.body);
    CommittedIsSafe(x);
    ReadyMeansNext(x.s.lanes[x.r], q.sequence, q.body);
    OwnsKept(x.s, SessionRuns.OpUpBegin(q.sequence, q.body), x.r, x.laneID);
    SessionRuns.UpBeginKeepsInv(x.s, q.sequence, q.body);
    AnswerKeepsInv(x, t, o, q, if o == Begun then Some(q) else x.holder);
  }

  lemma FinishKeepsInv(x: UpRun, a: Answers)
    requires UpInv(x) && x.s.panic.None? && x.holder.Some?
    ensures UpInv(UpStep(x, HolderFinishes(a)))
  {
    hide InvWith, Owns, UpFinish, BridgePart, Answered, SessionRuns.BatchRetained, ValidateBatch, ClientFrames;
    var q := x.holder.value;
    var (t, o) := UpFinish(x.s, q.sequence, q.body, a);
    CommittedIsSafe(x);
    FinishGate(x.s, q, a);
    OwnsKept(x.s, SessionRuns.OpUpFinish(q.sequence, q.body, a), x.r, x.laneID);
    SessionRuns.UpFinishKeepsInv(x.s, q.sequence, q.body, a);
    AnswerKeepsInv(x, t, o, q, None);
  }

  lemma BridgeKeepsInv(x: UpRun, e: UpEvent)
    requires UpInv(x) && (e.BridgeTakes? || e.BridgeRetries? || e.AckArrives?)
    ensures UpInv(UpStep(x, e))
  {
    hide InvWith, Owns, SessionRuns.Step, Arrives, OnThisLane, UpFinish, Answered;
    var y := UpStep(x, e);
    assert SessionPart(y) && (!x.strayed ==> GatePart(y));
    hide SessionPart, GatePart;
    if !x.strayed && e.BridgeTakes? && x.acked == |x.sent| && |x.sent| < MAX_SAFE_INTEGER {
      assert y.sent[..|x.committed|] == x.sent[..|x.committed|];
    }
  }

  lemma UpStepKeepsInv(x: UpRun, e: UpEvent)
    requires UpInv(x)
    ensures UpInv(UpStep(x, e))
  {
    hide UpInv, Arrives, OnThisLane, UpFinish, SessionRuns.Step;
    match e {
      case Elsewhere(op) =>
        if !OnThisLane(x, op) {
          if x.s.panic.None? {
            ElsewhereKeepsInv(x, op);
          } else {
            SessionRuns.PanickedStays(x.s, op);
          }
        }
      case RequestArrives(q, a) =>
        if q in x.requests && x.s.panic.None? {
          RequestKeepsInv(x, q, a);
        }
      case HolderFinishes(a) => if x.holder.Some? && x.s.panic.None? { FinishKeepsInv(x, a); }
      case _ => BridgeKeepsInv(x, e);
    }
  }

  lemma RequestKeepsInv(x: UpRun, q: Request, a: Answers)
    requires UpInv(x) && x.s.panic.None? && q in x.requests
    ensures UpInv(Arrives(x, q, a))
  {
    if !UsesLanes(x.s) {
      BeginKeepsInv(x, q, a);
    } else {
      LaneRequestKeepsInv(x, q, a);
    }
  }

  lemma {:induction false} UpReachable(x: UpRun, events: seq<UpEvent>)
    requires Fresh(x)
    ensures UpInv(UpRunFrom(x, events))
  {
    hide UpStep, SessionPart;
    UpRunUnfolds(x, events);
    if events != [] {
      UpReachable(x, events[..|events| - 1]);
      UpStepKeepsInv(UpRunFrom(x, events[..|events| - 1]), events[|events| - 1]);
    } else {
      FreshInv(x);
    }
  }

  lemma FreshInv(x: UpRun)
    requires Fresh(x)
    ensures UpInv(x)
  {
    hide InvWith;
  }

  // ------------------------------------------------------------------------- theorems

  /** Exactly once, in order: what the relay has committed on the lane is a prefix of what the bridge has
      sent, each body once and under its own number; what the bridge knows to be acknowledged has been
      committed; and at most the last body sent is missing. */
  predicate ExactlyOnce(x: UpRun) {
    && |x.sent| - 1 <= x.acked <= |x.committed| <= |x.sent|
    && x.committed == x.sent[..|x.committed|]
    && |x.order| == |x.committed| && (forall i :: 0 <= i < |x.order| ==> x.order[i] == i + 1)
    && (forall n :: n in x.acks ==> 1 <= n <= |x.committed|)
  }

  lemma InvIsExactlyOnce(x: UpRun)
    requires UpInv(x) && !x.strayed
    ensures ExactlyOnce(x)
  {
    hide SessionPart, GatePart;
  }

  /** A request that strays is the end of it. */
  lemma StrayedOnce(x: UpRun, q: Request, a: Answers)
    requires UpInv(x) && !x.strayed && x.s.panic.None? && q in x.requests && Strays(x, q, a)
    ensures !ExactlyOnce(UpStep(x, RequestArrives(q, a)))
  {
    hide InvWith, UpLane, Owns, CheckUp, AddLane;
    var (t, o) := UpLane(x.s, x.laneID, q.sequence, q.body, a);
    var r := ServedBy(x.s, x.laneID);
    var y := UpStep(x, RequestArrives(q, a));
    SessionMeans(x);
    if |x.committed| < q.sequence && LateBody(x.s, x.laneID, q.body) {
      LateIsAcknowledged(x.s, x.laneID, q, a);
      assert q.sequence in y.acks;
    } else {
      LaneRequestGate(x.s, x.laneID, q, a);
      var before := LaneAt(Registering(x.s, x.laneID), r);
      if x.laneID !in x.s.carrierLanes {
        NewLaneServes(x.s, x.laneID);
      }
      ReadyMeansNext(before, q.sequence, q.body);
      assert y.order[|x.committed|] == 1;
    }
  }

  lemma LateIsAcknowledged(s: State, laneID: nat, q: Request, a: Answers)
    requires LateBody(s, laneID, q.body)
    ensures UpLane(s, laneID, q.sequence, q.body, a) == (s, Acked)
  {
    hide ClientFrames, UpOnLane;
    assert ClientFrames(s, q.body, Some(laneID)).value[0].typeCode != OPEN;
  }

  lemma StrayingStep(x: UpRun, e: UpEvent)
    ensures UpStep(x, e).strayed && !x.strayed ==>
      e.RequestArrives? && e.request in x.requests && x.s.panic.None? && Strays(x, e.request, e.answers)
    ensures x.strayed ==> UpStep(x, e).strayed
    ensures UpStep(x, e).laneID == x.laneID && UpStep(x, e).r == x.r
  {
    hide SessionRuns.Step, UpLane, UpBegin, UpFinish, OnThisLane, Strays;
  }

  /** Over every run, with requests and replies delayed, repeated and lost: the uplink is exactly once
      throughout if and only if no request of the lane strays. On a multiplexed carrier none does. */
  lemma {:induction false} UplinkExactlyOnce(x: UpRun, events: seq<UpEvent>)
    requires Fresh(x)
    ensures (forall k :: 0 <= k <= |events| ==> ExactlyOnce(UpRunFrom(x, events[..k])))
      <==> !UpRunFrom(x, events).strayed
    ensures !UsesLanes(UpRunFrom(x, events).s) ==> !UpRunFrom(x, events).strayed
    decreases |events|
  {
    hide UpStep, UpInv, Fresh, ExactlyOnce, Strays;
    UpReachable(x, events);
    UpRunUnfolds(x, events);
    var n := |events|;
    var y := UpRunFrom(x, events);
    StrayedUsesLanes(y);
    assert events[..n] == events;
    if !y.strayed {
      InvIsExactlyOnce(y);
    }
    if n > 0 {
      var past, e := events[..n - 1], events[n - 1];
      var w := UpRunFrom(x, past);
      UplinkExactlyOnce(x, past);
      UpReachable(x, past);
      StrayingStep(w, e);
      if !y.strayed {
        forall k | 0 <= k <= n
          ensures ExactlyOnce(UpRunFrom(x, events[..k]))
        {
          assert k == n || past[..k] == events[..k];
        }
      } else if w.strayed {
        var k :| 0 <= k <= n - 1 && !ExactlyOnce(UpRunFrom(x, past[..k]));
        assert past[..k] == events[..k];
      } else {
        StrayedOnce(w, e.request, e.answers);
        assert !ExactlyOnce(UpRunFrom(x, events[..n]));
      }
    } else {
      FreshHasNotStrayed(x);
    }
  }

  lemma FreshHasNotStrayed(x: UpRun)
    requires Fresh(x)
    ensures !x.strayed
  {
    hide SessionPart;
  }

  lemma StrayedUsesLanes(x: UpRun)
    requires UpInv(x)
    ensures x.strayed ==> UsesLanes(x.s)
  {
    hide InvWith, Owns;
  }

  // ------------------------------------------------------------------- remembered lanes

  /** The relay still has the lane object, as long as fewer ids than the ring holds are remembered as
      closed after the lane's own. */
  predicate Remembered(x: UpRun) {
    || x.others >= x.s.limits.maxClosedStreamIDs
    || (!x.strayed && Kept(x.s, x.laneID, x.r, x.others))
  }

  lemma KeptIsNotForgotten(x: UpRun)
    requires UpInv(x) && !x.strayed && x.s.carrier == HttpsLanes && RegisteredAs(x.s, x.laneID, x.r)
    ensures !Forgotten(x)
  {
    hide InvWith, Owns, BridgePart;
  }

  lemma SectionRemembers(x: UpRun, op: SessionRuns.Op)
    requires UpInv(x) && x.s.panic.None? && x.s.carrier == HttpsLanes && Remembered(x)
    ensures var t := SessionRuns.Step(x.s, op);
      && t.carrier == HttpsLanes && t.limits == x.s.limits
      && (x.strayed || Remembered(Moved(x, t)))
  {
    hide InvWith, SessionRuns.Step, Kept, GatePart, BridgePart;
    SessionMeans(x);
    RegisteredBefore(x.s, op, x.laneID);
    if Kept(x.s, x.laneID, x.r, x.others) {
      KeptStays(x.s, op, x.laneID, x.r, x.others);
    }
  }

  lemma StepRemembers(x: UpRun, e: UpEvent)
    requires UpInv(x) && x.s.carrier == HttpsLanes && Remembered(x)
    ensures UpStep(x, e).s.carrier == HttpsLanes && Remembered(UpStep(x, e))
  {
    hide InvWith, SessionRuns.Step, Kept, GatePart, BridgePart, UpLane, UpFinish, Strays, Forgotten, Younger;
    SessionMeans(x);
    StrayingStep(x, e);
    if x.s.panic.None? {
      match e {
        case Elsewhere(op) => SectionRemembers(x, op);
        case RequestArrives(q, a) => ArrivalRemembers(x, q, a);
        case _ =>
      }
    } else if e.Elsewhere? {
      SessionRuns.PanickedStays(x.s, e.op);
      SameIsNotYounger(x.s, x.laneID);
    }
  }

  lemma ArrivalRemembers(x: UpRun, q: Request, a: Answers)
    requires UpInv(x) && x.s.panic.None? && x.s.carrier == HttpsLanes && Remembered(x)
    ensures Arrives(x, q, a).s.carrier == HttpsLanes && Remembered(Arrives(x, q, a))
  {
    hide InvWith, Kept, UpInv, UpLane, Forgotten, Younger;
    SectionRemembers(x, SessionRuns.OpUpLane(x.laneID, q.sequence, q.body, a));
    if x.others < x.s.limits.maxClosedStreamIDs {
      KeptMeans(x);
      KeptIsNotForgotten(x);
    }
  }

  lemma KeptMeans(x: UpRun)
    requires Kept(x.s, x.laneID, x.r, x.others)
    ensures RegisteredAs(x.s, x.laneID, x.r)
  {
  }

  lemma SameIsNotYounger(s: State, id: nat)
    ensures Younger(s, s, id) == 0
  {
  }

  /** What is known of a run that started at `x`: its carrier, and on HTTPS lanes, unless the lane's
      tombstone was there before it, that the relay remembers the lane. */
  predicate StaysKnown(x: UpRun, y: UpRun) {
    && (UsesLanes(y.s) <==> UsesLanes(x.s))
    && (x.s.carrier == HttpsLanes && x.laneID !in x.s.tombstones.closed ==> y.s.carrier == HttpsLanes && Remembered(y))
  }

  lemma FreshIsKnown(x: UpRun)
    requires Fresh(x)
    ensures StaysKnown(x, x)
  {
    hide SessionPart;
  }

  lemma StepStaysKnown(x: UpRun, y: UpRun, e: UpEvent)
    requires UpInv(y) && StaysKnown(x, y)
    ensures StaysKnown(x, UpStep(y, e))
  {
    hide UpInv, UpStep, Remembered;
    SameCarrier(y, e);
    if y.s.carrier == HttpsLanes && Remembered(y) {
      StepRemembers(y, e);
    }
  }

  /** A multiplexed run does not stray, and neither does a lane that is remembered. */
  lemma KnownDoesNotStray(x: UpRun, y: UpRun)
    requires UpInv(y) && StaysKnown(x, y)
    ensures !UsesLanes(x.s) ==> !y.strayed
    ensures x.s.carrier == HttpsLanes && x.laneID !in x.s.tombstones.closed ==>
      y.others < y.s.limits.maxClosedStreamIDs ==> !y.strayed
  {
    hide UpInv, Remembered;
    StrayedUsesLanes(y);
    if y.s.carrier == HttpsLanes && Remembered(y) {
      RememberedMeans(y);
    }
  }

  /** What the page can count: on HTTPS lanes, while fewer streams than the ring holds have been closed
      after the lane's own, the lane is still registered, and everything is committed exactly once. */
  lemma RememberedLane(x: UpRun, events: seq<UpEvent>)
    requires Fresh(x) && x.s.carrier == HttpsLanes && x.laneID !in x.s.tombstones.closed
    ensures var y := UpRunFrom(x, events);
      y.others < y.s.limits.maxClosedStreamIDs ==>
        && RegisteredAs(y.s, y.laneID, y.r) && ExactlyOnce(y) && LaneAt(y.s, y.r).lastUpSequence == |y.committed|
  {
    hide UpInv, ExactlyOnce, Remembered, Fresh;
    UpReachable(x, events);
    RunStaysKnown(x, events);
    RememberedMeans(UpRunFrom(x, events));
  }

  lemma {:induction false} RunStaysKnown(x: UpRun, events: seq<UpEvent>)
    requires Fresh(x)
    ensures StaysKnown(x, UpRunFrom(x, events))
  {
    hide UpStep, UpInv, Fresh, StaysKnown;
    UpRunUnfolds(x, events);
    if events == [] {
      FreshIsKnown(x);
    } else {
      var past := events[..|events| - 1];
      RunStaysKnown(x, past);
      UpReachable(x, past);
      StepStaysKnown(x, UpRunFrom(x, past), events[|events| - 1]);
    }
  }

  lemma RememberedMeans(x: UpRun)
    requires UpInv(x) && x.s.carrier == HttpsLanes && Remembered(x)
    ensures x.others < x.s.limits.maxClosedStreamIDs ==>
      && !x.strayed && RegisteredAs(x.s, x.laneID, x.r) && ExactlyOnce(x)
      && LaneAt(x.s, x.r).lastUpSequence == |x.committed|
  {
    hide InvWith, Owns;
  }

  // ------------------------------------------------------------------------- requests

  /** While a request holds the uplink between its two sections, nothing but its own second section
      moves the sequence number or commits a batch. */
  lemma HolderIsAlone(x: UpRun, events: seq<UpEvent>, e: UpEvent)
    requires Fresh(x) && UpRunFrom(x, events).holder.Some? && !e.HolderFinishes?
    ensures var y := UpRunFrom(x, events);
      var z := UpStep(y, e);
      && z.holder == y.holder && z.committed == y.committed
      && z.r in z.s.lanes && y.r in y.s.lanes && z.s.lanes[z.r].lastUpSequence == y.s.lanes[y.r].lastUpSequence
  {
    hide Fresh, UpStep, InvWith, UpFinish;
    UpReachable(x, events);
    var y := UpRunFrom(x, events);
    UpStepKeepsInv(y, e);
    HolderBlocks(y, e);
  }

  lemma HolderBlocks(y: UpRun, e: UpEvent)
    requires UpInv(y) && y.holder.Some? && !e.HolderFinishes?
    ensures UpStep(y, e).holder == y.holder && UpStep(y, e).committed == y.committed
  {
    hide InvWith, BridgePart, SessionRuns.Step, OnThisLane, UpLane, Owns;
    CommittedIsSafe(y);
  }

  /** A retry of the last committed body is acknowledged and changes nothing at all. */
  lemma RetryIsAcknowledged(s: State, r: LaneRef, laneID: nat, body: Bytes, a: Answers)
    requires Inv(s) && !s.closed && r in s.lanes && s.lanes[r].lastUpSequence != 0
        && s.lanes[r].lastUpDigest == Sha256(body)
    requires UsesLanes(s) ==>
      RegisteredAs(s, laneID, r) && laneID <= MAX_STREAM_ID && ClientFrames(s, body, Some(laneID)).Some?
    requires !UsesLanes(s) ==> r == MAIN
    ensures UsesLanes(s) ==> UpLane(s, laneID, s.lanes[r].lastUpSequence, body, a) == (s, Acked)
    ensures !UsesLanes(s) ==> UpBegin(s, s.lanes[r].lastUpSequence, body) == (s, Acked)
  {
    hide InvWith, ClientFrames, CommitBatch, OnlyLateFrames;
  }

  /** A request refused as concurrent or for backpressure leaves streams, tombstones, budget, queues and
      sequence numbers as they were, so that the bridge can simply send it again. The one trace is a
      lane that a refused OPEN has already registered. */
  lemma RefusalChangesNothing(s: State, laneID: nat, sequence: nat, body: Bytes, a: Answers)
    requires Inv(s)
    ensures var (t, o) := UpLane(s, laneID, sequence, body, a);
      o == Concurrent || o == Backpressure ==>
        t == s.(calls := t.calls) || (laneID !in s.carrierLanes && t == AddLane(s, laneID).(calls := t.calls))
  {
    hide InvWith, ClientFrames, CommitBatch, OnlyLateFrames, CheckUp, AddLane, UpOnLane;
    if laneID in s.carrierLanes {
      SessionRuns.RegisteredInLanes(s, laneID);
    }
    AddedLaneIsNew(s, laneID);
    forall frames
      ensures laneID in s.carrierLanes ==>
        RefusedOnLane(s, s.carrierLanes[laneID], UpOnLane(s, s.carrierLanes[laneID], sequence, body, frames, a))
      ensures RefusedOnLane(AddLane(s, laneID), s.nextLane,
          UpOnLane(AddLane(s, laneID), s.nextLane, sequence, body, frames, a))
    {
      if laneID in s.carrierLanes {
        OnLaneRefusal(s, s.carrierLanes[laneID], sequence, body, frames, a);
      }
      OnLaneRefusal(AddLane(s, laneID), s.nextLane, sequence, body, frames, a);
    }
  }

  predicate RefusedOnLane(s: State, r: LaneRef, result: (State, UpOutcome)) {
    result.1 == Concurrent || result.1 == Backpressure ==> result.0 == s.(calls := result.0.calls)
  }

  lemma AddedLaneIsNew(s: State, laneID: nat)
    ensures s.nextLane in AddLane(s, laneID).lanes && !AddLane(s, laneID).lanes[s.nextLane].upActive
  {
  }

  lemma OnLaneRefusal(s: State, r: LaneRef, sequence: nat, body: Bytes, frames: seq<Frame>, a: Answers)
    requires r in s.lanes
    ensures RefusedOnLane(s, r, UpOnLane(s, r, sequence, body, frames, a))
  {
    hide CommitBatch;
    var l := s.lanes[r];
    CommitRefused(SetUpActive(s, r, true), r, sequence, body, frames, a);
    if !l.upActive {
      assert l.(upActive := true).(upActive := false) == l;
      assert s.lanes[r := l.(upActive := true)][r := l] == s.lanes;
    }
  }

  /** The same of the two sections of `ProcessUp`. */
  lemma MultiplexedRefusalChangesNothing(s: State, sequence: nat, body: Bytes, a: Answers)
    requires MAIN in s.lanes
    ensures UpBegin(s, sequence, body).1 == Concurrent ==> UpBegin(s, sequence, body).0 == s
    ensures var (t, o) := UpFinish(s, sequence, body, a);
      o == Backpressure ==> t == SetUpActive(s, MAIN, false).(calls := t.calls)
  {
    hide CommitBatch, CheckUp, ClientFrames;
    var idle := SetUpActive(s, MAIN, false);
    if !s.closed && ClientFrames(s, body, None).Some? {
      CommitRefused(idle, MAIN, sequence, body, ClientFrames(s, body, None).value, a);
    }
  }

  lemma CommitRefused(s: State, r: LaneRef, sequence: nat, body: Bytes, frames: seq<Frame>, a: Answers)
    ensures var (t, o) := CommitBatch(s, r, sequence, body, frames, a);
      && o != Concurrent && (o == Backpressure ==> t == s.(calls := t.calls))
  {
    hide CommitBatch, ValidateBatch, Release, Committed, SessionRuns.ReservationGranted, SessionRuns.AppliedTo,
      SessionRuns.Unreserved;
    SessionRuns.CommitCases(s, r, sequence, body, frames, a);
    if !SessionRuns.ReservationGranted(s, frames, a) {
      SessionRuns.UnreservedSame(s, frames, a);
    }
  }

  // ------------------------------------------------------------------- events as sections

  /** The section of the session an event of the uplink is, if it is one. */
  function SectionOf(x: UpRun, e: UpEvent): Option<SessionRuns.Op> {
    if x.s.panic.Some? then None
    else
      match e
      case Elsewhere(op) => if OnThisLane(x, op) then None else Some(op)
      case RequestArrives(q, a) =>
        if q !in x.requests then None
        else if !UsesLanes(x.s) then Some(SessionRuns.OpUpBegin(q.sequence, q.body))
        else Some(SessionRuns.OpUpLane(x.laneID, q.sequence, q.body, a))
      case HolderFinishes(a) =>
        if x.holder.None? then None else Some(SessionRuns.OpUpFinish(x.holder.value.sequence, x.holder.value.body, a))
      case _ => None
  }

  /** An event of the uplink moves the session by its section. */
  lemma MovesBySection(x: UpRun, e: UpEvent)
    requires UpInv(x)
    ensures var op := SectionOf(x, e);
      UpStep(x, e).s == if op.Some? then SessionRuns.Step(x.s, op.value) else x.s
  {
    hide InvWith, Owns, BridgePart, UpLane, UpBegin, UpFinish;
    assert x.holder.Some? ==> !UsesLanes(x.s);
    if e.Elsewhere? && x.s.panic.Some? {
      SessionRuns.PanickedStays(x.s, e.op);
    }
  }

  lemma SameCarrier(x: UpRun, e: UpEvent)
    requires UpInv(x)
    ensures UpStep(x, e).laneID == x.laneID && (UsesLanes(UpStep(x, e).s) <==> UsesLanes(x.s))
  {
    hide UpInv, UpStep;
    UpStepKeepsInv(x, e);
    StrayingStep(x, e);
    CarrierMeans(x);
    CarrierMeans(UpStep(x, e));
  }

  lemma CarrierMeans(x: UpRun)
    requires UpInv(x)
    ensures x.r == MAIN <==> !UsesLanes(x.s)
  {
    hide InvWith, Owns;
  }

  // ------------------------------------------------------------------- retries and refusals

  /** Every body committed on a lane is one the relay parses for that lane. */
  predicate CommittedParse(x: UpRun) {
    UsesLanes(x.s) ==>
      && (x.committed != [] ==> x.laneID <= MAX_STREAM_ID)
      && forall i :: 0 <= i < |x.committed| ==> ClientFrames(x.s, x.committed[i], Some(x.laneID)).Some?
  }

  lemma AppliedParses(s: State, laneID: nat, q: Request, a: Answers)
    requires UpLane(s, laneID, q.sequence, q.body, a).1 == Applied
    ensures laneID <= MAX_STREAM_ID && ClientFrames(s, q.body, Some(laneID)).Some?
  {
    hide UpOnLane, ClientFrames, OnlyLateFrames;
  }

  lemma SameParses(s: State, t: State, body: Bytes, laneID: nat)
    requires t.limits == s.limits
    ensures ClientFrames(t, body, Some(laneID)) == ClientFrames(s, body, Some(laneID))
  {
  }

  lemma StepParses(x: UpRun, e: UpEvent)
    requires UpInv(x) && CommittedParse(x)
    ensures CommittedParse(UpStep(x, e))
  {
    hide InvWith, Owns, SessionRuns.Step, UpLane, UpBegin, UpFinish, ClientFrames, GatePart, BridgePart, Strays, Moved,
      SectionOf;
    var y := UpStep(x, e);
    SessionMeans(x);
    StrayingStep(x, e);
    SameCarrier(x, e);
    MovesBySection(x, e);
    if UsesLanes(x.s) {
      if SectionOf(x, e).Some? {
        SectionMeans(x, e);
        RegisteredBefore(x.s, SectionOf(x, e).value, x.laneID);
      }
      CommitsOne(x, e);
      if y.committed != x.committed {
        AppliedParses(x.s, x.laneID, e.request, e.answers);
        MoreParse(x, y, e.request.body);
      } else {
        MoreParse(x, y, []);
      }
    }
  }

  lemma MoreParse(x: UpRun, y: UpRun, body: Bytes)
    requires CommittedParse(x) && UsesLanes(x.s) && y.laneID == x.laneID && y.s.limits == x.s.limits
    requires y.committed == x.committed
      || (&& y.committed == x.committed + [body] && x.laneID <= MAX_STREAM_ID
          && ClientFrames(x.s, body, Some(x.laneID)).Some?)
    ensures CommittedParse(y)
  {
    hide ClientFrames;
    forall i | 0 <= i < |y.committed|
      ensures ClientFrames(y.s, y.committed[i], Some(y.laneID)).Some?
    {
      SameParses(x.s, y.s, y.committed[i], y.laneID);
      assert i < |x.committed| ==> x.committed[i] == y.committed[i];
    }
  }

  lemma SectionMeans(x: UpRun, e: UpEvent)
    requires SectionOf(x, e).Some?
    ensures x.s.panic.None?
  {
  }

  /** An event commits the body of its request or nothing. */
  lemma CommitsOne(x: UpRun, e: UpEvent)
    requires UpInv(x) && UsesLanes(x.s)
    ensures UpStep(x, e).committed == x.committed
      || (e.RequestArrives? && UpStep(x, e).committed == x.committed + [e.request.body]
          && UpLane(x.s, x.laneID, e.request.sequence, e.request.body, e.answers).1 == Applied)
  {
    hide InvWith, Owns, SessionRuns.Step, UpLane, GatePart, BridgePart, Strays, Younger;
  }

  lemma {:induction false} CommittedParses(x: UpRun, events: seq<UpEvent>)
    requires Fresh(x)
    ensures CommittedParse(UpRunFrom(x, events))
  {
    hide UpStep, UpInv, CommittedParse;
    UpRunUnfolds(x, events);
    if events != [] {
      CommittedParses(x, events[..|events| - 1]);
      UpReachable(x, events[..|events| - 1]);
      StepParses(UpRunFrom(x, events[..|events| - 1]), events[|events| - 1]);
    } else {
      FreshParses(x);
    }
  }

  lemma FreshParses(x: UpRun)
    requires Fresh(x)
    ensures CommittedParse(x)
  {
    hide SessionPart, ClientFrames;
  }

  /** In every run, as long as the relay has the lane object, a retry of the last body committed is
      acknowledged and changes nothing at all. */
  lemma RetriesAreAcknowledged(x: UpRun, events: seq<UpEvent>, q: Request, a: Answers)
    requires Fresh(x)
    requires var y := UpRunFrom(x, events);
      && !y.strayed && y.s.panic.None? && !y.s.closed && PollLaneOf(y.s, y.laneID) == Some(y.r)
      && q in y.requests && q.sequence == |y.committed|
    ensures var y := UpRunFrom(x, events);
      UpStep(y, RequestArrives(q, a)) == y.(acks := y.acks + {q.sequence})
  {
    hide UpStep, Fresh, InvWith, Owns, ClientFrames, UpInv, CommittedParse;
    UpReachable(x, events);
    CommittedParses(x, events);
    var y := UpRunFrom(x, events);
    RetryKnown(y, q);
    RetryIsAcknowledged(y.s, y.r, y.laneID, q.body, a);
    RetryLeaves(y, q, a);
  }

  lemma RetryKnown(y: UpRun, q: Request)
    requires UpInv(y) && CommittedParse(y) && !y.strayed && y.s.panic.None? && q in y.requests
    requires PollLaneOf(y.s, y.laneID) == Some(y.r) && q.sequence == |y.committed|
    ensures Inv(y.s) && y.r in y.s.lanes && y.s.lanes[y.r].lastUpSequence == q.sequence != 0
    ensures y.s.lanes[y.r].lastUpDigest == Sha256(q.body)
    ensures if UsesLanes(y.s) then
      RegisteredAs(y.s, y.laneID, y.r) && y.laneID <= MAX_STREAM_ID && ClientFrames(y.s, q.body, Some(y.laneID)).Some?
      else y.r == MAIN
  {
    hide InvWith, Owns, ClientFrames;
    assert y.committed[|y.committed| - 1] == q.body;
  }

  lemma RetryLeaves(y: UpRun, q: Request, a: Answers)
    requires y.s.panic.None? && q in y.requests
    requires UsesLanes(y.s) ==> UpLane(y.s, y.laneID, q.sequence, q.body, a) == (y.s, Acked)
    requires !UsesLanes(y.s) ==> UpBegin(y.s, q.sequence, q.body) == (y.s, Acked)
    requires UsesLanes(y.s) ==> !Forgotten(y)
    ensures UpStep(y, RequestArrives(q, a)) == y.(acks := y.acks + {q.sequence})
  {
    hide UpLane, UpBegin, Forgotten;
  }

  /** In every run, a request refused as concurrent or for backpressure leaves histories, streams,
      tombstones, budget, queues and sequence numbers as they were, so that the bridge can simply send it
      again; it frees the uplink if it held it. */
  lemma RefusalsChangeNothing(x: UpRun, events: seq<UpEvent>, e: UpEvent)
    requires Fresh(x)
    requires var y := UpRunFrom(x, events);
      SectionOf(y, e).Some? && !e.Elsewhere? && TurnedAway(y.s, SectionOf(y, e).value)
    ensures var y := UpRunFrom(x, events);
      var z := UpStep(y, e);
      && z == y.(s := z.s, holder := z.holder, strayed := z.strayed)
      && z.holder == (if e.HolderFinishes? then None else y.holder)
      && (|| z.s == y.s.(calls := z.s.calls)
          || (e.HolderFinishes? && z.s == SetUpActive(y.s, MAIN, false).(calls := z.s.calls))
          || (UsesLanes(y.s) && y.laneID !in y.s.carrierLanes && z.s == AddLane(y.s, y.laneID).(calls := z.s.calls)))
  {
    hide UpStep, Fresh, InvWith, UpLane, UpBegin, UpFinish;
    UpReachable(x, events);
    var y := UpRunFrom(x, events);
    SessionMeans(y);
    SectionMeans(y, e);
    if e.HolderFinishes? {
      MultiplexedRefusalChangesNothing(y.s, y.holder.value.sequence, y.holder.value.body, e.answers);
    } else if UsesLanes(y.s) {
      RefusalChangesNothing(y.s, y.laneID, e.request.sequence, e.request.body, e.answers);
    } else {
      MultiplexedRefusalChangesNothing(y.s, e.request.sequence, e.request.body, e.answers);
    }
    RefusalStep(y, e);
  }

  /** In every run, while the relay has the lane object and nobody holds the uplink, the next body of the
      bridge is the one the relay is ready for. */
  lemma NextIsReady(x: UpRun, events: seq<UpEvent>, q: Request)
    requires Fresh(x)
    requires var y := UpRunFrom(x, events);
      && !y.strayed && y.s.panic.None? && PollLaneOf(y.s, y.laneID) == Some(y.r) && y.holder.None?
      && q in y.requests && q.sequence == |y.committed| + 1
    ensures var y := UpRunFrom(x, events);
      && y.r in y.s.lanes && CheckUp(y.s.lanes[y.r], q.sequence, q.body) == Ready
      && (!UsesLanes(y.s) && !y.s.closed ==> UpStep(y, RequestArrives(q, Answers(true, []))).holder == Some(q))
  {
    hide UpStep, Fresh, InvWith, Owns;
    UpReachable(x, events);
    ReadyForNext(UpRunFrom(x, events), q);
  }

  lemma ReadyForNext(y: UpRun, q: Request)
    requires UpInv(y) && !y.strayed && y.s.panic.None? && PollLaneOf(y.s, y.laneID) == Some(y.r) && y.holder.None?
    requires q in y.requests && q.sequence == |y.committed| + 1
    ensures y.r in y.s.lanes && CheckUp(y.s.lanes[y.r], q.sequence, q.body) == Ready
    ensures !UsesLanes(y.s) && !y.s.closed ==> UpStep(y, RequestArrives(q, Answers(true, []))).holder == Some(q)
  {
    hide InvWith, Owns, Younger, SetUpActive;
  }

  /** What a request of this number and body is, given what has been committed: a retry of the last body, another
      body under its number, the next body, or one out of sequence. */
  datatype Standing = Retry | OtherBody | Next | OutOfOrder

  function StandingOf(committed: seq<Bytes>, sequence: nat, body: Bytes): Standing {
    if sequence == |committed| + 1 then Next
    else if sequence == 0 || sequence != |committed| then OutOfOrder
    else if body == committed[sequence - 1] then Retry
    else OtherBody
  }

  /** In every run of a multiplexed session, any request at all, from the bridge or not, is answered by what has
      been committed: a retry of the last body is acknowledged, the next one is taken up, or turned away
      while another is, and everything else fails. */
  lemma MultiplexedAnswers(x: UpRun, events: seq<UpEvent>, sequence: nat, body: Bytes)
    requires Fresh(x)
    requires var y := UpRunFrom(x, events); y.s.panic.None? && !UsesLanes(y.s)
    ensures var y := UpRunFrom(x, events);
      UpBegin(y.s, sequence, body).1
        == if y.s.closed then Gone
           else match StandingOf(y.committed, sequence, body)
                case Retry => Acked
                case Next => if y.holder.Some? then Concurrent else Begun
                case _ => Failed
  {
    hide UpStep, Fresh, InvWith, Owns;
    UpReachable(x, events);
    CheckedByHistory(UpRunFrom(x, events), sequence, body);
  }

  /** The same of a lane that the relay still has: no request finds it busy, and the next body is validated,
      charged and applied. */
  lemma LaneAnswers(x: UpRun, events: seq<UpEvent>, sequence: nat, body: Bytes, a: Answers)
    requires Fresh(x)
    requires var y := UpRunFrom(x, events);
      y.s.panic.None? && UsesLanes(y.s) && !y.strayed && PollLaneOf(y.s, y.laneID) == Some(y.r)
    ensures var y := UpRunFrom(x, events);
      var o := UpLane(y.s, y.laneID, sequence, body, a).1;
      if ClientFrames(y.s, body, Some(y.laneID)).None? then o == Failed
      else if y.s.closed then o == Gone
      else match StandingOf(y.committed, sequence, body)
           case Retry => o == Acked
           case Next =>
             var frames := ClientFrames(y.s, body, Some(y.laneID)).value;
             if !ValidateBatch(y.s, frames) then o == Failed
             else if !RoomForData(y.s, frames, a) then o == Backpressure
             else o == Applied || o == NotApplied
           case _ => o == Failed
  {
    hide UpStep, Fresh, InvWith, ClientFrames, CommitBatch, OnlyLateFrames, ValidateBatch, RoomForData;
    UpReachable(x, events);
    var y := UpRunFrom(x, events);
    CheckedByHistory(y, sequence, body);
    OwnedIsAddressable(y);
    var parsed := ClientFrames(y.s, body, Some(y.laneID));
    if parsed.Some? {
      CommitAnswers(SetUpActive(y.s, y.r, true), y.r, sequence, body, parsed.value, a);
      SameRoom(y.s, y.r, true, parsed.value, a);
    }
  }

  lemma OwnedIsAddressable(y: UpRun)
    requires UpInv(y) && y.s.panic.None? && PollLaneOf(y.s, y.laneID) == Some(y.r)
    ensures UsesLanes(y.s) ==> y.laneID in y.s.carrierLanes && y.laneID <= MAX_STREAM_ID
  {
    hide Accounts, StreamsInv, Placement, LaneObjects;
  }

  /** How the second section of `ProcessUp` ends: the session is over; the body does not parse, has a frame no
      client sends, or is not acceptable; the budget has no room for its DATA; or it is applied. */
  lemma FinishAnswers(s: State, sequence: nat, body: Bytes, a: Answers)
    ensures var o := UpFinish(s, sequence, body, a).1;
      var parsed := ClientFrames(s, body, None);
      if s.closed then o == Gone
      else if parsed.None? || !ValidateBatch(s, parsed.value) then o == Failed
      else if !RoomForData(s, parsed.value, a) then o == Backpressure
      else o == Applied || o == NotApplied
  {
    hide ClientFrames, CommitBatch, ValidateBatch, RoomForData;
    var parsed := ClientFrames(s, body, None);
    if parsed.Some? {
      CommitAnswers(SetUpActive(s, MAIN, false), MAIN, sequence, body, parsed.value, a);
      SameRoom(s, MAIN, false, parsed.value, a);
    }
  }

  /** A body for a lane that the relay does not have: it is acknowledged and dropped if all of it can be late,
      fails if it does not begin with an OPEN, and otherwise is the first of a new lane. */
  lemma MissingLaneAnswers(s: State, laneID: nat, sequence: nat, body: Bytes, a: Answers)
    requires UsesLanes(s) && !s.closed && 0 < laneID <= MAX_STREAM_ID && laneID !in s.carrierLanes
    requires ClientFrames(s, body, Some(laneID)).Some?
    ensures var (t, o) := UpLane(s, laneID, sequence, body, a);
      var frames := ClientFrames(s, body, Some(laneID)).value;
      if exists i :: 0 <= i < |frames| && frames[i].typeCode == OPEN then
        (frames[0].typeCode != OPEN ==> t == s && o == Failed)
        && (frames[0].typeCode == OPEN && sequence != 1 ==> o == Failed && t == AddLane(s, laneID))
      else t == s && o == Acked
  {
    SessionRuns.ClientFramesOnWire(s, body, Some(laneID));
    OnlyLaneShapes(s, laneID, body);
    hide ClientFrames, CommitBatch, ValidateBatch;
    if ClientFrames(s, body, Some(laneID)).value[0].typeCode == OPEN {
      NewLaneChecks(s, laneID, sequence, body);
    }
  }

  lemma OnlyLaneShapes(s: State, laneID: nat, body: Bytes)
    requires ClientFrames(s, body, Some(laneID)).Some? && laneID != 0
    ensures var frames := ClientFrames(s, body, Some(laneID)).value;
      frames != [] && forall i :: 0 <= i < |frames| && frames[i].typeCode != OPEN ==>
        frames[i].typeCode == DATA || frames[i].typeCode == WINDOW || frames[i].typeCode == CLOSE
  {
    hide ParseBody;
    CodecRoundTrip(body, ClientFrames(s, body, Some(laneID)).value, s.limits.maxFramePayload);
  }

  lemma NewLaneChecks(s: State, laneID: nat, sequence: nat, body: Bytes)
    ensures CheckUp(LaneAt(AddLane(s, laneID), s.nextLane), sequence, body)
      == if sequence == 1 then Ready else OutOfSequence
  {
  }

  /** The batch has no DATA to queue, or the session and the manager have room for it. */
  predicate RoomForData(s: State, frames: seq<Frame>, a: Answers) {
    var need := Reservation(s.streams.Keys, frames);
    (need.cost == 0 && need.items == 0)
    || (a.reserved
        && SessionAdmits(s.limits, Amount(s.pendingCost, s.pendingItems), need.cost, need.items, PendingUplink))
  }

  lemma SameRoom(s: State, r: LaneRef, active: bool, frames: seq<Frame>, a: Answers)
    ensures RoomForData(SetUpActive(s, r, active), frames, a) == RoomForData(s, frames, a)
    ensures ValidateBatch(SetUpActive(s, r, active), frames) == ValidateBatch(s, frames)
  {
    hide Reservation, Validate;
  }

  lemma CommitAnswers(s: State, r: LaneRef, sequence: nat, body: Bytes, frames: seq<Frame>, a: Answers)
    ensures var o := CommitBatch(s, r, sequence, body, frames, a).1;
      if !ValidateBatch(s, frames) then o == Failed
      else if !RoomForData(s, frames, a) then o == Backpressure
      else o == Applied || o == NotApplied
  {
    hide ValidateBatch, Reservation, ApplyAll, Release, Committed, SessionAdmits;
  }

  /** The sequence check of the lane the relay has, by what has been committed. */
  lemma CheckedByHistory(y: UpRun, sequence: nat, body: Bytes)
    requires UpInv(y) && !y.strayed && y.s.panic.None? && PollLaneOf(y.s, y.laneID) == Some(y.r)
    ensures y.r in y.s.lanes
    ensures CheckUp(y.s.lanes[y.r], sequence, body)
      == match StandingOf(y.committed, sequence, body)
         case Retry => Acknowledged
         case OtherBody => WrongDigest
         case OutOfOrder => OutOfSequence
         case Next => if y.holder.Some? then Busy else Ready
  {
    hide InvWith, Owns;
  }

  /** The section is an uplink request that ends as concurrent or in backpressure. */
  predicate TurnedAway(s: State, op: SessionRuns.Op) {
    match op
    case OpUpLane(laneID, sequence, body, a) =>
      var o := UpLane(s, laneID, sequence, body, a).1; o == Concurrent || o == Backpressure
    case OpUpBegin(sequence, body) => UpBegin(s, sequence, body).1 == Concurrent
    case OpUpFinish(sequence, body, a) => UpFinish(s, sequence, body, a).1 == Backpressure
    case _ => false
  }

  lemma RefusalStep(y: UpRun, e: UpEvent)
    requires SectionOf(y, e).Some? && !e.Elsewhere? && TurnedAway(y.s, SectionOf(y, e).value)
    ensures var z := UpStep(y, e);
      && z == y.(s := z.s, holder := z.holder, strayed := z.strayed, others := z.others)
      && z.holder == (if e.HolderFinishes? then None else y.holder)
      && z.others == y.others + Younger(y.s, z.s, y.laneID)
      && z.s == (match SectionOf(y, e).value
                 case OpUpLane(laneID, sequence, body, a) => UpLane(y.s, laneID, sequence, body, a).0
                 case OpUpBegin(sequence, body) => UpBegin(y.s, sequence, body).0
                 case OpUpFinish(sequence, body, a) => UpFinish(y.s, sequence, body, a).0
                 case _ => y.s)
  {
    hide UpLane, UpBegin, UpFinish, Strays, Younger;
  }
}
