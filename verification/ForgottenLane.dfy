/** Two runs of HTTPS lanes, from a new session on, in which the relay has forgotten a lane: its stream has
    ended, and as many others after it as the ring holds, so that the lane has left the register
    (`internal/session/session.go`, lines 1339 to 1346). In one, a late body is acknowledged and never
    applied (lines 359 to 371); in the other, a copy of the first body that the network has delayed is
    applied a second time, on a new lane (lines 378 to 381). */
module ForgottenLane {
  import opened Options
  import opened Frames
  import opened Charges
  import opened Budget
  import opened Lanes
  import opened Tombstones
  import opened SessionState
  import opened SessionInv
  import opened SessionSteps
  import opened Application
  import opened Validation
  import opened LaneLink
  import opened Isolation
  import opened LaneRegister
  import opened Uplink
  import opened EvictedTombstone
  import SessionRuns

  function Opening(id: nat): seq<Frame> { [Frame(OPEN, id, [])] }

  /** DATA that arrives after the stream has ended. */
  function Late(id: nat): seq<Frame> { [Frame(DATA, id, [0])] }

  const ADMIT_ONE := Answers(true, [GRANTED])
  const ADMIT_TWO := Answers(true, [GRANTED, GRANTED])

  /** A session of HTTPS lanes with a ring of one and no stream. */
  ghost predicate Calm(s: State) {
    Inv(s) && s.panic.None? && !s.closed && s.carrier == HttpsLanes && s.limits.maxClosedStreamIDs == 1
    && s.streams == map[]
  }

  /** The lane is registered and has committed nothing. */
  predicate NewAt(s: State, id: nat) {
    && id in s.carrierLanes && s.carrierLanes[id] in s.lanes
    && s.lanes[s.carrierLanes[id]].lastUpSequence == 0 && !s.lanes[s.carrierLanes[id]].upActive
  }

  lemma LaneBodyIsRead(s: State, frames: seq<Frame>, id: nat)
    requires 1 <= |frames| <= MAX_BATCH_FRAMES && ValidLimits(s.limits) && id <= MAX_STREAM_ID
    requires forall i :: 0 <= i < |frames| ==>
      ClientShape(frames[i]) && frames[i].streamID == id && |frames[i].payload| <= 1
    ensures ClientFrames(s, EncodeAll(frames), Some(id)) == Some(frames)
  {
    hide ParseBody, ClientShape;
    CodecRoundTrip(EncodeAll(frames), frames, s.limits.maxFramePayload);
  }

  /** What is left when the whole body has been applied. */
  lemma BodyIsCommitted(s: State, id: nat, frames: seq<Frame>, answers: seq<Answer>)
    requires Calm(s) && NewAt(s, id) && id <= MAX_STREAM_ID && ValidateBatch(s, frames)
    requires 1 <= |frames| && OnWire(frames) && (forall i :: 0 <= i < |frames| ==> frames[i].streamID == id)
    requires ClientFrames(s, EncodeAll(frames), Some(id)) == Some(frames)
    requires Reservation(s.streams.Keys, frames) == Amount(0, 0)
    requires var y := ApplyAll(Begin(SetUpActive(s, s.carrierLanes[id], true), frames), frames, answers);
      y.ok && y.state.panic.None? && y.cost == 0 && y.items == 0
    ensures var y := ApplyAll(Begin(SetUpActive(s, s.carrierLanes[id], true), frames), frames, answers);
      var (t, o) := UpLane(s, id, 1, EncodeAll(frames), Answers(true, answers));
      && o == Applied && Inv(t) && t.panic.None? && !t.closed && t.carrier == HttpsLanes && t.limits == s.limits
      && CoreOf(t) == CoreOf(y.state) && t.pendingCost == y.state.pendingCost && t.pendingItems == y.state.pendingItems
  {
    hide InvWith, ApplyAll, ValidateBatch, Reservation, EncodeAll, ClientFrames, OnlyLateFrames, OnWire, Committed,
      CommitBatch;
    var r, body, a := s.carrierLanes[id], EncodeAll(frames), Answers(true, answers);
    var active := SetUpActive(s, r, true);
    ActiveValidates(s, r, frames);
    SessionRuns.CommitCases(active, r, 1, body, frames, a);
    UpOnLaneSpares(s, id, 1, body, frames, a);
    SessionRuns.UpLaneKeepsInv(s, id, 1, body, a);
    SparesMore(s, UpOnLane(s, r, 1, body, frames, a).0, id);
    assert CheckUp(s.lanes[r], 1, body) == Ready;
    SoundInv(UpLane(s, id, 1, body, a).0);
  }

  lemma SparesMore(s: State, t: State, id: nat)
    requires Spares(s, t, id)
    ensures t.closed == s.closed && t.carrier == s.carrier && t.limits == s.limits
  {
  }

  lemma ActiveValidates(s: State, r: LaneRef, frames: seq<Frame>)
    ensures ValidateBatch(SetUpActive(s, r, true), frames) <==> ValidateBatch(s, frames)
  {
  }

  /** The state a body is applied in. */
  lemma ActiveIsCalm(s: State, id: nat)
    requires Calm(s) && NewAt(s, id)
    ensures Calm(SetUpActive(s, s.carrierLanes[id], true))
        && id in SetUpActive(s, s.carrierLanes[id], true).carrierLanes
  {
    hide InvWith;
    SessionRuns.UpActiveKeepsInv(s, s.carrierLanes[id], true);
  }

  // ------------------------------------------------------------------------- two bodies

  lemma OpeningValidates(s: State, id: nat)
    requires s.streams == map[] && id !in s.tombstones.closed && 0 < id <= MAX_STREAM_ID && ValidLimits(s.limits)
    ensures ValidateBatch(s, Opening(id)) && Reservation(s.streams.Keys, Opening(id)) == Amount(0, 0)
    ensures OnWire(Opening(id)) && ClientFrames(s, EncodeAll(Opening(id)), Some(id)) == Some(Opening(id))
  {
    var frames := Opening(id);
    LaneBodyIsRead(s, frames, id);
    hide EncodeAll, ClientFrames;
    var sim := Sim(Snapshots(s.streams), {});
    assert frames[1..] == [] && frames[0].typeCode == OPEN && frames[0].streamID == id;
    assert Accepts(sim, s.tombstones.closed, frames[0]);
    assert Validate(Simulate(sim, s.tombstones.closed, frames[0]), s.tombstones.closed, frames[1..]);
    assert Reservation(s.streams.Keys + {id}, frames[1..]) == Amount(0, 0);
  }

  /** The first body opens the stream. */
  lemma OpensStream(s: State, id: nat)
    requires Calm(s) && NewAt(s, id) && id !in s.tombstones.closed && 0 < id <= MAX_STREAM_ID
    ensures var (t, o) := UpLane(s, id, 1, EncodeAll(Opening(id)), ADMIT_ONE);
      && o == Applied && Inv(t) && t.panic.None? && !t.closed && t.carrier == HttpsLanes && t.limits == s.limits
      && t.streams == map[id := NewStream(s.nextBackend)]
      && t.tombstones == s.tombstones && t.carrierLanes == s.carrierLanes
      && t.pendingCost == s.pendingCost && t.pendingItems == s.pendingItems
  {
    hide LanesInv, Accounts, ClosedInv, ValidateBatch, Reservation, ApplyAll, EncodeAll, OnWire, ClientFrames, UpLane,
      NewStream;
    var frames := Opening(id);
    var active := SetUpActive(s, s.carrierLanes[id], true);
    OpeningValidates(s, id);
    var x := Begin(active, frames);
    assert s.streams.Keys == {};
    ApplyAllOne(x, frames, [GRANTED]);
    NothingMore(ApplyFrame(x, frames[0], GRANTED), frames[1..], [GRANTED][1..]);
    UpLaneCloses(s, id, 1, EncodeAll(frames), ADMIT_ONE);
    assert Registering(s, id) == s;
    hide Calm;
    BodyIsCommitted(s, id, frames, [GRANTED]);
  }

  lemma NothingMore(x: Applying, frames: seq<Frame>, answers: seq<Answer>)
    requires frames == []
    ensures ApplyAll(x, frames, answers) == x
  {
  }

  /** A stream that opens and closes in one body. */
  lemma BriefLaneValidates(s: State, id: nat)
    requires s.streams == map[] && id !in s.tombstones.closed && 0 < id <= MAX_STREAM_ID && ValidLimits(s.limits)
    ensures ValidateBatch(s, Brief(id)) && Reservation(s.streams.Keys, Brief(id)) == Amount(0, 0)
    ensures OnWire(Brief(id)) && ClientFrames(s, EncodeAll(Brief(id)), Some(id)) == Some(Brief(id))
  {
    var frames := Brief(id);
    LaneBodyIsRead(s, frames, id);
    hide EncodeAll, ClientFrames;
    var closed := s.tombstones.closed;
    var s0 := Sim(Snapshots(s.streams), {});
    var s1 := Simulate(s0, closed, frames[0]);
    assert s.streams.Keys == {};
    assert frames[1..] == [frames[1]];
    assert Validate(Simulate(s1, closed, frames[1]), closed, frames[1..][1..]);
    assert Validate(s1, closed, frames[1..]);
    assert Validate(s0, closed, frames);
    assert s.streams.Keys + {id} - {id} == s.streams.Keys;
    assert Reservation(s.streams.Keys, frames[1..][1..]) == Amount(0, 0);
    assert Reservation(s.streams.Keys + {id}, frames[1..]) == Amount(0, 0);
  }

  /** It leaves nothing but its tombstone. */
  lemma BriefFrames(s: State, id: nat)
    requires Calm(s) && id in s.carrierLanes && 0 < id <= MAX_STREAM_ID && id !in s.tombstones.closed
    requires Reservation(s.streams.Keys, Brief(id)) == Amount(0, 0)
    ensures var y := ApplyAll(Begin(s, Brief(id)), Brief(id), [GRANTED, GRANTED]);
      && y.ok && y.state.panic.None? && y.state.streams == map[] && y.cost == 0 && y.items == 0
      && y.state.tombstones == Remember(s.tombstones, id, 1)
  {
    hide LanesInv, Accounts, ClosedInv, Reservation, Remember, ApplyFrame, NewStream, ApplyAll;
    var frames := Brief(id);
    var x0 := Begin(s, frames);
    assert s.streams.Keys == {};
    ApplyFrameKeepsInv(x0, frames[0], GRANTED);
    ApplyFrameCore(x0, frames[0], GRANTED);
    OpenIsAdmitted(x0, frames[0], GRANTED);
    var x1 := ApplyFrame(x0, frames[0], GRANTED);
    ApplyFrameKeepsInv(x1, frames[1], GRANTED);
    ApplyFrameCore(x1, frames[1], GRANTED);
    CloseIsApplied(x1, frames[1], GRANTED);
    ApplyTwo(x0, frames, [GRANTED, GRANTED]);
    assert ApplyFrame(x1, frames[1], GRANTED).state.streams == map[];
  }

  /** With a ring of one, it pushes the other tombstone out, and the other lane. */
  lemma BriefForgets(s: State, id: nat, other: nat)
    requires Calm(s) && NewAt(s, id) && 0 < id <= MAX_STREAM_ID && id != other
    requires s.tombstones.order == [other] && s.tombstones.closed == {other} && s.tombstones.start == 0
    ensures var (t, o) := UpLane(s, id, 1, EncodeAll(Brief(id)), ADMIT_TWO);
      && o == Applied && Calm(t) && t.limits == s.limits && t.tombstones.closed == {id}
      && other !in t.carrierLanes
  {
    hide InvWith, ValidateBatch, Reservation, ApplyAll, EncodeAll, OnWire, ClientFrames, UpLane, Remember, Evicted;
    var active := SetUpActive(s, s.carrierLanes[id], true);
    LimitsOfCalm(s);
    BriefLaneValidates(s, id);
    ActiveIsCalm(s, id);
    BriefFrames(active, id);
    BodyIsCommitted(s, id, Brief(id), [GRANTED, GRANTED]);
    var t := UpLane(s, id, 1, EncodeAll(Brief(id)), ADMIT_TWO).0;
    OtherEvicted(s, id, other);
    UpLaneCloses(s, id, 1, EncodeAll(Brief(id)), ADMIT_TWO);
    assert Registering(s, id) == s;
  }

  lemma LimitsOfCalm(s: State)
    requires Calm(s)
    ensures ValidLimits(s.limits)
  {
    hide StreamsInv, LanesInv, Accounts, ClosedInv;
  }

  lemma OtherEvicted(s: State, id: nat, other: nat)
    requires s.limits.maxClosedStreamIDs == 1 && id != other
    requires s.tombstones.order == [other] && s.tombstones.closed == {other} && s.tombstones.start == 0
    ensures EvictedBy(s, id) == Some(other) && Remember(s.tombstones, id, 1).closed == {id}
  {
    assert {other} + {id} - {other} == {id};
  }

  /** The backend ends its stream, and the relay says so. */
  lemma BackendEndsStream(s: State, id: nat)
    requires Inv(s) && s.panic.None? && !s.closed && s.carrier == HttpsLanes && s.limits.maxClosedStreamIDs == 1
    requires id in s.streams && s.streams == map[id := NewStream(s.streams[id].backend)]
    requires s.tombstones == NO_TOMBSTONES && s.pendingCost == 0 && s.pendingItems == 0
    requires SessionAdmits(s.limits, Amount(0, 0), HEADER_SIZE + QUEUE_ITEM_COST, 1, PendingControl)
    ensures var t := BackendClosed(s, id, s.streams[id].backend, true);
      && Calm(t) && t.limits == s.limits && t.tombstones == Ring({id}, [id], 0) && t.carrierLanes == s.carrierLanes
  {
    hide InvWith, RememberClosed, QueueFrame, Remember, SessionAdmits;
    var backend := s.streams[id].backend;
    var dropped := DropStream(s, id);
    var remembered := RememberClosed(dropped, id);
    InvStream(s, id, 0, 0);
    FirstTombstone(dropped, id);
    RouteOfLive(s, id);
    CloseFits(remembered, id);
    QueueShape(remembered, Frame(CLOSE, id, []), true);
    SessionRuns.BackendClosedKeepsInv(s, id, backend, true);
    assert s.streams - {id} == map[];
    SoundInv(BackendClosed(s, id, backend, true));
  }

  lemma FirstTombstone(s: State, id: nat)
    requires s.tombstones == NO_TOMBSTONES && s.limits.maxClosedStreamIDs == 1
    ensures var t := RememberClosed(s, id);
      t == s.(tombstones := Ring({id}, [id], 0), lanes := t.lanes)
  {
    assert {} + {id} == {id};
  }

  lemma CloseFits(s: State, id: nat)
    requires Route(s, id).Some? && s.pendingCost == 0 && s.pendingItems == 0
    requires SessionAdmits(s.limits, Amount(0, 0), HEADER_SIZE + QUEUE_ITEM_COST, 1, PendingControl)
    ensures QueueFrame(s, Frame(CLOSE, id, []), true).1
  {
    hide SessionAdmits, Enqueue;
  }

  // --------------------------------------------------------------------------- the runs

  /** A first body that opens a stream registers its lane. */
  lemma OpenRegisters(s: State, id: nat, frames: seq<Frame>, a: Answers)
    requires Inv(s) && !s.closed && s.carrier == HttpsLanes && id !in s.carrierLanes && 0 < id <= MAX_STREAM_ID
    requires ClientFrames(s, EncodeAll(frames), Some(id)) == Some(frames) && frames != [] && frames[0].typeCode == OPEN
    ensures UpLane(s, id, 1, EncodeAll(frames), a) == UpLane(AddLane(s, id), id, 1, EncodeAll(frames), a)
    ensures NewAt(AddLane(s, id), id) && Inv(AddLane(s, id))
  {
    hide InvWith, EncodeAll, UpOnLane, OnlyLateFrames, ParseBody, ClientShape;
    AddLaneKeepsInv(s, id, 0, 0);
    SessionRuns.OpensIsNotLate(frames);
  }

  lemma NewLanesSession(limits: Limits)
    requires ValidLimits(limits)
    ensures var s := NewSession(HttpsLanes, limits);
      && Inv(s) && s.panic.None? && !s.closed && s.carrier == HttpsLanes && s.limits == limits && s.streams == map[]
      && s.tombstones == NO_TOMBSTONES && s.pendingCost == 0 && s.pendingItems == 0
      && s.carrierLanes.Keys == {0} && s.nextBackend == 0
  {
    SessionRuns.NewSessionInv(HttpsLanes, limits);
    hide InvWith, ValidLimits;
    NewLanesFields(limits);
    SoundInv(NewSession(HttpsLanes, limits));
  }

  lemma NewLanesFields(limits: Limits)
    ensures var s := NewSession(HttpsLanes, limits);
      && !s.closed && s.carrier == HttpsLanes && s.limits == limits && s.streams == map[]
      && s.tombstones == NO_TOMBSTONES && s.pendingCost == 0 && s.pendingItems == 0
      && s.carrierLanes.Keys == {0} && s.nextBackend == 0
  {
  }

  function FirstRequest(first: nat): Request { Request(1, EncodeAll(Opening(first))) }

  /** The lane's run begins as its OPEN registers it. */
  function Beginning(limits: Limits, first: nat): UpRun {
    var s := NewSession(HttpsLanes, limits);
    Unused(AddLane(s, first), s.nextLane, first)
  }

  /** The page opens a stream, which its backend ends; another opens and ends. */
  function Prelude(first: nat, second: nat): seq<UpEvent> {
    [BridgeTakes(EncodeAll(Opening(first))), RequestArrives(FirstRequest(first), ADMIT_ONE),
     Elsewhere(SessionRuns.OpBackendClosed(first, 0, true)),
     Elsewhere(SessionRuns.OpUpLane(second, 1, EncodeAll(Brief(second)), ADMIT_TWO))]
  }

  lemma OneMore(x: UpRun, events: seq<UpEvent>, e: UpEvent)
    ensures UpRunFrom(x, events + [e]) == UpStep(UpRunFrom(x, events), e)
  {
    hide UpStep;
    UpRunUnfolds(x, events + [e]);
    assert (events + [e])[..|events|] == events;
  }

  lemma FourMore(x: UpRun, past: seq<UpEvent>, events: seq<UpEvent>)
    requires |events| == 4
    ensures UpRunFrom(x, past + events)
         == UpStep(UpStep(UpStep(UpStep(UpRunFrom(x, past), events[0]), events[1]), events[2]), events[3])
  {
    hide UpStep;
    OneMore(x, past, events[0]);
    OneMore(x, past + [events[0]], events[1]);
    OneMore(x, past + [events[0]] + [events[1]], events[2]);
    OneMore(x, past + [events[0]] + [events[1]] + [events[2]], events[3]);
    assert past + events == past + [events[0]] + [events[1]] + [events[2]] + [events[3]];
  }

  /** The session after the lane has been forgotten; its page has sent one body. */
  ghost predicate LaneForgotten(y: UpRun, first: nat, r: LaneRef) {
    && Calm(y.s) && first !in y.s.carrierLanes && first !in y.s.tombstones.closed
    && y == UpRun(y.s, r, first, None, [FirstRequest(first).body], [1], [FirstRequest(first).body], 0,
                  {FirstRequest(first)}, {1}, 1, false)
  }

  lemma OpeningStep(limits: Limits, first: nat) returns (y: UpRun)
    requires ValidLimits(limits) && limits.maxClosedStreamIDs == 1 && 0 < first <= MAX_STREAM_ID
    ensures var x := Beginning(limits, first);
      && Fresh(x)
      && y == UpStep(UpStep(x, BridgeTakes(EncodeAll(Opening(first)))), RequestArrives(FirstRequest(first), ADMIT_ONE))
      && y == UpRun(y.s, x.r, first, None, [FirstRequest(first).body], [1], [FirstRequest(first).body], 0,
                    {FirstRequest(first)}, {1}, 0, false)
      && Inv(y.s) && y.s.panic.None? && !y.s.closed && y.s.carrier == HttpsLanes && y.s.limits == limits
      && y.s.streams == map[first := NewStream(0)] && y.s.tombstones == NO_TOMBSTONES
      && y.s.carrierLanes.Keys == {0, first} && y.s.pendingCost == 0 && y.s.pendingItems == 0
    ensures var s, body := NewSession(HttpsLanes, limits), EncodeAll(Opening(first));
      UpLane(s, first, 1, body, ADMIT_ONE) == UpLane(AddLane(s, first), first, 1, body, ADMIT_ONE)
  {
    hide InvWith, NewSession, UpLane, EncodeAll, ClientFrames, NewStream;
    var s, x := NewSession(HttpsLanes, limits), Beginning(limits, first);
    NewLanesSession(limits);
    OpeningValidates(s, first);
    OpenRegisters(s, first, Opening(first), ADMIT_ONE);
    OwnsNew(s, first);
    OpensStream(x.s, first);
    y := UpStep(UpStep(x, BridgeTakes(EncodeAll(Opening(first)))), RequestArrives(FirstRequest(first), ADMIT_ONE));
  }

  lemma OwnsNew(s: State, id: nat)
    requires Inv(s) && UsesLanes(s) && id !in s.carrierLanes
    ensures Owns(AddLane(s, id), s.nextLane, id) && s.nextLane != MAIN
  {
    hide StreamsInv, LaneInv, Placement, Accounts;
  }

  lemma PreludeStep(x: UpRun, events: seq<UpEvent>)
    requires |events| == 4
    ensures UpRunFrom(x, events) == UpStep(UpStep(UpStep(UpStep(x, events[0]), events[1]), events[2]), events[3])
  {
    hide UpStep;
    var none: seq<UpEvent> := [];
    UpRunUnfolds(x, none);
    FourMore(x, none, events);
    assert none + events == events;
  }

  /** The relay forgets the lane. */
  lemma Forgets(limits: Limits, first: nat, second: nat) returns (y: UpRun)
    requires ValidLimits(limits) && limits.maxClosedStreamIDs == 1
    requires 0 < first <= MAX_STREAM_ID && 0 < second <= MAX_STREAM_ID && first != second
    requires SessionAdmits(limits, Amount(0, 0), HEADER_SIZE + QUEUE_ITEM_COST, 1, PendingControl)
    ensures var x := Beginning(limits, first);
      Fresh(x) && y == UpRunFrom(x, Prelude(first, second)) && LaneForgotten(y, first, x.r)
    ensures var s, body := NewSession(HttpsLanes, limits), EncodeAll(Opening(first));
      UpLane(s, first, 1, body, ADMIT_ONE) == UpLane(AddLane(s, first), first, 1, body, ADMIT_ONE)
  {
    hide InvWith, NewSession, UpLane, EncodeAll, BackendClosed, SessionAdmits, UpRunFrom, Fresh, ValidLimits,
        LaneForgotten;
    var x := Beginning(limits, first);
    var live := OpeningStep(limits, first);
    hide Beginning;
    BackendEndsStream(live.s, first);
    var ended := BackendClosed(live.s, first, 0, true);
    SecondForgets(ended, first, second);
    PreludeStep(x, Prelude(first, second));
    y := UpRunFrom(x, Prelude(first, second));
    ForgetsRun(live, ended, y, first, second);
  }

  /** The second stream pushes the first one's tombstone out of the ring. */
  lemma SecondForgets(s: State, first: nat, second: nat)
    requires Calm(s) && s.tombstones == Ring({first}, [first], 0) && s.carrierLanes.Keys == {0, first}
    requires 0 < first <= MAX_STREAM_ID && 0 < second <= MAX_STREAM_ID && first != second
    ensures var t := UpLane(s, second, 1, EncodeAll(Brief(second)), ADMIT_TWO).0;
      Calm(t) && first !in t.carrierLanes && t.tombstones.closed == {second}
  {
    hide InvWith, UpLane, EncodeAll, ClientFrames;
    LimitsOfCalm(s);
    BriefLaneValidates(s, second);
    OpenRegisters(s, second, Brief(second), ADMIT_TWO);
    BriefForgets(AddLane(s, second), second, first);
  }

  lemma ForgetsRun(live: UpRun, ended: State, y: UpRun, first: nat, second: nat)
    requires first != second && live.s.panic.None? && live.s.tombstones == NO_TOMBSTONES
    requires live == UpRun(live.s, live.r, first, None, [FirstRequest(first).body], [1],
      [FirstRequest(first).body], 0, {FirstRequest(first)}, {1}, 0, false)
    requires ended == BackendClosed(live.s, first, 0, true) && Calm(ended)
        && ended.tombstones == Ring({first}, [first], 0)
    requires y == UpStep(UpStep(live, Prelude(first, second)[2]), Prelude(first, second)[3])
    requires UsesLanes(live.s)
    requires var t := UpLane(ended, second, 1, EncodeAll(Brief(second)), ADMIT_TWO).0;
      Calm(t) && first !in t.carrierLanes && t.tombstones.closed == {second}
    ensures LaneForgotten(y, first, live.r)
  {
    hide InvWith, UpLane, EncodeAll, BackendClosed;
  }

  // ------------------------------------------------------------------------- what goes wrong

  /** The network delivers the first body once more, and it is applied once more: the stream is opened
      again, with another backend. */
  lemma FirstBodyIsAppliedTwice(limits: Limits, first: nat, second: nat)
    requires ValidLimits(limits) && limits.maxClosedStreamIDs == 1
    requires 0 < first <= MAX_STREAM_ID && 0 < second <= MAX_STREAM_ID && first != second
    requires SessionAdmits(limits, Amount(0, 0), HEADER_SIZE + QUEUE_ITEM_COST, 1, PendingControl)
    ensures var x, body := Beginning(limits, first), EncodeAll(Opening(first));
      var y := UpRunFrom(x, Prelude(first, second) + [RequestArrives(Request(1, body), ADMIT_ONE)]);
      Fresh(x) && y.sent == [body] && y.committed == [body, body] && y.order == [1, 1] && first in y.s.streams
  {
    hide Beginning, UpRunFrom, UpStep, Fresh, EncodeAll, ValidLimits, SessionAdmits;
    var y := Forgets(limits, first, second);
    OneMore(Beginning(limits, first), Prelude(first, second), RequestArrives(FirstRequest(first), ADMIT_ONE));
    AppliedAgain(y, first, Beginning(limits, first).r);
  }

  lemma AppliedAgain(y: UpRun, first: nat, r: LaneRef)
    requires LaneForgotten(y, first, r) && 0 < first <= MAX_STREAM_ID
    ensures var body := EncodeAll(Opening(first));
      var z := UpStep(y, RequestArrives(Request(1, body), ADMIT_ONE));
      z.sent == [body] && z.committed == [body, body] && z.order == [1, 1] && first in z.s.streams
  {
    hide InvWith, UpLane, EncodeAll, ClientFrames, Strays, Younger;
    LimitsOfCalm(y.s);
    OpeningValidates(y.s, first);
    OpenRegisters(y.s, first, Opening(first), ADMIT_ONE);
    OpensStream(AddLane(y.s, first), first);
    assert UsesLanes(y.s) && y.laneID == first && FirstRequest(first) in y.requests;
  }

  /** The page sends DATA that it has queued before it learns of the end: the relay acknowledges the body,
      the page takes it off its books, and it has not been committed. */
  lemma LateBodyIsLost(limits: Limits, first: nat, second: nat)
    requires ValidLimits(limits) && limits.maxClosedStreamIDs == 1
    requires 0 < first <= MAX_STREAM_ID && 0 < second <= MAX_STREAM_ID && first != second
    requires SessionAdmits(limits, Amount(0, 0), HEADER_SIZE + QUEUE_ITEM_COST, 1, PendingControl)
    ensures var x, body, late := Beginning(limits, first), EncodeAll(Opening(first)), EncodeAll(Late(first));
      var y := UpRunFrom(x, Prelude(first, second) + Sending(late));
      Fresh(x) && y.sent == [body, late] && y.acked == 2 && y.committed == [body]
  {
    hide Beginning, UpRunFrom, UpStep, Fresh, EncodeAll, ValidLimits, SessionAdmits;
    var y := Forgets(limits, first, second);
    FourMore(Beginning(limits, first), Prelude(first, second), Sending(EncodeAll(Late(first))));
    LostAfter(y, first, Beginning(limits, first).r);
  }

  /** The page has its first body acknowledged, and sends the next. */
  function Sending(late: Bytes): seq<UpEvent> {
    [AckArrives(1), BridgeTakes(late), RequestArrives(Request(2, late), ADMIT_ONE), AckArrives(2)]
  }

  lemma LostAfter(y: UpRun, first: nat, r: LaneRef)
    requires LaneForgotten(y, first, r) && 0 < first <= MAX_STREAM_ID
    ensures var late := EncodeAll(Late(first));
      var events := Sending(late);
      var z := UpStep(UpStep(UpStep(UpStep(y, events[0]), events[1]), events[2]), events[3]);
      z.sent == [FirstRequest(first).body, late] && z.acked == 2 && z.committed == [FirstRequest(first).body]
  {
    hide InvWith, UpLane, EncodeAll, ClientFrames, Strays, Younger;
    LimitsOfCalm(y.s);
    LaneBodyIsRead(y.s, Late(first), first);
    LateIsAcknowledged(y.s, first, Request(2, EncodeAll(Late(first))), ADMIT_ONE);
    var late := EncodeAll(Late(first));
    var y2 := UpStep(UpStep(y, AckArrives(1)), BridgeTakes(late));
    assert y2 == y.(acked := 1, sent := y.sent + [late], requests := y.requests + {Request(2, late)});
    var y3 := UpStep(y2, RequestArrives(Request(2, late), ADMIT_ONE));
    assert y3.acks == {1, 2} && y3.committed == y.committed && y3.sent == y2.sent && y3.acked == 1;
  }
}
