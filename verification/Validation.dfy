/** Validation against application: `validateBatchLocked` simulates a batch on snapshots, and
    `applyBatchLocked` then applies it for real (`internal/session/session.go`). They read different
    tombstones: validation those from before the batch (line 737), application the current ones
    (line 830), which the batch itself may have pushed out. This module proves that they otherwise
    agree, and exactly when that difference matters. */
module Validation {
  import opened Options
  import opened Frames
  import opened Charges
  import opened Budget
  import opened DownQueue
  import opened Lanes
  import opened Tombstones
  import opened SessionState
  import opened SessionInv
  import opened SessionSteps
  import opened Application

  // -------------------------------------------------------- the core of an application

  /** What of the session a batch is validated against. */
  datatype Core = Core(streams: map<nat, Stream>, ring: Ring, nextBackend: nat)

  function CoreOf(s: State): Core { Core(s.streams, s.tombstones, s.nextBackend) }

  predicate AdmittedIn(c: Core, a: Answer, l: Limits) { |c.streams| < l.maxStreamsPerSession && a.ticket }

  predicate Late(c: Core, id: nat) { id in c.ring.closed }

  /** One frame, as far as streams and tombstones are concerned. */
  function CoreStep(c: Core, f: Frame, a: Answer, l: Limits): Core {
    var id := f.streamID;
    if id == 0 then c
    else if f.typeCode == OPEN then
      if AdmittedIn(c, a, l) then
        c.(streams := c.streams[id := NewStream(c.nextBackend)], nextBackend := c.nextBackend + 1)
      else c.(ring := Remember(c.ring, id, l.maxClosedStreamIDs))
    else if Late(c, id) || id !in c.streams then c
    else
      var st := c.streams[id];
      if f.typeCode == DATA then c.(streams := c.streams[id := Fed(st, f.payload)])
      else if f.typeCode == WINDOW then
        c.(streams := c.streams[id := st.(sendCredit := Credited(st.sendCredit, f.payload))])
      else if f.typeCode == CLOSE then
        c.(streams := c.streams - {id}, ring := Remember(c.ring, id, l.maxClosedStreamIDs))
      else c
  }

  /** An applicable frame changes streams and tombstones as its core step says, consumes part of the
      reservation only, and can stop the batch only by refusing a stream. */
  lemma ApplyFrameCore(x: Applying, f: Frame, a: Answer)
    requires InvWith(x.state, x.cost, x.items) && !x.state.closed && x.ok && Applicable(x.state, f, x.cost, x.items)
    ensures var y := ApplyFrame(x, f, a);
      && CoreOf(y.state) == CoreStep(CoreOf(x.state), f, a, x.state.limits)
      && y.state.limits == x.state.limits && y.state.carrier == x.state.carrier && !y.state.closed
      && y.state.lanes.Keys == x.state.lanes.Keys
      && (f.streamID in x.state.carrierLanes ==> f.streamID in y.state.carrierLanes)
      && y.cost <= x.cost && y.items <= x.items
      && (f.typeCode == DATA && f.streamID != 0 && f.streamID in x.state.streams
          && f.streamID !in x.state.tombstones.closed ==>
          && y.cost == x.cost - WriteAmount(x.state.streams[f.streamID], f.payload).cost
          && y.items == x.items - WriteAmount(x.state.streams[f.streamID], f.payload).items)
      && (f.typeCode != DATA || f.streamID == 0 || f.streamID !in x.state.streams ==>
            y.cost == x.cost && y.items == x.items)
  {
    hide InvWith, RememberClosed, QueueFrame, Fed, NewStream, Remember, DropStream, Queueable, Evicted;
    var s, id := x.state, f.streamID;
    TicketAsked(s, a, x.cost, x.items);
    hide AskTicket;
    if id != 0 && f.typeCode == OPEN && !Admitted(s, a) {
      RefusedCore(AskTicket(s, a), id, a.granted, x.cost, x.items);
    } else if id != 0 && f.typeCode == CLOSE && id !in s.tombstones.closed {
      ClosedCore(s, id, x.cost, x.items);
    }
  }

  lemma RefusedCore(s: State, id: nat, granted: bool, cost: int, items: int)
    requires InvWith(s, cost, items) && !s.closed && id !in s.streams && 0 < id <= MAX_STREAM_ID
    requires UsesLanes(s) ==> id in s.carrierLanes
    ensures var t := QueueFrame(RememberClosed(s, id), Frame(CLOSE, id, []), granted).0;
      && CoreOf(t) == Core(s.streams, Remember(s.tombstones, id, s.limits.maxClosedStreamIDs), s.nextBackend)
      && t.limits == s.limits && t.carrier == s.carrier && !t.closed && t.lanes.Keys == s.lanes.Keys
      && (id in s.carrierLanes ==> id in t.carrierLanes)
  {
    hide InvWith, RememberClosed, Remember, Queueable, Enqueue, Admit, SessionAdmits;
    var u := RememberClosed(s, id);
    RememberKeepsInv(s, id, cost, items);
    RememberShape(s, id, cost, items);
    CloseIsQueueable(u, id, cost, items);
    EnqueueRoute(u, Frame(CLOSE, id, []), cost, items);
    QueueShape(u, Frame(CLOSE, id, []), granted);
    QueueKeepsInv(u, Frame(CLOSE, id, []), granted, cost, items);
  }

  lemma EnqueueRoute(s: State, f: Frame, cost: int, items: int)
    requires InvWith(s, cost, items) && Queueable(s, f)
    ensures Route(s, f.streamID).Some? && Route(s, f.streamID).value in s.lanes
  {
    hide StreamsInv, Accounts, Placement, LaneInv;
  }

  lemma ClosedCore(s: State, id: nat, cost: int, items: int)
    requires InvWith(s, cost, items) && !s.closed && id in s.streams
    ensures var t := RememberClosed(DropStream(s, id), id);
      && CoreOf(t) == Core(s.streams - {id}, Remember(s.tombstones, id, s.limits.maxClosedStreamIDs), s.nextBackend)
      && t.limits == s.limits && t.carrier == s.carrier && !t.closed && t.lanes.Keys == s.lanes.Keys
      && (id in s.carrierLanes ==> id in t.carrierLanes)
  {
    hide InvWith, RememberClosed, Remember, DropStream, Evicted;
    DropStreamKeepsInv(s, id, cost, items);
    RememberShape(DropStream(s, id), id, cost, items);
  }

  /** The frame refers to a stream that is neither live nor remembered: the program dereferences nil. */
  predicate Unknown(c: Core, f: Frame) {
    && f.streamID != 0 && (f.typeCode == DATA || f.typeCode == WINDOW || f.typeCode == CLOSE)
    && f.streamID !in c.streams && f.streamID !in c.ring.closed
  }

  lemma UnknownPanics(x: Applying, f: Frame, a: Answer)
    requires Unknown(CoreOf(x.state), f)
    ensures ApplyFrame(x, f, a) == x.(state := x.state.(panic := Some(NilStream)))
  {
  }

  // ----------------------------------------------------- the simulation is linked to it

  /** A live stream has the windows the simulation gives it. */
  predicate Agrees(st: Stream, shot: Snapshot) {
    st.receiveWindow == shot.receiveWindow && st.sendCredit == shot.sendCredit
  }

  /** Core and simulation after the same frames. `past` lists every id remembered, those from before
      the batch first; the ring holds the last of them. The simulation may have more streams live than
      the core: those refused, which are in `past`. */
  ghost predicate Linked(c: Core, sim: Sim, tombstones: set<nat>, past: seq<nat>, capacity: nat) {
    PastInv(c.ring, past, capacity) && LinkedPast(sim, tombstones, past)
    && LinkedStreams(c.streams, sim, tombstones, past)
  }

  ghost predicate PastInv(ring: Ring, past: seq<nat>, capacity: nat) {
    RingInv(ring, capacity) && Distinct(past) && Fifo(ring) == Last(past, capacity)
  }

  predicate LinkedPast(sim: Sim, tombstones: set<nat>, past: seq<nat>) {
    && (forall id :: id in tombstones ==> id in past)
    && (forall id :: id in sim.closed ==> id in past)
    && (forall id :: id in past ==> id in tombstones || id in sim.closed || id in sim.live)
  }

  predicate LinkedStreams(streams: map<nat, Stream>, sim: Sim, tombstones: set<nat>, past: seq<nat>) {
    && (forall id :: id in streams ==> id in sim.live && id !in past && Agrees(streams[id], sim.live[id]))
    && (forall id :: id in sim.live ==> id in streams || id in past)
    && (forall id :: id in sim.live ==> id !in tombstones && id !in sim.closed)
  }

  predicate Remembers(c: Core, f: Frame, a: Answer, l: Limits) {
    && f.streamID != 0
    && (|| (f.typeCode == OPEN && !AdmittedIn(c, a, l))
        || (f.typeCode == CLOSE && f.streamID in c.streams && !Late(c, f.streamID)))
  }

  function PastAfter(c: Core, past: seq<nat>, f: Frame, a: Answer, l: Limits): seq<nat> {
    if Remembers(c, f, a, l) then past + [f.streamID] else past
  }

  lemma RingInPast(ring: Ring, past: seq<nat>, capacity: nat)
    requires PastInv(ring, past, capacity)
    ensures forall id :: id in ring.closed ==> id in past
  {
    assert forall id :: id in Fifo(ring) ==> id in past;
    forall id | id in ring.closed
      ensures id in past
    {
      assert id in ring.order;
      assert id in Fifo(ring);
    }
  }

  lemma RememberKeepsPast(ring: Ring, past: seq<nat>, capacity: nat, id: nat)
    requires PastInv(ring, past, capacity) && id !in past && capacity > 0
    ensures PastInv(Remember(ring, id, capacity), past + [id], capacity)
  {
    hide Remember, RingInv, Fifo, FifoRemember, Last;
    RingRefinesFifo(ring, id, capacity);
    FifoOfLast(past, id, capacity);
  }

  lemma FifoOfLast(past: seq<nat>, id: nat, capacity: nat)
    requires capacity > 0 && id !in past
    ensures FifoRemember(Last(past, capacity), id, capacity) == Last(past + [id], capacity)
  {
    LastShifts(past, id, capacity);
  }

  lemma OpenKeepsLink(c: Core, sim: Sim, tombstones: set<nat>, past: seq<nat>, f: Frame, a: Answer, l: Limits)
    requires ValidLimits(l) && Linked(c, sim, tombstones, past, l.maxClosedStreamIDs)
    requires f.typeCode == OPEN && f.streamID != 0 && Accepts(sim, tombstones, f)
    ensures f.streamID !in c.streams && f.streamID !in past
    ensures Linked(CoreStep(c, f, a, l), Simulate(sim, tombstones, f), tombstones, PastAfter(c, past, f, a, l),
        l.maxClosedStreamIDs)
  {
    hide RingInv, Remember;
    if !AdmittedIn(c, a, l) {
      RememberKeepsPast(c.ring, past, l.maxClosedStreamIDs, f.streamID);
    }
  }

  lemma DataKeepsLink(c: Core, sim: Sim, tombstones: set<nat>, past: seq<nat>, f: Frame, a: Answer, l: Limits)
    requires Linked(c, sim, tombstones, past, l.maxClosedStreamIDs)
    requires (f.typeCode == DATA || f.typeCode == WINDOW) && f.streamID != 0 && Accepts(sim, tombstones, f)
    ensures Linked(CoreStep(c, f, a, l), Simulate(sim, tombstones, f), tombstones, past, l.maxClosedStreamIDs)
  {
    RingInPast(c.ring, past, l.maxClosedStreamIDs);
    hide PastInv;
  }

  lemma CloseKeepsLink(c: Core, sim: Sim, tombstones: set<nat>, past: seq<nat>, f: Frame, a: Answer, l: Limits)
    requires ValidLimits(l) && Linked(c, sim, tombstones, past, l.maxClosedStreamIDs)
    requires f.typeCode == CLOSE && f.streamID != 0 && Accepts(sim, tombstones, f)
    ensures Linked(CoreStep(c, f, a, l), Simulate(sim, tombstones, f), tombstones, PastAfter(c, past, f, a, l),
        l.maxClosedStreamIDs)
  {
    RingInPast(c.ring, past, l.maxClosedStreamIDs);
    if f.streamID in c.streams {
      RememberKeepsPast(c.ring, past, l.maxClosedStreamIDs, f.streamID);
    }
    hide PastInv, Remember;
  }

  /** Core and simulation stay linked through every accepted frame. */
  lemma StepKeepsLink(c: Core, sim: Sim, tombstones: set<nat>, past: seq<nat>, f: Frame, a: Answer, l: Limits)
    requires ValidLimits(l) && Linked(c, sim, tombstones, past, l.maxClosedStreamIDs) && Accepts(sim, tombstones, f)
    ensures Linked(CoreStep(c, f, a, l), Simulate(sim, tombstones, f), tombstones, PastAfter(c, past, f, a, l),
        l.maxClosedStreamIDs)
  {
    if f.streamID != 0 {
      hide Linked, CoreStep;
      if f.typeCode == OPEN { OpenKeepsLink(c, sim, tombstones, past, f, a, l); }
      else if f.typeCode == CLOSE { CloseKeepsLink(c, sim, tombstones, past, f, a, l); }
      else { DataKeepsLink(c, sim, tombstones, past, f, a, l); }
    }
  }

  // ------------------------------------------------------------- what the batch relies on

  /** The ids live after a frame. */
  function LiveAfter(live: set<nat>, f: Frame, a: Answer, l: Limits): set<nat> {
    if f.streamID == 0 then live
    else if f.typeCode == OPEN then if |live| < l.maxStreamsPerSession && a.ticket then live + {f.streamID} else live
    else if f.typeCode == CLOSE then live - {f.streamID}
    else live
  }

  /** The tombstones after a frame, from oldest to newest. */
  function TombstonesAfter(live: set<nat>, fifo: seq<nat>, f: Frame, a: Answer, l: Limits): seq<nat> {
    var refused := f.typeCode == OPEN && !(|live| < l.maxStreamsPerSession && a.ticket);
    var closed := f.typeCode == CLOSE && f.streamID in live;
    if f.streamID != 0 && (refused || closed) then FifoRemember(fifo, f.streamID, l.maxClosedStreamIDs) else fifo
  }

  predicate Refers(f: Frame) { f.streamID != 0 && f.typeCode != OPEN }

  /** No id the batch still refers to has been pushed out of the tombstones by the time it does: from
      the ids live, the tombstones and the manager's answers alone. */
  predicate Retained(live: set<nat>, fifo: seq<nat>, frames: seq<Frame>, answers: seq<Answer>, l: Limits)
    decreases |frames|
  {
    frames == [] ||
    var f, a := frames[0], First(answers);
    && (Refers(f) ==> f.streamID in live || f.streamID in fifo)
    && Retained(LiveAfter(live, f, a, l), TombstonesAfter(live, fifo, f, a, l), frames[1..], Others(answers), l)
  }

  predicate RetainedFrom(c: Core, frames: seq<Frame>, answers: seq<Answer>, l: Limits)
    requires c.ring.start <= |c.ring.order|
  {
    Retained(c.streams.Keys, Fifo(c.ring), frames, answers, l)
  }

  lemma LinkedRing(c: Core, sim: Sim, tombstones: set<nat>, past: seq<nat>, capacity: nat)
    requires Linked(c, sim, tombstones, past, capacity)
    ensures c.ring.start <= |c.ring.order|
    ensures forall id :: id in c.ring.closed <==> id in Fifo(c.ring)
    ensures forall id :: id in c.ring.closed ==> id !in c.streams
  {
    RingInPast(c.ring, past, capacity);
    RingIsFifo(c.ring, capacity);
  }

  lemma RingIsFifo(r: Ring, capacity: nat)
    requires RingInv(r, capacity)
    ensures forall id :: id in r.closed <==> id in Fifo(r)
  {
    forall id
      ensures id in r.closed <==> id in Fifo(r)
    {
      assert r.order == r.order[..r.start] + r.order[r.start..];
    }
  }

  lemma StepIds(c: Core, f: Frame, a: Answer, l: Limits)
    requires RingInv(c.ring, l.maxClosedStreamIDs) && l.maxClosedStreamIDs > 0
    requires forall id :: id in c.ring.closed ==> id !in c.streams
    ensures var next := CoreStep(c, f, a, l);
      && RingInv(next.ring, l.maxClosedStreamIDs)
      && next.streams.Keys == LiveAfter(c.streams.Keys, f, a, l)
      && Fifo(next.ring) == TombstonesAfter(c.streams.Keys, Fifo(c.ring), f, a, l)
  {
    hide RingInv, Fifo, FifoRemember, Fed, NewStream;
    RingRefinesFifo(c.ring, f.streamID, l.maxClosedStreamIDs);
    hide Remember;
    assert |c.streams| == |c.streams.Keys|;
    StreamIds(c, f, a, l);
    var next := CoreStep(c, f, a, l);
    assert next.ring == if Remembers(c, f, a, l) then Remember(c.ring, f.streamID, l.maxClosedStreamIDs) else c.ring;
  }

  lemma StreamIds(c: Core, f: Frame, a: Answer, l: Limits)
    requires forall id :: id in c.ring.closed ==> id !in c.streams
    ensures CoreStep(c, f, a, l).streams.Keys == LiveAfter(c.streams.Keys, f, a, l)
  {
    hide Remember, Fed, NewStream;
    assert |c.streams| == |c.streams.Keys|;
  }

  lemma RetainedStep(c: Core, sim: Sim, tombstones: set<nat>, past: seq<nat>, frames: seq<Frame>,
      answers: seq<Answer>, l: Limits)
    requires ValidLimits(l) && frames != [] && Linked(c, sim, tombstones, past, l.maxClosedStreamIDs)
    requires Accepts(sim, tombstones, frames[0])
    ensures var next := CoreStep(c, frames[0], First(answers), l);
      && c.ring.start <= |c.ring.order| && next.ring.start <= |next.ring.order|
      && (RetainedFrom(c, frames, answers, l)
          <==> !Unknown(c, frames[0]) && RetainedFrom(next, frames[1..], Others(answers), l))
  {
    LinkedRing(c, sim, tombstones, past, l.maxClosedStreamIDs);
    StepIds(c, frames[0], First(answers), l);
    hide Linked, Remember, Fifo, CoreStep, LiveAfter, TombstonesAfter;
  }

  // ------------------------------------------------------------------ the reservation

  /** The ids whose DATA the reservation counts, after a frame. */
  function CountedAfter(counted: set<nat>, f: Frame): set<nat> {
    if f.streamID == 0 then counted
    else if f.typeCode == OPEN then counted + {f.streamID}
    else if f.typeCode == CLOSE then counted - {f.streamID}
    else counted
  }

  /** What is left of the reservation covers the rest of the batch. */
  predicate Covered(c: Core, counted: set<nat>, cost: int, items: int, frames: seq<Frame>) {
    var need := Reservation(counted, frames);
    c.streams.Keys <= counted && cost >= need.cost && items >= need.items
  }

  lemma CoveredStep(c: Core, counted: set<nat>, cost: int, items: int, frames: seq<Frame>, a: Answer, l: Limits)
    requires frames != [] && Covered(c, counted, cost, items, frames)
    requires forall id :: id in c.ring.closed ==> id !in c.streams
    ensures var f := frames[0];
      var feeds := f.streamID != 0 && f.typeCode == DATA && f.streamID in c.streams;
      var amount := if feeds then WriteAmount(c.streams[f.streamID], f.payload) else Amount(0, 0);
      && (f.streamID != 0 && f.typeCode == DATA && f.streamID in c.streams ==>
          WriteAmount(c.streams[f.streamID], f.payload).cost <= cost
          && WriteAmount(c.streams[f.streamID], f.payload).items <= items)
      && Covered(CoreStep(c, f, a, l), CountedAfter(counted, f), cost - amount.cost, items - amount.items, frames[1..])
  {
    hide Fed, NewStream, Remember;
    var f := frames[0];
    var need := Reservation(counted, frames);
    var rest := Reservation(CountedAfter(counted, f), frames[1..]);
    assert need.cost >= rest.cost && need.items >= rest.items;
  }

  // ------------------------------------------------------------------- the whole batch

  /** What the frames of a body are on the wire. */
  predicate OnWire(frames: seq<Frame>) {
    forall i :: 0 <= i < |frames| ==> frames[i].streamID <= MAX_STREAM_ID && |frames[i].payload| <= MAX_PAYLOAD
  }

  /** In lane modes a body is all about one registered lane. */
  predicate OnOneLane(s: State, frames: seq<Frame>, laneID: nat) {
    UsesLanes(s) ==> laneID in s.carrierLanes && forall i :: 0 <= i < |frames| ==> frames[i].streamID == laneID
  }

  /** Application in step with the simulation. */
  ghost predicate InStep(x: Applying, sim: Sim, tombstones: set<nat>, past: seq<nat>, counted: set<nat>,
      frames: seq<Frame>, laneID: nat) {
    && InvWith(x.state, x.cost, x.items) && !x.state.closed && x.ok
    && Linked(CoreOf(x.state), sim, tombstones, past, x.state.limits.maxClosedStreamIDs)
    && Covered(CoreOf(x.state), counted, x.cost, x.items, frames)
    && Validate(sim, tombstones, frames) && OnWire(frames) && OnOneLane(x.state, frames, laneID)
  }

  lemma AcceptedFits(c: Core, sim: Sim, tombstones: set<nat>, past: seq<nat>, f: Frame, capacity: nat)
    requires Linked(c, sim, tombstones, past, capacity) && Accepts(sim, tombstones, f) && f.streamID != 0
    ensures f.typeCode == OPEN ==> f.streamID !in c.streams && f.streamID !in c.ring.closed
    ensures f.typeCode == DATA && f.streamID in c.streams ==> |f.payload| % TWO32 <= c.streams[f.streamID].receiveWindow
    ensures forall id :: id in c.ring.closed ==> id !in c.streams
  {
    RingInPast(c.ring, past, capacity);
    hide PastInv;
  }

  lemma KnownIsApplicable(x: Applying, sim: Sim, tombstones: set<nat>, past: seq<nat>, counted: set<nat>,
      frames: seq<Frame>, laneID: nat)
    requires frames != [] && InStep(x, sim, tombstones, past, counted, frames, laneID)
    requires !Unknown(CoreOf(x.state), frames[0])
    ensures Applicable(x.state, frames[0], x.cost, x.items)
    ensures forall id :: id in x.state.tombstones.closed ==> id !in x.state.streams
  {
    hide InvWith, Linked, Covered, CoreStep, WriteAmount, Accepts, Simulate;
    var f, c := frames[0], CoreOf(x.state);
    if f.streamID != 0 {
      AcceptedFits(c, sim, tombstones, past, f, x.state.limits.maxClosedStreamIDs);
      CoveredStep(c, counted, x.cost, x.items, frames, Answer(false, false), x.state.limits);
      assert |f.payload| % TWO32 == |f.payload|;
    } else {
      LinkedRing(c, sim, tombstones, past, x.state.limits.maxClosedStreamIDs);
    }
  }

  lemma KnownStaysInStep(x: Applying, sim: Sim, tombstones: set<nat>, past: seq<nat>, counted: set<nat>,
      frames: seq<Frame>, laneID: nat, a: Answer)
    requires frames != [] && InStep(x, sim, tombstones, past, counted, frames, laneID)
    requires !Unknown(CoreOf(x.state), frames[0])
    ensures var y := ApplyFrame(x, frames[0], a);
      var c := CoreOf(x.state);
      && InvWith(y.state, y.cost, y.items) && y.cost <= x.cost && y.items <= x.items
      && CoreOf(y.state) == CoreStep(c, frames[0], a, x.state.limits) && y.state.limits == x.state.limits
      && y.state.lanes.Keys == x.state.lanes.Keys && y.state.carrier == x.state.carrier && !y.state.closed
      && (y.ok ==>
            InStep(y, Simulate(sim, tombstones, frames[0]), tombstones,
                PastAfter(c, past, frames[0], a, x.state.limits),
                          CountedAfter(counted, frames[0]), frames[1..], laneID))
  {
    hide InvWith, Linked, ApplyFrame, CoreStep, Simulate, PastAfter, Accepts, Applicable, CountedAfter, Covered,
      WriteAmount, Unknown;
    var f, c, l := frames[0], CoreOf(x.state), x.state.limits;
    KnownIsApplicable(x, sim, tombstones, past, counted, frames, laneID);
    ApplyFrameKeepsInv(x, f, a);
    ApplyFrameCore(x, f, a);
    InvLimits(x.state, x.cost, x.items);
    StepKeepsLink(c, sim, tombstones, past, f, a, l);
    CoveredStep(c, counted, x.cost, x.items, frames, a, l);
  }

  lemma InvLimits(s: State, cost: int, items: int)
    requires InvWith(s, cost, items)
    ensures ValidLimits(s.limits) && s.panic == None
  {
  }

  function SimulateAll(sim: Sim, tombstones: set<nat>, frames: seq<Frame>): Sim
    decreases |frames|
  {
    if frames == [] then sim else SimulateAll(Simulate(sim, tombstones, frames[0]), tombstones, frames[1..])
  }

  /** The streams that are live have the windows the simulation ended with. */
  predicate WindowsAgree(streams: map<nat, Stream>, sim: Sim) {
    forall id :: id in streams ==> id in sim.live && Agrees(streams[id], sim.live[id])
  }

  /** How a validated batch can end: it panics exactly when it refers to an id it no longer retains
      (unless a refused stream stopped it first), and otherwise has kept the invariant, consumed part of
      its reservation, and left every live stream with the simulated windows. */
  ghost predicate WellApplied(x: Applying, y: Applying, sim: Sim, retained: bool) {
    && (y.state.panic.Some? ==> y.state.panic == Some(NilStream) && !retained)
    && (y.state.panic.None? ==>
        && InvWith(y.state, y.cost, y.items) && y.cost <= x.cost && y.items <= x.items
        && y.state.limits == x.state.limits && y.state.carrier == x.state.carrier && !y.state.closed
        && y.state.lanes.Keys == x.state.lanes.Keys
        && (y.ok ==> retained && WindowsAgree(y.state.streams, sim)))
  }

  lemma {:induction false} AppliesAsSimulated(
      x: Applying, sim: Sim, tombstones: set<nat>, past: seq<nat>, counted: set<nat>,
      frames: seq<Frame>, laneID: nat, answers: seq<Answer>)
    requires InStep(x, sim, tombstones, past, counted, frames, laneID)
    ensures CoreOf(x.state).ring.start <= |CoreOf(x.state).ring.order|
    ensures WellApplied(x, ApplyAll(x, frames, answers), SimulateAll(sim, tombstones, frames),
                        RetainedFrom(CoreOf(x.state), frames, answers, x.state.limits))
    decreases |frames|
  {
    hide InvWith, Linked, ApplyFrame, CoreStep, Simulate, PastAfter, Accepts, CountedAfter, Covered, Unknown, Agrees,
      OnOneLane;
    var c, l := CoreOf(x.state), x.state.limits;
    LinkedRing(c, sim, tombstones, past, l.maxClosedStreamIDs);
    InvLimits(x.state, x.cost, x.items);
    if frames == [] {
      LinkedAgrees(c, sim, tombstones, past, l.maxClosedStreamIDs);
    } else {
      var f, a := frames[0], First(answers);
      RetainedStep(c, sim, tombstones, past, frames, answers, l);
      if Unknown(c, f) {
        UnknownPanics(x, f, a);
      } else {
        KnownStaysInStep(x, sim, tombstones, past, counted, frames, laneID, a);
        var y := ApplyFrame(x, f, a);
        hide RetainedFrom;
        if y.ok {
          AppliesAsSimulated(y, Simulate(sim, tombstones, f), tombstones, PastAfter(c, past, f, a, l),
                             CountedAfter(counted, f), frames[1..], laneID, Others(answers));
        } else {
          InvLimits(y.state, y.cost, y.items);
        }
      }
    }
  }

  lemma LinkedAgrees(c: Core, sim: Sim, tombstones: set<nat>, past: seq<nat>, capacity: nat)
    requires Linked(c, sim, tombstones, past, capacity)
    ensures WindowsAgree(c.streams, sim)
  {
    hide PastInv;
  }

  // ------------------------------------------------------------------ the main theorem

  /** A batch that has just been validated and reserved. */
  function Begin(s: State, frames: seq<Frame>): Applying {
    var need := Reservation(s.streams.Keys, frames);
    Applying(s, need.cost, need.items, [], [], true)
  }

  lemma BatchStartsInStep(s: State, frames: seq<Frame>, laneID: nat)
    requires InvWith(s, Begin(s, frames).cost, Begin(s, frames).items) && !s.closed
    requires ValidateBatch(s, frames) && OnWire(frames) && OnOneLane(s, frames, laneID)
    ensures s.tombstones.start <= |s.tombstones.order|
    ensures InStep(Begin(s, frames), Sim(Snapshots(s.streams), {}), s.tombstones.closed, Fifo(s.tombstones),
        s.streams.Keys, frames, laneID)
  {
    hide LanesInv, Accounts, Validate, Reservation, OnOneLane;
    var capacity := s.limits.maxClosedStreamIDs;
    RingIsFifo(s.tombstones, capacity);
    FifoIsDistinct(s.tombstones, capacity);
    assert forall id :: id in s.streams ==> Agrees(s.streams[id], Snapshots(s.streams)[id]);
  }

  lemma FifoIsDistinct(r: Ring, capacity: nat)
    requires RingInv(r, capacity)
    ensures Distinct(Fifo(r)) && |Fifo(r)| == |r.order| && Fifo(r) == Last(Fifo(r), capacity)
  {
  }

  /** Validation agrees with application. For every validated batch, of every size, whatever the manager
      answers: it is applied without touching a missing stream, without a window underflow, within its
      reservation, leaving the budget exact and every live stream with the windows validation computed
      for it, unless it refers to an id whose tombstone it has itself pushed out; and if it does, and is
      not stopped before, the program dereferences nil. */
  lemma ValidatedBatch(s: State, frames: seq<Frame>, laneID: nat, answers: seq<Answer>)
    requires InvWith(s, Begin(s, frames).cost, Begin(s, frames).items) && !s.closed
    requires ValidateBatch(s, frames) && OnWire(frames) && OnOneLane(s, frames, laneID)
    ensures s.tombstones.start <= |s.tombstones.order|
    ensures var x := Begin(s, frames);
      var y := ApplyAll(x, frames, answers);
      var retained := Retained(s.streams.Keys, Fifo(s.tombstones), frames, answers, s.limits);
      && (y.ok ==> (y.state.panic.Some? <==> !retained))
      && (y.state.panic.Some? ==> y.state.panic == Some(NilStream) && !retained)
      && (y.state.panic.None? ==>
          && InvWith(y.state, y.cost, y.items) && 0 <= y.cost <= x.cost && 0 <= y.items <= x.items
          && (y.ok ==>
                WindowsAgree(y.state.streams, SimulateAll(Sim(Snapshots(s.streams), {}), s.tombstones.closed, frames))))
  {
    BatchStartsInStep(s, frames, laneID);
    AppliesAsSimulated(Begin(s, frames), Sim(Snapshots(s.streams), {}), s.tombstones.closed, Fifo(s.tombstones),
                       s.streams.Keys, frames, laneID, answers);
    hide InvWith, Reservation, WindowsAgree, SimulateAll;
    var y := ApplyAll(Begin(s, frames), frames, answers);
    if y.state.panic.None? {
      InvAmounts(y.state, y.cost, y.items);
    }
  }

  // ---------------------------------------------------- when every id is surely retained

  function CountOpenClose(frames: seq<Frame>): nat {
    if frames == [] then 0
    else (if frames[0].typeCode == OPEN || frames[0].typeCode == CLOSE then 1 else 0) + CountOpenClose(frames[1..])
  }

  /** An id that validation would resolve is still live or remembered. */
  predicate Resolvable(id: nat, sim: Sim, tombstones: set<nat>, live: set<nat>, fifo: seq<nat>) {
    WasClosed(sim, tombstones, id) || id in sim.live ==> id in live || id in fifo
  }

  lemma RememberedIn(fifo: seq<nat>, id: nat, capacity: nat)
    requires capacity > 0
    ensures id in FifoRemember(fifo, id, capacity)
    ensures |fifo| < capacity ==> forall x :: x in fifo ==> x in FifoRemember(fifo, id, capacity)
    ensures |FifoRemember(fifo, id, capacity)| <= |fifo| + 1
  {
    assert (fifo + [id])[|fifo|] == id;
    if fifo != [] {
      assert (fifo[1..] + [id])[|fifo| - 1] == id;
    }
  }

  /** A frame about another id, while there is room, or about this id, keeps it resolvable. */
  lemma StaysResolvable(id: nat, sim: Sim, tombstones: set<nat>, live: set<nat>, fifo: seq<nat>, f: Frame, a: Answer,
      l: Limits)
    requires l.maxClosedStreamIDs > 0 && Resolvable(id, sim, tombstones, live, fifo) && Accepts(sim, tombstones, f)
    requires f.streamID == id || f.streamID == 0 || |fifo| < l.maxClosedStreamIDs
        || (f.typeCode != OPEN && f.typeCode != CLOSE)
    ensures Resolvable(id, Simulate(sim, tombstones, f), tombstones, LiveAfter(live, f, a, l),
        TombstonesAfter(live, fifo, f, a, l))
  {
    RememberedIn(fifo, f.streamID, l.maxClosedStreamIDs);
    hide FifoRemember;
  }

  /** Room for every id the batch may close or be refused is enough. */
  lemma {:induction false} RoomRetains(sim: Sim, tombstones: set<nat>, live: set<nat>, fifo: seq<nat>,
      frames: seq<Frame>, answers: seq<Answer>, l: Limits)
    requires Validate(sim, tombstones, frames) && (forall id :: Resolvable(id, sim, tombstones, live, fifo))
    requires |fifo| + CountOpenClose(frames) <= l.maxClosedStreamIDs && l.maxClosedStreamIDs > 0
    ensures Retained(live, fifo, frames, answers, l)
    decreases |frames|
  {
    if frames != [] {
      var f, a := frames[0], First(answers);
      assert Resolvable(f.streamID, sim, tombstones, live, fifo);
      forall id
        ensures Resolvable(id, Simulate(sim, tombstones, f), tombstones, LiveAfter(live, f, a, l),
            TombstonesAfter(live, fifo, f, a, l))
      {
        StaysResolvable(id, sim, tombstones, live, fifo, f, a, l);
      }
      RememberedIn(fifo, f.streamID, l.maxClosedStreamIDs);
      hide FifoRemember, Resolvable, Simulate, LiveAfter;
      RoomRetains(Simulate(sim, tombstones, f), tombstones, LiveAfter(live, f, a, l),
          TombstonesAfter(live, fifo, f, a, l), frames[1..], Others(answers), l);
    }
  }

  /** A batch about one stream, as every lane's is, never pushes out what it refers to. */
  lemma {:induction false} OneStreamRetains(sim: Sim, tombstones: set<nat>, live: set<nat>, fifo: seq<nat>,
      frames: seq<Frame>, answers: seq<Answer>, l: Limits, laneID: nat)
    requires Validate(sim, tombstones, frames) && Resolvable(laneID, sim, tombstones, live, fifo)
    requires (forall i :: 0 <= i < |frames| ==> frames[i].streamID == laneID) && l.maxClosedStreamIDs > 0
    ensures Retained(live, fifo, frames, answers, l)
    decreases |frames|
  {
    if frames != [] {
      var f, a := frames[0], First(answers);
      StaysResolvable(laneID, sim, tombstones, live, fifo, f, a, l);
      assert f.streamID == laneID;
      hide Resolvable, Simulate, LiveAfter, TombstonesAfter;
      OneStreamRetains(Simulate(sim, tombstones, f), tombstones, LiveAfter(live, f, a, l),
          TombstonesAfter(live, fifo, f, a, l), frames[1..], Others(answers), l, laneID);
    }
  }

  /** The condition of `ValidatedBatch` holds for every lane body, and for every body as long as the
      tombstones and the batch's OPEN and CLOSE frames together stay within the ring. */
  lemma SurelyRetained(s: State, frames: seq<Frame>, answers: seq<Answer>, laneID: nat)
    requires ValidLimits(s.limits) && StreamsInv(s) && ValidateBatch(s, frames)
    requires || (forall i :: 0 <= i < |frames| ==> frames[i].streamID == laneID)
             || |s.tombstones.order| + CountOpenClose(frames) <= s.limits.maxClosedStreamIDs
    ensures s.tombstones.start <= |s.tombstones.order|
    ensures Retained(s.streams.Keys, Fifo(s.tombstones), frames, answers, s.limits)
  {
    hide StreamInv, Validate, Retained;
    var sim := Sim(Snapshots(s.streams), {});
    RingIsFifo(s.tombstones, s.limits.maxClosedStreamIDs);
    FifoIsDistinct(s.tombstones, s.limits.maxClosedStreamIDs);
    assert forall id :: Resolvable(id, sim, s.tombstones.closed, s.streams.Keys, Fifo(s.tombstones));
    if forall i :: 0 <= i < |frames| ==> frames[i].streamID == laneID {
      OneStreamRetains(sim, s.tombstones.closed, s.streams.Keys, Fifo(s.tombstones), frames, answers, s.limits,
          laneID);
    } else {
      RoomRetains(sim, s.tombstones.closed, s.streams.Keys, Fifo(s.tombstones), frames, answers, s.limits);
    }
  }

  /** A batch that opens and closes one stream and then sends late DATA for another. */
  function Evicting(other: nat, tombstone: nat): seq<Frame> {
    [Frame(OPEN, other, []), Frame(CLOSE, other, []), Frame(DATA, tombstone, [0])]
  }

  lemma EvictingValidates(tombstone: nat, other: nat)
    requires 0 < other && 0 < tombstone && other != tombstone
    ensures Validate(Sim(map[], {}), {tombstone}, Evicting(other, tombstone))
    ensures Reservation({}, Evicting(other, tombstone)) == Amount(0, 0)
  {
    var frames := Evicting(other, tombstone);
    var s0 := Sim(map[], {});
    var s1 := Simulate(s0, {tombstone}, frames[0]);
    var s2 := Simulate(s1, {tombstone}, frames[1]);
    assert frames[1..][0] == frames[1] && frames[1..][1..] == [frames[2]];
    assert Validate(s2, {tombstone}, [frames[2]]);
    assert Validate(s1, {tombstone}, frames[1..]);
    var none: set<nat> := {};
    assert none + {other} - {other} == none;
    assert Reservation(none, [frames[2]]) == Amount(0, 0);
    assert Reservation(none + {other}, frames[1..]) == Amount(0, 0);
  }

  lemma EvictedByOne(r: Ring, tombstone: nat, other: nat)
    requires r.order == [tombstone] && r.start == 0 && r.closed == {tombstone} && other != tombstone
    ensures Remember(r, other, 1).closed == {other}
  {
  }

  /** The condition is needed: with a ring of one tombstone, opening and closing another stream pushes
      the id out that the batch then refers to, which validation, reading the tombstones from before
      the batch, accepts. The program dereferences nil. */
  lemma EvictedTombstonePanics(s: State, tombstone: nat, other: nat, a: Answer)
    requires Inv(s) && !s.closed && !UsesLanes(s) && s.streams == map[]
    requires s.limits.maxClosedStreamIDs == 1 && s.tombstones.order == [tombstone]
    requires 0 < other <= MAX_STREAM_ID && 0 < tombstone <= MAX_STREAM_ID && other != tombstone && a.ticket
    ensures ValidateBatch(s, Evicting(other, tombstone))
    ensures ApplyAll(Begin(s, Evicting(other, tombstone)), Evicting(other, tombstone), [a, a, a]).state.panic
      == Some(NilStream)
  {
    hide LanesInv, Accounts, ClosedInv, Validate, Reservation, Remember, ApplyFrame, Fed, NewStream;
    var frames := Evicting(other, tombstone);
    EvictingValidates(tombstone, other);
    assert s.tombstones.closed == {tombstone};
    assert Snapshots(s.streams) == map[];
    var x0 := Begin(s, frames);
    assert s.streams.Keys == {};
    ApplyFrameKeepsInv(x0, frames[0], a);
    ApplyFrameCore(x0, frames[0], a);
    OpenIsAdmitted(x0, frames[0], a);
    var x1 := ApplyFrame(x0, frames[0], a);
    ApplyFrameCore(x1, frames[1], a);
    CloseIsApplied(x1, frames[1], a);
    ApplyFrameKeepsInv(x1, frames[1], a);
    var x2 := ApplyFrame(x1, frames[1], a);
    EvictedByOne(s.tombstones, tombstone, other);
    assert CoreOf(x2.state).ring == Remember(s.tombstones, other, 1);
    assert x2.state.streams == map[];
    UnknownPanics(x2, frames[2], a);
    ApplyThree(x0, frames, [a, a, a]);
  }

  lemma OpenIsAdmitted(x: Applying, f: Frame, a: Answer)
    requires f.streamID != 0 && f.typeCode == OPEN && Admitted(x.state, a) && x.ok
    ensures ApplyFrame(x, f, a).ok
  {
  }

  lemma CloseIsApplied(x: Applying, f: Frame, a: Answer)
    requires f.streamID != 0 && f.typeCode == CLOSE && x.ok
    ensures ApplyFrame(x, f, a).ok
  {
    hide DropStream, RememberClosed;
  }

  lemma ApplyThree(x: Applying, frames: seq<Frame>, answers: seq<Answer>)
    requires |frames| == 3 && |answers| == 3
    requires var y := ApplyFrame(x, frames[0], answers[0]);
      var z := ApplyFrame(y, frames[1], answers[1]);
      && x.ok && x.state.panic.None? && y.ok && y.state.panic.None? && z.ok && z.state.panic.None?
    ensures ApplyAll(x, frames, answers)
         == ApplyFrame(ApplyFrame(ApplyFrame(x, frames[0], answers[0]), frames[1], answers[1]), frames[2], answers[2])
  {
    hide ApplyFrame;
    var y := ApplyFrame(x, frames[0], answers[0]);
    var z := ApplyFrame(y, frames[1], answers[1]);
    var w := ApplyFrame(z, frames[2], answers[2]);
    ApplyAllOne(x, frames, answers);
    ApplyAllOne(y, frames[1..], answers[1..]);
    ApplyAllOne(z, frames[1..][1..], answers[1..][1..]);
    assert frames[1..][1..][1..] == [];
  }

  lemma ApplyAllOne(x: Applying, frames: seq<Frame>, answers: seq<Answer>)
    requires frames != [] && answers != [] && x.ok && x.state.panic.None?
    ensures ApplyAll(x, frames, answers) == ApplyAll(ApplyFrame(x, frames[0], answers[0]), frames[1..], answers[1..])
  {
    hide ApplyFrame;
  }
}
