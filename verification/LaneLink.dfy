/** The lane theorems of `LaneRuns` apply to every lane of a session: whatever a critical section of the
    session does (`internal/session/session.go`), each of its lane objects goes through a list of the
    events `LaneRuns` allows, and the sections of a lane's polls are the events of its run. */
module LaneLink {
  import opened Options
  import opened Frames
  import opened Budget
  import opened DownQueue
  import opened Lanes
  import opened Tombstones
  import opened SessionState
  import opened SessionInv
  import opened SessionSteps
  import opened Application
  import opened Validation
  import Runs = LaneRuns
  import SessionRuns

  /** Two lanes agree in all but the fields of their uplinks. */
  predicate SameDown(a: Lane, b: Lane) {
    && a.queue == b.queue && a.unacked == b.unacked && a.unackedCost == b.unackedCost
    && a.unackedItems == b.unackedItems
    && a.unackedBase == b.unackedBase && a.downCursor == b.downCursor
    && a.downActive == b.downActive && a.superseded == b.superseded && a.notify == b.notify
  }

  function ConfigOf(s: State): Runs.Config {
    Runs.Config(s.limits.maxFramePayload, s.limits.carrierBatchBytes)
  }

  /** Lane object `r` was created for `laneID`; a multiplexed session's own lane is for none. */
  predicate Owns(s: State, r: LaneRef, laneID: nat) {
    && r in s.lanes
    && (r == MAIN ==> !UsesLanes(s))
    && forall id :: id in s.carrierLanes && s.carrierLanes[id] == r ==> id == laneID
  }

  /** The run `x` is in the state the session's lane is in. Once the lane is detached it no longer
      matters whether its stream has ended. */
  ghost predicate Follows(x: Runs.Run, s: State, r: LaneRef, laneID: nat) {
    && Owns(s, r, laneID)
    && SameDown(x.lane, s.lanes[r])
    && SameCondition(x.condition, ConditionOf(s, r, laneID))
  }

  predicate SameCondition(a: Condition, b: Condition) {
    a.closed == b.closed && a.detached == b.detached && (!b.detached ==> a.ended == b.ended)
  }

  /** What the rest of a session can do to a lane's run, other than queueing DATA or WINDOW frames. */
  predicate FromOutside(e: Runs.Event) {
    (e.FramePushed? && e.frame.typeCode == CLOSE) || e.StreamEnds? || e.LaneDetached? || e.SessionCloses?
    || e.Signalled?
  }

  predicate AllFromOutside(events: seq<Runs.Event>) {
    forall i :: 0 <= i < |events| ==> FromOutside(events[i])
  }

  /** From `s` to `t` the lane goes through events from outside only. */
  ghost predicate Tracked(s: State, t: State, r: LaneRef, laneID: nat) {
    && t.limits == s.limits
    && forall x: Runs.Run :: Follows(x, s, r, laneID) ==> Reaches(x, t, r, laneID)
  }

  ghost predicate Reaches(x: Runs.Run, t: State, r: LaneRef, laneID: nat) {
    exists events :: AllFromOutside(events) && Follows(Runs.RunFrom(x, events, ConfigOf(t)), t, r, laneID)
  }

  lemma ReachesAtOnce(x: Runs.Run, t: State, r: LaneRef, laneID: nat)
    requires Follows(x, t, r, laneID)
    ensures Reaches(x, t, r, laneID)
  {
    hide Follows;
    assert AllFromOutside([]);
    assert Runs.RunFrom(x, [], ConfigOf(t)) == x;
  }

  lemma ReachesByOne(x: Runs.Run, e: Runs.Event, t: State, r: LaneRef, laneID: nat)
    requires FromOutside(e) && Follows(Runs.Step(x, e, ConfigOf(t)), t, r, laneID)
    ensures Reaches(x, t, r, laneID)
  {
    hide Follows, Runs.Step;
    RunOne(x, e, ConfigOf(t));
    assert AllFromOutside([e]);
  }

  lemma RunOne(x: Runs.Run, e: Runs.Event, c: Runs.Config)
    ensures Runs.RunFrom(x, [e], c) == Runs.Step(x, e, c)
  {
    hide Runs.Step;
    var events := [e];
    assert events[..|events| - 1] == [];
    Runs.RunUnfolds(x, events, c);
    Runs.RunUnfolds(x, [], c);
  }

  lemma {:induction false} RunConcat(x: Runs.Run, a: seq<Runs.Event>, b: seq<Runs.Event>, c: Runs.Config)
    ensures Runs.RunFrom(x, a + b, c) == Runs.RunFrom(Runs.RunFrom(x, a, c), b, c)
  {
    hide Runs.Step;
    var y := Runs.RunFrom(x, a, c);
    Runs.RunUnfolds(x, a + b, c);
    Runs.RunUnfolds(y, b, c);
    if b == [] {
      assert a + b == a;
    } else {
      assert (a + b)[..|a + b| - 1] == a + b[..|b| - 1];
      RunConcat(x, a, b[..|b| - 1], c);
    }
  }

  lemma TrackedThen(s: State, t: State, u: State, r: LaneRef, laneID: nat)
    requires Tracked(s, t, r, laneID) && Tracked(t, u, r, laneID)
    ensures Tracked(s, u, r, laneID)
  {
    hide Follows;
    forall x: Runs.Run | Follows(x, s, r, laneID)
      ensures Reaches(x, u, r, laneID)
    {
      var a :| AllFromOutside(a) && Follows(Runs.RunFrom(x, a, ConfigOf(t)), t, r, laneID);
      var b :| AllFromOutside(b)
          && Follows(Runs.RunFrom(Runs.RunFrom(x, a, ConfigOf(t)), b, ConfigOf(u)), u, r, laneID);
      RunConcat(x, a, b, ConfigOf(u));
      assert AllFromOutside(a + b);
    }
  }

  /** Nothing the run of lane `r` depends on changes. */
  lemma TrackedSame(s: State, t: State, r: LaneRef, laneID: nat)
    requires t.limits == s.limits
    requires Owns(s, r, laneID) ==>
      && Owns(t, r, laneID) && SameDown(t.lanes[r], s.lanes[r])
      && SameCondition(ConditionOf(s, r, laneID), ConditionOf(t, r, laneID))
    ensures Tracked(s, t, r, laneID)
  {
    hide Owns, ConditionOf, Reaches;
    forall x: Runs.Run | Follows(x, s, r, laneID)
      ensures Reaches(x, t, r, laneID)
    {
      ReachesAtOnce(x, t, r, laneID);
    }
  }

  // ----------------------------------------------------------------- helper by helper

  lemma EnqueueDownlink(a: Lane, b: Lane, f: Frame, maxFramePayload: int)
    requires SameDown(a, b)
    ensures SameDown(Enqueue(a, f, maxFramePayload), Enqueue(b, f, maxFramePayload))
    ensures SameDown(Signal(a), Signal(b)) && SameDown(Emptied(a), Emptied(b))
  {
    hide Push;
  }

  /** A frame queued is a frame pushed to its own lane. */
  lemma QueueTracked(s: State, f: Frame, granted: bool, cost: int, items: int, r: LaneRef, laneID: nat)
    requires InvWith(s, cost, items) && Queueable(s, f)
    requires f.typeCode == CLOSE || !QueueFrame(s, f, granted).1 || Route(s, f.streamID) != Some(r)
    ensures Tracked(s, QueueFrame(s, f, granted).0, r, laneID)
  {
    hide InvWith, Enqueue, Admit, QueueFrame, SessionAdmits, Reaches, Tracked;
    var (t, ok) := QueueFrame(s, f, granted);
    EnqueueRoute(s, f, cost, items);
    QueueShape(s, f, granted);
    if ok && Route(s, f.streamID) == Some(r) {
      QueuedTracked(s, t, f, r, laneID);
    } else {
      TrackedSame(s, t, r, laneID);
    }
  }

  lemma QueuedTracked(s: State, t: State, f: Frame, r: LaneRef, laneID: nat)
    requires Queueable(s, f) && Route(s, f.streamID) == Some(r) && r in s.lanes && f.typeCode == CLOSE
    requires t
      == s.(lanes := s.lanes[r := Enqueue(s.lanes[r], f, s.limits.maxFramePayload)], pendingCost := t.pendingCost,
        pendingItems := t.pendingItems, calls := t.calls)
    ensures Tracked(s, t, r, laneID)
  {
    hide Enqueue, SameDown, Reaches;
    forall x: Runs.Run | Follows(x, s, r, laneID)
      ensures Reaches(x, t, r, laneID)
    {
      EnqueueDownlink(x.lane, s.lanes[r], f, s.limits.maxFramePayload);
      assert !Runs.Dropped(x);
      PushedStep(x, f, ConfigOf(t));
      ReachesByOne(x, Runs.FramePushed(f), t, r, laneID);
    }
  }

  lemma PushedStep(x: Runs.Run, f: Frame, c: Runs.Config)
    requires !Runs.Dropped(x) && Pushable(f, c.maxFramePayload)
    ensures var y := Runs.Step(x, Runs.FramePushed(f), c);
      y.lane == Enqueue(x.lane, f, c.maxFramePayload) && y.condition == x.condition
  {
  }

  /** A lane taken out of the register is detached and emptied. */
  lemma DropLaneTracked(s: State, dropped: nat, cost: int, items: int, r: LaneRef, laneID: nat)
    requires InvWith(s, cost, items) && dropped !in s.streams
    ensures Tracked(s, DropLane(s, dropped), r, laneID)
  {
    hide InvWith, DropLane, Emptied, Reaches;
    var t := DropLane(s, dropped);
    DropLaneShape(s, dropped, cost, items);
    if dropped in s.carrierLanes && s.carrierLanes[dropped] == r {
      forall x: Runs.Run | Follows(x, s, r, laneID)
        ensures Reaches(x, t, r, laneID)
      {
        EnqueueDownlink(x.lane, s.lanes[r], Frame(CLOSE, 0, []), 0);
        MainNotRegistered(s, dropped, cost, items);
        DetachedStep(x, ConfigOf(t));
        ReachesByOne(x, Runs.LaneDetached, t, r, laneID);
      }
    } else {
      TrackedSame(s, t, r, laneID);
    }
  }

  lemma MainNotRegistered(s: State, laneID: nat, cost: int, items: int)
    requires InvWith(s, cost, items) && laneID in s.carrierLanes
    ensures s.carrierLanes[laneID] != MAIN && s.carrierLanes[laneID] in s.lanes && UsesLanes(s)
  {
    hide StreamsInv, LaneInv, Placement, Accounts;
  }

  lemma DetachedStep(x: Runs.Run, c: Runs.Config)
    ensures var y := Runs.Step(x, Runs.LaneDetached, c);
      y.lane == Emptied(x.lane) && y.condition == x.condition.(detached := true)
  {
  }

  predicate RegisteredAs(s: State, id: nat, r: LaneRef) { id in s.carrierLanes && s.carrierLanes[id] == r }

  /** What remembering a new id does to one lane object. */
  lemma RememberLanes(s: State, id: nat, cost: int, items: int, r: LaneRef)
    requires InvWith(s, cost, items) && id !in s.streams && id !in s.tombstones.closed && r in s.lanes
    ensures var t := RememberClosed(s, id);
      && r in t.lanes
      && t.lanes[r] == if EvictedBy(s, id).Some? && RegisteredAs(s, EvictedBy(s, id).value, r) then Emptied(s.lanes[r])
                       else if RegisteredAs(s, id, r) then Signal(s.lanes[r])
                       else s.lanes[r]
  {
    hide InvWith, DropLane, Emptied, Remember, Evicted;
    NotedKeepsInv(s, id, cost, items);
    RegisterInjective(s, cost, items);
    if EvictedBy(s, id).Some? {
      DropLaneShape(Noted(s, id), EvictedBy(s, id).value, cost, items);
    }
  }

  lemma RegisterInjective(s: State, cost: int, items: int)
    requires InvWith(s, cost, items)
    ensures forall i :: i in s.carrierLanes ==>
      s.carrierLanes[i] in s.lanes && s.carrierLanes[i] != MAIN && UsesLanes(s)
    ensures forall i, j :: i in s.carrierLanes && j in s.carrierLanes && s.carrierLanes[i] == s.carrierLanes[j] ==>
      i == j
  {
    hide StreamsInv, LaneInv, Placement, Accounts;
  }

  /** The tombstones after remembering a new id. */
  lemma RememberIds(s: State, id: nat, cost: int, items: int)
    requires InvWith(s, cost, items) && id !in s.streams && id !in s.tombstones.closed
    ensures var t, evicted := RememberClosed(s, id), EvictedBy(s, id);
      && t.tombstones.closed
        == (if evicted.Some? then s.tombstones.closed + {id} - {evicted.value} else s.tombstones.closed + {id})
      && (evicted.Some? ==> evicted.value in s.tombstones.closed && evicted.value != id && evicted.value !in s.streams)
      && t.carrierLanes == (if evicted.Some? then s.carrierLanes - {evicted.value} else s.carrierLanes)
      && t.streams == s.streams && t.carrier == s.carrier && t.limits == s.limits && t.closed == s.closed
  {
    hide LanesInv, Accounts, StreamInv, RememberClosed, Remember, Evicted, RingInv, Fifo;
    RememberShape(s, id, cost, items);
    RingRefinesFifo(s.tombstones, id, s.limits.maxClosedStreamIDs);
  }

  /** Remembering a closed id ends its own lane's stream, detaches the evicted id's lane, and leaves
      every other lane alone. */
  lemma RememberTracked(s: State, id: nat, cost: int, items: int, r: LaneRef, laneID: nat)
    requires InvWith(s, cost, items) && id !in s.streams && (UsesLanes(s) ==> id != 0)
    ensures Tracked(s, RememberClosed(s, id), r, laneID)
  {
    hide InvWith, RememberClosed, Emptied, Reaches, Tracked, Signal;
    var t := RememberClosed(s, id);
    if id in s.tombstones.closed || r !in s.lanes {
      RememberedBefore(s, id, cost, items);
      TrackedSame(s, t, r, laneID);
    } else {
      RememberLanes(s, id, cost, items, r);
      RememberIds(s, id, cost, items);
      RegisterInjective(s, cost, items);
      if EvictedBy(s, id).Some? && RegisteredAs(s, EvictedBy(s, id).value, r) {
        EvictTracked(s, t, EvictedBy(s, id).value, r, laneID);
      } else if RegisteredAs(s, id, r) {
        EndTracked(s, t, id, r, laneID);
      } else {
        TrackedSame(s, t, r, laneID);
      }
    }
  }

  lemma RememberedBefore(s: State, id: nat, cost: int, items: int)
    requires InvWith(s, cost, items) && id !in s.streams
    ensures id in s.tombstones.closed ==> RememberClosed(s, id) == s
    ensures RememberClosed(s, id).lanes.Keys == s.lanes.Keys && RememberClosed(s, id).limits == s.limits
  {
    hide InvWith, Remember;
    RememberShape(s, id, cost, items);
  }

  lemma EvictTracked(s: State, t: State, evicted: nat, r: LaneRef, laneID: nat)
    requires RegisteredAs(s, evicted, r) && r != MAIN && r in s.lanes && r in t.lanes
        && t.lanes[r] == Emptied(s.lanes[r])
    requires t.carrierLanes == s.carrierLanes - {evicted} && t.carrier == s.carrier && t.limits == s.limits
        && t.closed == s.closed
    ensures Tracked(s, t, r, laneID)
  {
    hide SameDown, Emptied, Reaches;
    forall x: Runs.Run | Follows(x, s, r, laneID)
      ensures Reaches(x, t, r, laneID)
    {
      EnqueueDownlink(x.lane, s.lanes[r], Frame(CLOSE, 0, []), 0);
      DetachedStep(x, ConfigOf(t));
      ReachesByOne(x, Runs.LaneDetached, t, r, laneID);
    }
  }

  lemma EndTracked(s: State, t: State, id: nat, r: LaneRef, laneID: nat)
    requires RegisteredAs(s, id, r) && RegisteredAs(t, id, r) && id != 0 && r in s.lanes && r in t.lanes
        && t.lanes[r] == Signal(s.lanes[r])
    requires t.carrierLanes.Keys <= s.carrierLanes.Keys
        && (forall i :: i in t.carrierLanes ==> t.carrierLanes[i] == s.carrierLanes[i])
    requires t.carrier == s.carrier && t.limits == s.limits && t.closed == s.closed
    requires id !in t.streams && id in t.tombstones.closed && r != MAIN
    ensures Tracked(s, t, r, laneID)
  {
    hide SameDown, Signal, Reaches;
    forall x: Runs.Run | Follows(x, s, r, laneID)
      ensures Reaches(x, t, r, laneID)
    {
      EnqueueDownlink(x.lane, s.lanes[r], Frame(CLOSE, 0, []), 0);
      assert laneID == id;
      EndsStep(x, ConfigOf(t));
      ReachesByOne(x, Runs.StreamEnds, t, r, laneID);
    }
  }

  lemma EndsStep(x: Runs.Run, c: Runs.Config)
    ensures var y := Runs.Step(x, Runs.StreamEnds, c);
      y.lane == Signal(x.lane) && y.condition == x.condition.(ended := true)
  {
  }

  lemma ClosesStep(x: Runs.Run, c: Runs.Config)
    ensures var y := Runs.Step(x, Runs.SessionCloses, c);
      && y.condition == x.condition.(closed := true)
      && y.lane == if x.condition.closed || x.condition.detached then x.lane else Emptied(x.lane)
  {
  }

  /** Closing the session closes every lane in use, and empties it. */
  lemma CloseTracked(s: State, cost: int, items: int, r: LaneRef, laneID: nat)
    requires InvWith(s, cost, items)
    ensures Tracked(s, CloseSession(s), r, laneID)
  {
    hide InvWith, Emptied, Reaches;
    var t := CloseSession(s);
    if !s.closed && r in s.lanes {
      RegisterInjective(s, cost, items);
      if laneID in s.streams {
        InvStream(s, laneID, cost, items);
      }
      forall x: Runs.Run | Follows(x, s, r, laneID)
        ensures Reaches(x, t, r, laneID)
      {
        EnqueueDownlink(x.lane, s.lanes[r], Frame(CLOSE, 0, []), 0);
        ClosesStep(x, ConfigOf(t));
        if RegisteredAs(s, laneID, r) {
          assert r in s.carrierLanes.Values;
        } else if r != MAIN {
          assert r !in s.carrierLanes.Values;
        }
        ReachesByOne(x, Runs.SessionCloses, t, r, laneID);
      }
    } else if s.closed {
      hide Tracked;
      TrackedSame(s, t, r, laneID);
    }
  }

  lemma DropStreamTracked(s: State, id: nat, cost: int, items: int, r: LaneRef, laneID: nat)
    requires InvWith(s, cost, items) && id in s.streams
    ensures Tracked(s, DropStream(s, id), r, laneID)
  {
    hide InvWith, DropStream, Tracked;
    DropStreamKeepsInv(s, id, cost, items);
    InvStream(s, id, cost, items);
    TrackedSame(s, DropStream(s, id), r, laneID);
  }

  /** A new lane is a new object. */
  lemma AddLaneTracked(s: State, added: nat, cost: int, items: int, r: LaneRef, laneID: nat)
    requires InvWith(s, cost, items) && added !in s.carrierLanes
    ensures Tracked(s, AddLane(s, added), r, laneID)
  {
    hide StreamsInv, LaneInv, Placement, Register, Accounts, Tracked;
    TrackedSame(s, AddLane(s, added), r, laneID);
  }

  // ----------------------------------------------------------------- section by section

  /** The record of a lane changes in its uplink fields only, or another lane's does. */
  lemma WithLaneTracked(s: State, other: LaneRef, l: Lane, r: LaneRef, laneID: nat)
    requires other == r && r in s.lanes ==> SameDown(l, s.lanes[r])
    ensures Tracked(s, WithLane(s, other, l), r, laneID)
  {
    hide Tracked;
    TrackedSame(s, WithLane(s, other, l), r, laneID);
  }

  lemma BudgetTracked(s: State, t: State, r: LaneRef, laneID: nat)
    requires t == s.(pendingCost := t.pendingCost, pendingItems := t.pendingItems,
        panic := t.panic, calls := t.calls)
    ensures Tracked(s, t, r, laneID)
  {
    hide Tracked;
    TrackedSame(s, t, r, laneID);
  }

  /** A stream's record changes, or a stream that is not remembered as closed becomes live. */
  lemma StreamTracked(s: State, t: State, id: nat, st: Stream, r: LaneRef, laneID: nat)
    requires t == s.(streams := s.streams[id := st], nextBackend := t.nextBackend, pendingCost := t.pendingCost,
        pendingItems := t.pendingItems, calls := t.calls)
    requires id in s.streams || id !in s.tombstones.closed
    ensures Tracked(s, t, r, laneID)
  {
    hide Tracked;
    TrackedSame(s, t, r, laneID);
  }

  lemma RefuseTracked(s: State, id: nat, granted: bool, cost: int, items: int, r: LaneRef, laneID: nat)
    requires InvWith(s, cost, items) && !s.closed && id !in s.streams && 0 < id <= MAX_STREAM_ID
    requires UsesLanes(s) ==> id in s.carrierLanes
    ensures Tracked(s, QueueFrame(RememberClosed(s, id), Frame(CLOSE, id, []), granted).0, r, laneID)
  {
    hide InvWith, RememberClosed, QueueFrame, Tracked, Queueable, Remember;
    var u := RememberClosed(s, id);
    RememberKeepsInv(s, id, cost, items);
    RememberShape(s, id, cost, items);
    RememberTracked(s, id, cost, items, r, laneID);
    CloseIsQueueable(u, id, cost, items);
    QueueTracked(u, Frame(CLOSE, id, []), granted, cost, items, r, laneID);
    TrackedThen(s, u, QueueFrame(u, Frame(CLOSE, id, []), granted).0, r, laneID);
  }

  lemma EndStreamTracked(s: State, id: nat, cost: int, items: int, r: LaneRef, laneID: nat)
    requires InvWith(s, cost, items) && id in s.streams
    ensures Tracked(s, RememberClosed(DropStream(s, id), id), r, laneID)
  {
    hide InvWith, RememberClosed, Tracked, DropStream;
    InvStream(s, id, cost, items);
    DropStreamKeepsInv(s, id, cost, items);
    DropStreamTracked(s, id, cost, items, r, laneID);
    RememberTracked(DropStream(s, id), id, cost, items, r, laneID);
    TrackedThen(s, DropStream(s, id), RememberClosed(DropStream(s, id), id), r, laneID);
  }

  lemma ApplyFrameTracked(x: Applying, f: Frame, a: Answer, r: LaneRef, laneID: nat)
    requires InvWith(x.state, x.cost, x.items) && !x.state.closed && Applicable(x.state, f, x.cost, x.items)
    ensures Tracked(x.state, ApplyFrame(x, f, a).state, r, laneID)
  {
    hide InvWith, RememberClosed, QueueFrame, Tracked, DropStream, Fed, NewStream;
    var s, id := x.state, f.streamID;
    if id == 0 || (f.typeCode != OPEN && id in s.tombstones.closed) {
      BudgetTracked(s, s, r, laneID);
    } else if f.typeCode == OPEN {
      var u := AskTicket(s, a);
      TicketAsked(s, a, x.cost, x.items);
      hide AskTicket;
      BudgetTracked(s, u, r, laneID);
      if !Admitted(s, a) {
        RefuseTracked(u, id, a.granted, x.cost, x.items, r, laneID);
      } else {
        StreamTracked(u, ApplyFrame(x, f, a).state, id, NewStream(s.nextBackend), r, laneID);
      }
      TrackedThen(s, u, ApplyFrame(x, f, a).state, r, laneID);
    } else if f.typeCode == DATA {
      StreamTracked(s, ApplyFrame(x, f, a).state, id, Fed(s.streams[id], f.payload), r, laneID);
    } else if f.typeCode == WINDOW {
      StreamTracked(s, ApplyFrame(x, f, a).state, id,
                    s.streams[id].(sendCredit := Credited(s.streams[id].sendCredit, f.payload)), r, laneID);
    } else if f.typeCode == CLOSE {
      EndStreamTracked(s, id, x.cost, x.items, r, laneID);
    } else {
      BudgetTracked(s, s, r, laneID);
    }
  }

  lemma {:induction false} ApplyAllTracked(
      x: Applying, sim: Sim, tombstones: set<nat>, past: seq<nat>, counted: set<nat>,
      frames: seq<Frame>, bodyLane: nat, answers: seq<Answer>, r: LaneRef, laneID: nat)
    requires InStep(x, sim, tombstones, past, counted, frames, bodyLane)
    ensures Tracked(x.state, ApplyAll(x, frames, answers).state, r, laneID)
    decreases |frames|
  {
    hide InvWith, Linked, ApplyFrame, CoreStep, Simulate, PastAfter, Validate, OnWire, CountedAfter, Covered,
      Unknown, OnOneLane, Tracked, Applicable;
    if frames == [] || x.state.panic.Some? {
      BudgetTracked(x.state, x.state, r, laneID);
    } else {
      var f, a := frames[0], First(answers);
      if Unknown(CoreOf(x.state), f) {
        UnknownPanics(x, f, a);
        BudgetTracked(x.state, ApplyFrame(x, f, a).state, r, laneID);
      } else {
        KnownIsApplicable(x, sim, tombstones, past, counted, frames, bodyLane);
        KnownStaysInStep(x, sim, tombstones, past, counted, frames, bodyLane, a);
        ApplyFrameTracked(x, f, a, r, laneID);
        var y := ApplyFrame(x, f, a);
        if y.ok {
          ApplyAllTracked(y, Simulate(sim, tombstones, f), tombstones,
              PastAfter(CoreOf(x.state), past, f, a, x.state.limits),
                          CountedAfter(counted, f), frames[1..], bodyLane, Others(answers), r, laneID);
          TrackedThen(x.state, y.state, ApplyAll(y, frames[1..], Others(answers)).state, r, laneID);
        }
      }
    }
  }

  lemma CommitTracked(s: State, other: LaneRef, sequence: nat, body: Bytes, frames: seq<Frame>, a: Answers,
      bodyLane: nat, r: LaneRef, laneID: nat)
    requires Inv(s) && !s.closed && other in s.lanes && OnWire(frames) && OnOneLane(s, frames, bodyLane)
    ensures Tracked(s, CommitBatch(s, other, sequence, body, frames, a).0, r, laneID)
  {
    hide InvWith, ValidateBatch, Reservation, ApplyAll, SessionRuns.ReservationGranted, OnOneLane, Release, Tracked,
      InStep, Fifo, OnWire, Committed;
    SessionRuns.CommitCases(s, other, sequence, body, frames, a);
    var t := CommitBatch(s, other, sequence, body, frames, a).0;
    if ValidateBatch(s, frames) && SessionRuns.ReservationGranted(s, frames, a) {
      var reserved := SessionRuns.Reserved(s, frames);
      SessionRuns.ReservedKeepsInv(s, frames, a);
      SessionRuns.ReservedSame(s, frames, bodyLane);
      BatchStartsInStep(reserved, frames, bodyLane);
      BudgetTracked(s, reserved, r, laneID);
      var y := SessionRuns.AppliedTo(s, frames, a);
      ApplyAllTracked(Begin(reserved, frames), Sim(Snapshots(s.streams), {}), s.tombstones.closed, Fifo(s.tombstones),
                      s.streams.Keys, frames, bodyLane, a.frames, r, laneID);
      TrackedThen(s, reserved, y.state, r, laneID);
      if y.state.panic.None? {
        var settled := Release(y.state, y.cost, y.items);
        ReleaseTracked(y.state, y.cost, y.items, r, laneID);
        TrackedThen(s, y.state, settled, r, laneID);
        if y.ok {
          CommittedTracked(settled, other, sequence, body, r, laneID);
          TrackedThen(s, settled, t, r, laneID);
        }
      }
    } else {
      if ValidateBatch(s, frames) {
        SessionRuns.UnreservedSame(s, frames, a);
      }
      BudgetTracked(s, t, r, laneID);
    }
  }

  lemma ReleaseTracked(s: State, cost: int, items: int, r: LaneRef, laneID: nat)
    ensures Tracked(s, Release(s, cost, items), r, laneID)
  {
    hide Tracked;
    BudgetTracked(s, Release(s, cost, items), r, laneID);
  }

  lemma CommittedTracked(s: State, other: LaneRef, sequence: nat, body: Bytes, r: LaneRef, laneID: nat)
    ensures Tracked(s, WithLane(s, other, Committed(LaneAt(s, other), sequence, body)), r, laneID)
  {
    hide Tracked;
    WithLaneTracked(s, other, Committed(LaneAt(s, other), sequence, body), r, laneID);
  }

  lemma UpActiveTracked(s: State, other: LaneRef, active: bool, r: LaneRef, laneID: nat)
    ensures Tracked(s, SetUpActive(s, other, active), r, laneID)
  {
    hide Tracked;
    WithLaneTracked(s, other, LaneAt(s, other).(upActive := active), r, laneID);
  }

  lemma UpFinishTracked(s: State, sequence: nat, body: Bytes, a: Answers, r: LaneRef, laneID: nat)
    requires Inv(s) && !UsesLanes(s)
    ensures Tracked(s, UpFinish(s, sequence, body, a).0, r, laneID)
  {
    hide InvWith, CommitBatch, Tracked, ClientFrames, OnWire;
    var idle := SetUpActive(s, MAIN, false);
    UpActiveTracked(s, MAIN, false, r, laneID);
    if !s.closed && ClientFrames(s, body, None).Some? {
      MainIsThere(s);
      SessionRuns.ClientFramesOnWire(s, body, None);
      SessionRuns.UpActiveKeepsInv(s, MAIN, false);
      CommitTracked(idle, MAIN, sequence, body, ClientFrames(s, body, None).value, a, 0, r, laneID);
      TrackedThen(s, idle, CommitBatch(idle, MAIN, sequence, body, ClientFrames(s, body, None).value, a).0, r,
          laneID);
    }
  }

  lemma MainIsThere(s: State)
    requires Inv(s)
    ensures MAIN in s.lanes
  {
    hide StreamsInv, LaneInv, Placement, Register, Accounts;
  }

  lemma UpOnLaneTracked(s: State, bodyLane: nat, sequence: nat, body: Bytes, frames: seq<Frame>, a: Answers,
      r: LaneRef, laneID: nat)
    requires Inv(s) && UsesLanes(s) && !s.closed && bodyLane in s.carrierLanes && OnWire(frames)
    requires forall i :: 0 <= i < |frames| ==> frames[i].streamID == bodyLane
    ensures Tracked(s, UpOnLane(s, s.carrierLanes[bodyLane], sequence, body, frames, a).0, r, laneID)
  {
    hide InvWith, CommitBatch, Tracked, OnWire, CheckUp;
    var other := s.carrierLanes[bodyLane];
    BudgetTracked(s, s, r, laneID);
    SessionRuns.RegisteredInLanes(s, bodyLane);
    SessionRuns.UpActiveKeepsInv(s, other, true);
    var active := SetUpActive(s, other, true);
    UpActiveTracked(s, other, true, r, laneID);
    CommitTracked(active, other, sequence, body, frames, a, bodyLane, r, laneID);
    var t := CommitBatch(active, other, sequence, body, frames, a).0;
    TrackedThen(s, active, t, r, laneID);
    UpActiveTracked(t, other, false, r, laneID);
    TrackedThen(s, t, SetUpActive(t, other, false), r, laneID);
  }

  lemma UpLaneTracked(s: State, bodyLane: nat, sequence: nat, body: Bytes, a: Answers, r: LaneRef, laneID: nat)
    requires Inv(s)
    ensures Tracked(s, UpLane(s, bodyLane, sequence, body, a).0, r, laneID)
  {
    hide InvWith, UpOnLane, Tracked, ClientFrames, OnWire, OnlyLateFrames, AddLane;
    BudgetTracked(s, s, r, laneID);
    if UsesLanes(s) && bodyLane <= MAX_STREAM_ID && ClientFrames(s, body, Some(bodyLane)).Some? && !s.closed {
      var frames := ClientFrames(s, body, Some(bodyLane)).value;
      SessionRuns.ClientFramesOnWire(s, body, Some(bodyLane));
      if bodyLane in s.carrierLanes {
        UpOnLaneTracked(s, bodyLane, sequence, body, frames, a, r, laneID);
      } else {
        var added := AddLane(s, bodyLane);
        AddLaneKeepsInv(s, bodyLane, 0, 0);
        AddLaneTracked(s, bodyLane, 0, 0, r, laneID);
        SessionRuns.AddedLane(s, bodyLane);
        UpOnLaneTracked(added, bodyLane, sequence, body, frames, a, r, laneID);
        TrackedThen(s, added, UpOnLane(added, s.nextLane, sequence, body, frames, a).0, r, laneID);
      }
    }
  }

  lemma ReleaseWebSocketLaneTracked(s: State, released: nat, r: LaneRef, laneID: nat)
    requires Inv(s)
    ensures Tracked(s, ReleaseWebSocketLane(s, released), r, laneID)
  {
    hide InvWith, DropLane, DropStream, RememberClosed, Evicted, Tracked, Remember;
    BudgetTracked(s, s, r, laneID);
    if s.carrier == WebSocketLanes && released in s.carrierLanes {
      var other := s.carrierLanes[released];
      SessionRuns.RegisteredInLanes(s, released);
      SessionRuns.ActivateKeepsInv(s, other, false);
      var inactive := WithLane(s, other, s.lanes[other].(websocketActive := false));
      WithLaneTracked(s, other, s.lanes[other].(websocketActive := false), r, laneID);
      if released in s.streams {
        var ended := RememberClosed(DropStream(inactive, released), released);
        DropStreamKeepsInv(inactive, released, 0, 0);
        RememberKeepsInv(DropStream(inactive, released), released, 0, 0);
        RememberShape(DropStream(inactive, released), released, 0, 0);
        EndStreamTracked(inactive, released, 0, 0, r, laneID);
        TrackedThen(s, inactive, ended, r, laneID);
        DropLaneTracked(ended, released, 0, 0, r, laneID);
        TrackedThen(s, ended, DropLane(ended, released), r, laneID);
      } else {
        DropLaneTracked(inactive, released, 0, 0, r, laneID);
        TrackedThen(s, inactive, DropLane(inactive, released), r, laneID);
      }
    }
  }

  lemma LaneFailureTracked(s: State, failed: nat, r: LaneRef, laneID: nat)
    requires Inv(s)
    ensures Tracked(s, LaneFailure(s, failed), r, laneID)
  {
    hide InvWith, Tracked, CloseSession, ReleaseWebSocketLane;
    ReleaseWebSocketLaneTracked(s, failed, r, laneID);
    CloseTracked(s, 0, 0, r, laneID);
  }

  lemma AcquireTracked(s: State, acquired: nat, r: LaneRef, laneID: nat)
    requires Inv(s)
    ensures Tracked(s, AcquireWebSocket(s).0, r, laneID) && Tracked(s, AcquireWebSocketLane(s, acquired).0, r, laneID)
  {
    hide InvWith, Tracked, AddLane;
    BudgetTracked(s, s, r, laneID);
    WithLaneTracked(s, MAIN, LaneAt(s, MAIN).(websocketActive := true), r, laneID);
    if acquired !in s.carrierLanes {
      AddLaneTracked(s, acquired, 0, 0, r, laneID);
      SessionRuns.AddedLane(s, acquired);
    }
    var t := if acquired in s.carrierLanes then s else AddLane(s, acquired);
    var other := t.carrierLanes[acquired];
    var u := WithLane(t, other, LaneAt(t, other).(websocketActive := true));
    WithLaneTracked(t, other, LaneAt(t, other).(websocketActive := true), r, laneID);
    TrackedThen(s, t, u, r, laneID);
  }

  /** The section queues DATA read from a backend on this lane, or gives the client credit for what has
      reached one. */
  predicate FeedsLane(s: State, op: SessionRuns.Op, r: LaneRef) {
    || (op.OpBackendData? && |op.data| <= DATA_CHUNK && BackendData(s, op.id, op.data, op.granted).1
        && Route(s, op.id) == Some(r))
    || (op.OpDrained? && Drained(s, op.id, op.amount, op.granted).1 && Route(s, op.id) == Some(r))
  }

  function FedFrame(op: SessionRuns.Op): Frame
    requires op.OpBackendData? || op.OpDrained?
  {
    if op.OpBackendData? then Frame(DATA, op.id, op.data)
    else Frame(WINDOW, op.id, if op.amount >= 0 then WindowPayload(op.amount) else [])
  }

  /** Then the lane goes through that one event. */
  lemma FeedingIsPush(x: Runs.Run, s: State, op: SessionRuns.Op, r: LaneRef, laneID: nat)
    requires Inv(s) && s.panic.None? && FeedsLane(s, op, r) && Follows(x, s, r, laneID)
    ensures Follows(Runs.Step(x, Runs.FramePushed(FedFrame(op)), ConfigOf(s)), SessionRuns.Step(s, op), r, laneID)
    ensures !Runs.Dropped(x) && Pushable(FedFrame(op), ConfigOf(s).maxFramePayload)
  {
    hide Follows, Runs.Step, BackendData, Drained;
    if op.OpBackendData? {
      DataIsPush(x, s, op, r, laneID);
    } else {
      CreditIsPush(x, s, op, r, laneID);
    }
  }

  /** A frame queued for a live stream, after changes that leave the lanes alone. */
  lemma QueuedIsPush(x: Runs.Run, s: State, t: State, f: Frame, granted: bool, r: LaneRef, laneID: nat)
    requires Inv(t) && Queueable(t, f) && f.streamID in t.streams && Follows(x, s, r, laneID)
    requires Route(t, f.streamID) == Some(r) && QueueFrame(t, f, granted).1
    requires t.lanes == s.lanes && t.carrierLanes == s.carrierLanes && t.tombstones == s.tombstones
        && t.closed == s.closed
    requires t.limits == s.limits && t.carrier == s.carrier && t.streams.Keys == s.streams.Keys
    ensures Follows(Runs.Step(x, Runs.FramePushed(f), ConfigOf(s)), QueueFrame(t, f, granted).0, r, laneID)
    ensures !Runs.Dropped(x) && Pushable(f, ConfigOf(s).maxFramePayload)
  {
    hide InvWith, Enqueue, Admit, QueueFrame, SessionAdmits, SameDown;
    EnqueueRoute(t, f, 0, 0);
    QueueShape(t, f, granted);
    EnqueueDownlink(x.lane, s.lanes[r], f, s.limits.maxFramePayload);
    NotDetached(s, r, laneID);
    PushedStep(x, f, ConfigOf(s));
  }

  lemma DataIsPush(x: Runs.Run, s: State, op: SessionRuns.Op, r: LaneRef, laneID: nat)
    requires Inv(s) && s.panic.None? && op.OpBackendData? && FeedsLane(s, op, r) && Follows(x, s, r, laneID)
    ensures Follows(Runs.Step(x, Runs.FramePushed(FedFrame(op)), ConfigOf(s)), SessionRuns.Step(s, op), r, laneID)
    ensures !Runs.Dropped(x) && Pushable(FedFrame(op), ConfigOf(s).maxFramePayload)
  {
    hide InvWith, QueueFrame, Follows, Runs.Step;
    var st := s.streams[op.id].(sendCredit := s.streams[op.id].sendCredit - |op.data|);
    var t := WithStream(s, op.id, st);
    InvStream(s, op.id, 0, 0);
    SessionRuns.StreamTouchKeepsInv(s, op.id, st);
    SessionRuns.LiveIsQueueable(t, FedFrame(op));
    QueuedIsPush(x, s, t, FedFrame(op), op.granted, r, laneID);
  }

  lemma CreditIsPush(x: Runs.Run, s: State, op: SessionRuns.Op, r: LaneRef, laneID: nat)
    requires Inv(s) && s.panic.None? && op.OpDrained? && FeedsLane(s, op, r) && Follows(x, s, r, laneID)
    ensures Follows(Runs.Step(x, Runs.FramePushed(FedFrame(op)), ConfigOf(s)), SessionRuns.Step(s, op), r, laneID)
    ensures !Runs.Dropped(x) && Pushable(FedFrame(op), ConfigOf(s).maxFramePayload)
  {
    hide InvWith, QueueFrame, Follows, Runs.Step, Release;
    var id, amount, st := op.id, op.amount, s.streams[op.id];
    InvStream(s, id, 0, 0);
    var drained :=
      st.(pendingWriteBytes := st.pendingWriteBytes - amount, pendingWriteCost := st.pendingWriteCost - amount,
                       receiveWindow := st.receiveWindow + amount);
    SessionRuns.StreamShrinkKeepsInv(s, id, drained, amount, 0);
    var t := Release(WithStream(s, id, drained), amount, 0);
    SessionRuns.LiveIsQueueable(t, FedFrame(op));
    QueuedIsPush(x, s, t, FedFrame(op), op.granted, r, laneID);
  }

  lemma BackendTracked(s: State, op: SessionRuns.Op, r: LaneRef, laneID: nat)
    requires Inv(s) && (op.OpNextWrite? || op.OpDrained? || op.OpWriteFinished? || op.OpBackendData?) && s.panic.None?
    requires !FeedsLane(s, op, r)
    ensures Tracked(s, SessionRuns.Step(s, op), r, laneID)
  {
    hide InvWith, Tracked, QueueFrame, Release;
    BudgetTracked(s, s, r, laneID);
    if !s.closed && op.id in s.streams {
      var id := op.id;
      var st := s.streams[id];
      InvStream(s, id, 0, 0);
      match op
      case OpNextWrite(_) =>
        if st.writes != [] {
          StreamTracked(s, SessionRuns.Step(s, op), id, st.(writes := st.writes[1..]), r, laneID);
        }
      case OpDrained(_, amount, granted) => DrainedTracked(s, id, amount, granted, r, laneID);
      case OpWriteFinished(_) =>
        if !(st.pendingWriteItems == 0 || st.pendingWriteCost < QUEUE_ITEM_COST) {
          var finished :=
            st.(pendingWriteItems := st.pendingWriteItems - 1,
                pendingWriteCost := st.pendingWriteCost - QUEUE_ITEM_COST);
          SessionRuns.StreamShrinkKeepsInv(s, id, finished, QUEUE_ITEM_COST, 1);
          StreamTracked(s, SessionRuns.Step(s, op), id, finished, r, laneID);
        }
      case OpBackendData(_, data, granted) =>
        if 0 < |data| <= DATA_CHUNK && |data| <= st.sendCredit {
          var t := WithStream(s, id, st.(sendCredit := st.sendCredit - |data|));
          StreamTracked(s, t, id, st.(sendCredit := st.sendCredit - |data|), r, laneID);
          SessionRuns.StreamTouchKeepsInv(s, id, st.(sendCredit := st.sendCredit - |data|));
          SessionRuns.LiveIsQueueable(t, Frame(DATA, id, data));
          assert Route(t, id) == Route(s, id);
          QueueTracked(t, Frame(DATA, id, data), granted, 0, 0, r, laneID);
          TrackedThen(s, t, QueueFrame(t, Frame(DATA, id, data), granted).0, r, laneID);
        }
    }
  }

  lemma DrainedTracked(s: State, id: nat, amount: int, granted: bool, r: LaneRef, laneID: nat)
    requires Inv(s) && !s.closed && id in s.streams
    requires !Drained(s, id, amount, granted).1 || Route(s, id) != Some(r)
    ensures Tracked(s, Drained(s, id, amount, granted).0, r, laneID)
  {
    hide InvWith, Tracked, QueueFrame, Release;
    var st := s.streams[id];
    InvStream(s, id, 0, 0);
    BudgetTracked(s, s, r, laneID);
    if !(amount <= 0 || amount > st.pendingWriteBytes || amount > st.pendingWriteCost
         || st.receiveWindow + amount > INITIAL_STREAM_WINDOW) {
      var drained :=
        st.(pendingWriteBytes := st.pendingWriteBytes - amount, pendingWriteCost := st.pendingWriteCost - amount,
                         receiveWindow := st.receiveWindow + amount);
      SessionRuns.StreamShrinkKeepsInv(s, id, drained, amount, 0);
      var t := Release(WithStream(s, id, drained), amount, 0);
      var f := Frame(WINDOW, id, WindowPayload(amount));
      StreamTracked(s, t, id, drained, r, laneID);
      SessionRuns.LiveIsQueueable(t, f);
      assert Route(t, id) == Route(s, id);
      QueueTracked(t, f, granted, 0, 0, r, laneID);
      TrackedThen(s, t, QueueFrame(t, f, granted).0, r, laneID);
    }
  }

  lemma BackendClosedTracked(s: State, id: nat, backend: nat, granted: bool, r: LaneRef, laneID: nat)
    requires Inv(s)
    ensures Tracked(s, BackendClosed(s, id, backend, granted), r, laneID)
  {
    hide InvWith, Tracked, DropStream, RememberClosed, QueueFrame, CloseSession;
    BudgetTracked(s, s, r, laneID);
    if !s.closed && id in s.streams && s.streams[id].backend == backend {
      InvStream(s, id, 0, 0);
      DropStreamKeepsInv(s, id, 0, 0);
      DropStreamTracked(s, id, 0, 0, r, laneID);
      var dropped := DropStream(s, id);
      var queued := QueueFrame(RememberClosed(dropped, id), Frame(CLOSE, id, []), granted).0;
      RefuseKeepsInv(dropped, id, granted, 0, 0);
      RefuseTracked(dropped, id, granted, 0, 0, r, laneID);
      TrackedThen(s, dropped, queued, r, laneID);
      CloseTracked(queued, 0, 0, r, laneID);
      TrackedThen(s, queued, CloseSession(queued), r, laneID);
    }
  }

  // ------------------------------------------------------------------------ the theorems

  /** The section is one of a poll of lane object `r`. */
  predicate PollsLane(s: State, op: SessionRuns.Op, r: LaneRef) {
    match op
    case OpPollEnter(laneID, _, _) => PollLaneOf(s, laneID) == Some(r)
    case OpPollWoken(lane, _, _, _) => lane == r
    case OpPollDeadline(lane, _, _, _) => lane == r
    case OpPollQuits(lane, _) => lane == r
    case OpPollDisplaced(lane) => lane == r
    case OpPollTakesToken(lane) => lane == r
    case _ => false
  }

  lemma OtherPollTracked(s: State, op: SessionRuns.Op, r: LaneRef, laneID: nat)
    requires Inv(s) && s.panic.None? && !PollsLane(s, op, r)
    requires op.OpPollEnter? || op.OpPollWoken? || op.OpPollDeadline? || op.OpPollQuits? || op.OpPollDisplaced?
        || op.OpPollTakesToken?
    ensures Tracked(s, SessionRuns.Step(s, op), r, laneID)
  {
    hide InvWith, Tracked, SameDown, Loop, AfterToken, Deadline, Quit, Present, TakeOver, Release, ConditionOf,
      Resigned;
    BudgetTracked(s, s, r, laneID);
    match op {
      case OpPollEnter(other, me, cursor) => OtherEnterTracked(s, other, me, cursor, r, laneID);
      case OpPollWoken(other, id, me, cursor) =>
        WithLaneTracked(s, other,
            AfterToken(LaneAt(s, other), me, cursor, s.limits.carrierBatchBytes, ConditionOf(s, other, id)).lane, r,
            laneID);
      case OpPollDeadline(other, id, me, cursor) =>
        WithLaneTracked(s, other,
            Deadline(LaneAt(s, other), me, cursor, s.limits.carrierBatchBytes, ConditionOf(s, other, id)).lane, r,
            laneID);
      case OpPollQuits(other, me) => WithLaneTracked(s, other, Quit(LaneAt(s, other), me), r, laneID);
      case OpPollDisplaced(other) => WithLaneTracked(s, other, Signal(LaneAt(s, other)), r, laneID);
      case OpPollTakesToken(other) => WithLaneTracked(s, other, LaneAt(s, other).(notify := false), r, laneID);
    }
  }

  lemma OtherEnterTracked(s: State, polled: nat, me: nat, cursor: nat, r: LaneRef, laneID: nat)
    requires PollLaneOf(s, polled) != Some(r)
    ensures Tracked(s, PollEnter(s, polled, me, cursor).0, r, laneID)
  {
    hide Tracked, SameDown, Loop, Present, TakeOver, Release;
    BudgetTracked(s, s, r, laneID);
    if !s.closed && PollLaneOf(s, polled).Some? {
      var other := PollLaneOf(s, polled).value;
      match Present(LaneAt(s, other), cursor)
      case Accepted(l, cost, items) =>
        var released := Release(s, cost, items);
        var t := Loop(TakeOver(l, me), me, cursor, s.limits.carrierBatchBytes, ConditionOf(released, other, polled));
        ReleaseTracked(s, cost, items, r, laneID);
        WithLaneTracked(released, other, t.lane, r, laneID);
        TrackedThen(s, released, WithLane(released, other, t.lane), r, laneID);
      case _ =>
    }
  }

  /** Every section of a session that is not one of this lane's polls takes the lane through events from
      outside: frames of its own stream pushed, its stream ended, the lane detached, the session closed,
      or a signal. */
  lemma SectionIsLaneEvents(s: State, op: SessionRuns.Op, r: LaneRef, laneID: nat)
    requires Inv(s) && s.panic.None? && !PollsLane(s, op, r) && !FeedsLane(s, op, r)
    ensures Tracked(s, SessionRuns.Step(s, op), r, laneID)
  {
    hide InvWith, Tracked, FeedsLane, UpBegin, UpFinish, UpLane, LaneFailure, CloseSession, AcquireWebSocket,
      AcquireWebSocketLane,
      ReleaseWebSocketLane, BackendClosed, PollEnter, PollLaneOf, PollWoken, PollDeadline, PollQuits, PollDisplaced,
          PollTakesToken, NextWrite, Drained, WriteFinished, BackendData;
    BudgetTracked(s, s, r, laneID);
    match op {
      case OpUpBegin(sequence, body) => UpBeginTracked(s, sequence, body, r, laneID);
      case OpUpFinish(sequence, body, a) => if !UsesLanes(s) { UpFinishTracked(s, sequence, body, a, r, laneID); }
      case OpUpLane(bodyLane, sequence, body, a) => UpLaneTracked(s, bodyLane, sequence, body, a, r, laneID);
      case OpFailure(failed) => LaneFailureTracked(s, failed, r, laneID);
      case OpClose => CloseTracked(s, 0, 0, r, laneID);
      case OpAcquireWebSocket => AcquireTracked(s, 0, r, laneID);
      case OpAcquireLane(acquired) => AcquireTracked(s, acquired, r, laneID);
      case OpReleaseLane(released) => ReleaseWebSocketLaneTracked(s, released, r, laneID);
      case OpBackendClosed(id, backend, granted) => BackendClosedTracked(s, id, backend, granted, r, laneID);
      case _ =>
        if op.OpNextWrite? || op.OpDrained? || op.OpWriteFinished? || op.OpBackendData? {
          BackendTracked(s, op, r, laneID);
        } else {
          OtherPollTracked(s, op, r, laneID);
        }
    }
  }

  lemma UpBeginTracked(s: State, sequence: nat, body: Bytes, r: LaneRef, laneID: nat)
    ensures Tracked(s, UpBegin(s, sequence, body).0, r, laneID)
  {
    hide Tracked, CheckUp, SetUpActive;
    BudgetTracked(s, s, r, laneID);
    UpActiveTracked(s, MAIN, true, r, laneID);
  }

  // ---------------------------------------------------------- the lane's own polls

  /** A section of a poll of lane object `r`, and the event it is in the lane's run: the poll exists
      there with its cursor, and a first section is that of the next poll, asked for by the client. */
  predicate Matches(x: Runs.Run, op: SessionRuns.Op, e: Runs.Event, r: LaneRef, laneID: nat) {
    match op
    case OpPollEnter(polled, me, cursor) =>
      polled == laneID && me == x.nextPoll && cursor in x.requests && e == Runs.RequestArrives(cursor)
    case OpPollWoken(lane, polled, me, cursor) =>
      lane == r && polled == laneID && me in x.polls && x.polls[me].woken && x.polls[me].cursor == cursor
      && e == Runs.WokenRuns(me)
    case OpPollDeadline(lane, polled, me, cursor) =>
      lane == r && polled == laneID && Runs.Waiting(x, me) && x.polls[me].cursor == cursor
      && e == Runs.DeadlineFires(me)
    case OpPollQuits(lane, me) => lane == r && Runs.Waiting(x, me) && e == Runs.ContextDone(me)
    case OpPollDisplaced(lane) =>
      lane == r && e.DisplacedReturns? && Runs.Waiting(x, e.poll) && x.polls[e.poll].displaced
    case OpPollTakesToken(lane) => lane == r && e.TokenTaken? && Runs.Waiting(x, e.poll) && x.lane.notify
    case _ => false
  }

  /** The waiting loop reads the downlink and what of the condition matters to it. */
  lemma LoopDownlink(a: Lane, b: Lane, me: nat, cursor: nat, batchLimit: int, c: Condition, d: Condition)
    requires SameDown(a, b) && SameCondition(c, d)
    ensures var t, u := Loop(a, me, cursor, batchLimit, c), Loop(b, me, cursor, batchLimit, d);
      SameDown(t.lane, u.lane) && t.outcome == u.outcome
  {
    hide TakeBatch, AfterBatch;
    if a.superseded == Some(me) && |a.queue.frames| != 0 {
      assert SameDown(a.(queue := AfterBatch(a.queue, batchLimit)), b.(queue := AfterBatch(b.queue, batchLimit)));
    } else if a.superseded == Some(me) {
      assert SameDown(Resigned(a), Resigned(b));
    }
  }

  lemma AfterTokenDownlink(a: Lane, b: Lane, me: nat, cursor: nat, batchLimit: int, c: Condition, d: Condition)
    requires SameDown(a, b) && SameCondition(c, d)
    ensures SameDown(AfterToken(a, me, cursor, batchLimit, c).lane, AfterToken(b, me, cursor, batchLimit, d).lane)
    ensures SameDown(Deadline(a, me, cursor, batchLimit, c).lane, Deadline(b, me, cursor, batchLimit, d).lane)
    ensures SameDown(Quit(a, me), Quit(b, me))
  {
    LoopDownlink(a, b, me, cursor, batchLimit, c, d);
    LoopDownlink(Signal(a), Signal(b), me, cursor, batchLimit, c, d);
    hide Loop;
  }

  lemma PresentDownlink(a: Lane, b: Lane, cursor: nat, me: nat)
    requires SameDown(a, b)
    ensures var p, q := Present(a, cursor), Present(b, cursor);
      && (p.Accepted? <==> q.Accepted?)
      && (p.Accepted? ==> SameDown(TakeOver(p.lane, me), TakeOver(q.lane, me)))
  {
    AcceptedLane(a, cursor);
    AcceptedLane(b, cursor);
    hide Present;
  }

  lemma AcceptedLane(l: Lane, cursor: nat)
    ensures var p := Present(l, cursor);
      && (p.Accepted? <==> cursor == l.downCursor && (|l.unacked| != 0 ==> cursor != l.unackedBase))
      && (p.Accepted? ==>
            p.lane == if |l.unacked| != 0 then l.(unacked := [], unackedCost := 0, unackedItems := 0) else l)
  {
  }

  lemma EnterMatches(x: Runs.Run, s: State, laneID: nat, cursor: nat, r: LaneRef)
    requires Inv(s) && Follows(x, s, r, laneID) && PollLaneOf(s, laneID) == Some(r) && !s.closed
        && laneID <= MAX_STREAM_ID
    requires cursor in x.requests
    ensures Follows(Runs.Step(x, Runs.RequestArrives(cursor), ConfigOf(s)), PollEnter(s, laneID, x.nextPoll, cursor).0,
        r, laneID)
  {
    hide InvWith, SameDown, Loop, Present, TakeOver, ConditionOf;
    var c, me := ConfigOf(s), x.nextPoll;
    PresentDownlink(x.lane, s.lanes[r], cursor, me);
    assert !Runs.Dropped(x) by { NotDetached(s, r, laneID); }
    if Present(s.lanes[r], cursor).Accepted? {
      var p, q := Present(x.lane, cursor), Present(s.lanes[r], cursor);
      SessionRuns.PresentKeepsInv(s, r, cursor);
      var released := Release(s, q.cost, q.items);
      ConditionSame(s, released, r, laneID);
      LoopDownlink(TakeOver(p.lane, me), TakeOver(q.lane, me), me, cursor, c.batchLimit, x.condition,
          ConditionOf(released, r, laneID));
      var t := Loop(TakeOver(q.lane, me), me, cursor, s.limits.carrierBatchBytes, ConditionOf(released, r, laneID));
      ConditionSame(s, WithLane(released, r, t.lane), r, laneID);
      EnterRun(x, cursor, c);
    }
  }

  lemma NotDetached(s: State, r: LaneRef, laneID: nat)
    requires PollLaneOf(s, laneID) == Some(r)
    ensures !ConditionOf(s, r, laneID).detached && ConditionOf(s, r, laneID).closed == s.closed
  {
  }

  lemma ConditionSame(s: State, t: State, r: LaneRef, laneID: nat)
    requires t.closed == s.closed && t.streams == s.streams && t.tombstones == s.tombstones
        && t.carrierLanes == s.carrierLanes
    ensures ConditionOf(t, r, laneID) == ConditionOf(s, r, laneID)
  {
  }

  lemma EnterRun(x: Runs.Run, cursor: nat, c: Runs.Config)
    requires cursor in x.requests && !Runs.Dropped(x) && Present(x.lane, cursor).Accepted?
    ensures var y := Runs.Step(x, Runs.RequestArrives(cursor), c);
      && y.lane
        == Loop(TakeOver(Present(x.lane, cursor).lane, x.nextPoll), x.nextPoll, cursor, c.batchLimit, x.condition).lane
      && y.condition == x.condition
  {
    hide Loop, Present, TakeOver;
  }

  lemma SettleRun(x: Runs.Run, p: nat, cursor: nat, t: Turn)
    ensures Runs.Settle(x, p, cursor, t).lane == t.lane && Runs.Settle(x, p, cursor, t).condition == x.condition
  {
  }

  lemma WokenIsEvent(x: Runs.Run, s: State, op: SessionRuns.Op, e: Runs.Event, r: LaneRef, laneID: nat)
    requires Follows(x, s, r, laneID) && s.panic.None? && Matches(x, op, e, r, laneID)
        && (op.OpPollWoken? || op.OpPollDeadline?)
    ensures Follows(Runs.Step(x, e, ConfigOf(s)), SessionRuns.Step(s, op), r, laneID)
  {
    hide SameDown, AfterToken, Deadline, Runs.Settle, ConditionOf;
    var c, me, cursor := ConfigOf(s), op.me, op.cursor;
    AfterTokenDownlink(x.lane, s.lanes[r], me, cursor, c.batchLimit, x.condition, ConditionOf(s, r, laneID));
    SettleRun(x, me, cursor, AfterToken(x.lane, me, cursor, c.batchLimit, x.condition));
    SettleRun(x, me, cursor, Deadline(x.lane, me, cursor, c.batchLimit, x.condition));
    ConditionSame(s, SessionRuns.Step(s, op), r, laneID);
  }

  lemma LeavingIsEvent(x: Runs.Run, s: State, op: SessionRuns.Op, e: Runs.Event, r: LaneRef, laneID: nat)
    requires Follows(x, s, r, laneID) && s.panic.None? && Matches(x, op, e, r, laneID)
    requires op.OpPollQuits? || op.OpPollDisplaced? || op.OpPollTakesToken?
    ensures Follows(Runs.Step(x, e, ConfigOf(s)), SessionRuns.Step(s, op), r, laneID)
  {
    hide SameDown, Quit, ConditionOf, Signal;
    EnqueueDownlink(x.lane, s.lanes[r], Frame(CLOSE, 0, []), 0);
    TokenDownlink(x.lane, s.lanes[r]);
    if op.OpPollQuits? {
      AfterTokenDownlink(x.lane, s.lanes[r], op.me, 0, ConfigOf(s).batchLimit, x.condition,
          ConditionOf(s, r, laneID));
    }
    ConditionSame(s, SessionRuns.Step(s, op), r, laneID);
  }

  /** A section of one of the lane's own polls is the matching event of its run. */
  lemma PollSectionIsEvent(x: Runs.Run, s: State, op: SessionRuns.Op, e: Runs.Event, r: LaneRef, laneID: nat)
    requires Inv(s) && s.panic.None? && Follows(x, s, r, laneID) && PollsLane(s, op, r)
        && Matches(x, op, e, r, laneID)
    requires laneID <= MAX_STREAM_ID
    ensures Follows(Runs.Step(x, e, ConfigOf(s)), SessionRuns.Step(s, op), r, laneID)
  {
    hide InvWith, Follows, Runs.Step, PollEnter;
    if op.OpPollWoken? || op.OpPollDeadline? {
      WokenIsEvent(x, s, op, e, r, laneID);
    } else if op.OpPollEnter? {
      NotDetached(s, r, laneID);
      if !s.closed {
        EnterMatches(x, s, laneID, op.cursor, r);
      } else {
        ClosedEnter(s, laneID, op.me, op.cursor);
        ClosedIgnores(x, s, op.cursor, r, laneID);
      }
    } else {
      LeavingIsEvent(x, s, op, e, r, laneID);
    }
  }

  lemma ClosedIgnores(x: Runs.Run, s: State, cursor: nat, r: LaneRef, laneID: nat)
    requires Follows(x, s, r, laneID) && s.closed
    ensures Runs.Step(x, Runs.RequestArrives(cursor), ConfigOf(s)) == x
  {
    hide Runs.Enter;
  }

  lemma ClosedEnter(s: State, laneID: nat, me: nat, cursor: nat)
    requires s.closed
    ensures PollEnter(s, laneID, me, cursor).0 == s
  {
  }

  lemma TokenDownlink(a: Lane, b: Lane)
    requires SameDown(a, b)
    ensures SameDown(a.(notify := false), b.(notify := false))
  {
  }

  /** A new lane starts as `LaneRuns` starts. */
  lemma NewLaneStarts(s: State, laneID: nat)
    requires Inv(s) && !s.closed && UsesLanes(s) && laneID !in s.carrierLanes && laneID !in s.tombstones.closed
    ensures Follows(Runs.START, AddLane(s, laneID), s.nextLane, laneID)
  {
    hide StreamsInv, LaneInv, Placement, Accounts;
  }

  /** A multiplexed session's own lane starts so too. */
  lemma NewSessionStarts(carrier: Carrier, limits: Limits)
    requires carrier == Https || carrier == WebSocket
    ensures Follows(Runs.START, NewSession(carrier, limits), MAIN, 0)
  {
  }
}
