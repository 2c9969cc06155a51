/** What a batch on one lane does not touch: `ProcessUpLane` in `internal/session/session.go`. Other
    streams, and other lanes unless the tombstone ring evicts them, stay exactly as they were; and no
    section but a lane's own uplink requests touches its sequence number. */
module Isolation {
  import opened Options
  import opened Frames
  import opened Budget
  import opened DownQueue
  import opened Lanes
  import opened Tombstones
  import opened SessionState
  import opened SessionInv
  import opened SessionSteps
  import opened Application
  import opened Validation
  import opened LaneLink
  import SessionRuns

  // ------------------------------------------------------------- sequence numbers

  /** The uplink state of a lane. */
  predicate SameUplink(a: Lane, b: Lane) {
    a.lastUpSequence == b.lastUpSequence && a.lastUpDigest == b.lastUpDigest && a.upActive == b.upActive
  }

  /** The uplink state, and whether the lane has a socket. */
  predicate SameGate(a: Lane, b: Lane) { SameUplink(a, b) && a.websocketActive == b.websocketActive }

  predicate UplinksKept(s: State, t: State) {
    t.carrier == s.carrier && forall r :: r in s.lanes ==> r in t.lanes && SameUplink(t.lanes[r], s.lanes[r])
  }

  predicate GatesKept(s: State, t: State) {
    t.carrier == s.carrier && forall r :: r in s.lanes ==> r in t.lanes && SameGate(t.lanes[r], s.lanes[r])
  }

  // -------------------------------------------------------------------- isolation

  /** Everything that is not about stream `id` is the same, but for lanes evicted with their tombstones. */
  predicate Spares(s: State, t: State, id: nat) {
    StreamsSpared(s, t, id) && LanesSpared(s, t, id) && t.limits == s.limits && t.carrier == s.carrier
    && t.closed == s.closed
  }

  predicate StreamsSpared(s: State, t: State, id: nat) {
    && (forall i :: i != id && i in s.streams ==> i in t.streams && t.streams[i] == s.streams[i])
    && (forall i :: i != id && i in t.streams ==> i in s.streams)
    && (forall i :: i != id && i in t.tombstones.closed ==> i in s.tombstones.closed)
  }

  predicate LanesSpared(s: State, t: State, id: nat) {
    && (id in s.carrierLanes ==> id in t.carrierLanes && t.carrierLanes[id] == s.carrierLanes[id])
    && (forall i :: i != id && i in t.carrierLanes ==>
          && i in s.carrierLanes && t.carrierLanes[i] == s.carrierLanes[i]
          && t.carrierLanes[i] in t.lanes && t.carrierLanes[i] in s.lanes
          && t.lanes[t.carrierLanes[i]] == s.lanes[s.carrierLanes[i]])
    && (forall i :: i != id && i in s.carrierLanes && i !in t.carrierLanes ==>
          i in s.tombstones.closed && i !in t.tombstones.closed && i !in t.streams)
  }

  lemma SparesThen(s: State, t: State, u: State, id: nat)
    requires Spares(s, t, id) && Spares(t, u, id)
    ensures Spares(s, u, id)
  {
  }

  lemma GatesThen(s: State, t: State, u: State)
    requires GatesKept(s, t) && GatesKept(t, u)
    ensures GatesKept(s, u)
  {
  }

  lemma QueueSpares(s: State, f: Frame, granted: bool, cost: int, items: int)
    requires InvWith(s, cost, items) && Queueable(s, f)
    ensures var t := QueueFrame(s, f, granted).0;
      GatesKept(s, t) && (UsesLanes(s) ==> Spares(s, t, f.streamID))
  {
    hide InvWith, QueueFrame, Admit, SessionAdmits, Push;
    EnqueueRoute(s, f, cost, items);
    QueueShape(s, f, granted);
    RegisterInjective(s, cost, items);
  }

  lemma RememberSpares(s: State, id: nat, cost: int, items: int)
    requires InvWith(s, cost, items) && id !in s.streams
    ensures GatesKept(s, RememberClosed(s, id)) && Spares(s, RememberClosed(s, id), id)
  {
    hide InvWith, RememberClosed, Remember, Evicted;
    var t := RememberClosed(s, id);
    RegisterInjective(s, cost, items);
    RememberedBefore(s, id, cost, items);
    if id !in s.tombstones.closed {
      RememberIds(s, id, cost, items);
      forall r | r in s.lanes
        ensures r in t.lanes && SameGate(t.lanes[r], s.lanes[r])
        ensures r in t.lanes
            && (t.lanes[r] == s.lanes[r] || RegisteredAs(s, id, r)
                || (EvictedBy(s, id).Some? && RegisteredAs(s, EvictedBy(s, id).value, r)))
      {
        RememberLanes(s, id, cost, items, r);
      }
    }
  }

  lemma DropStreamSpares(s: State, id: nat, cost: int, items: int)
    requires InvWith(s, cost, items) && id in s.streams
    ensures GatesKept(s, DropStream(s, id)) && Spares(s, DropStream(s, id), id)
  {
    hide InvWith, DropStream;
    RegisterInjective(s, cost, items);
    DropStreamKeepsInv(s, id, cost, items);
  }

  /** Lanes and tombstones are the same, and all streams but one. */
  lemma StreamSpares(s: State, t: State, id: nat, cost: int, items: int)
    requires InvWith(s, cost, items) && t.lanes == s.lanes && t.carrierLanes == s.carrierLanes
        && t.tombstones == s.tombstones
    requires t.limits == s.limits && t.carrier == s.carrier && t.closed == s.closed
    requires t.streams - {id} == s.streams - {id}
    ensures GatesKept(s, t) && Spares(s, t, id)
  {
    hide InvWith;
    RegisterInjective(s, cost, items);
    forall i | i != id
      ensures i in s.streams <==> i in t.streams
      ensures i in s.streams ==> t.streams[i] == s.streams[i]
    {
      assert i in s.streams <==> i in s.streams - {id};
      assert i in t.streams <==> i in t.streams - {id};
      if i in s.streams {
        assert (s.streams - {id})[i] == (t.streams - {id})[i];
      }
    }
  }

  lemma RefuseSpares(s: State, id: nat, granted: bool, cost: int, items: int)
    requires InvWith(s, cost, items) && !s.closed && id !in s.streams && 0 < id <= MAX_STREAM_ID
    requires UsesLanes(s) ==> id in s.carrierLanes
    ensures var t := QueueFrame(RememberClosed(s, id), Frame(CLOSE, id, []), granted).0;
      GatesKept(s, t) && (UsesLanes(s) ==> Spares(s, t, id))
  {
    hide InvWith, RememberClosed, QueueFrame, Queueable, Remember, Spares, GatesKept;
    var u := RememberClosed(s, id);
    RememberKeepsInv(s, id, cost, items);
    RememberShape(s, id, cost, items);
    RememberSpares(s, id, cost, items);
    CloseIsQueueable(u, id, cost, items);
    QueueSpares(u, Frame(CLOSE, id, []), granted, cost, items);
    var t := QueueFrame(u, Frame(CLOSE, id, []), granted).0;
    GatesThen(s, u, t);
    if UsesLanes(s) {
      SparesThen(s, u, t, id);
    }
  }

  lemma EndStreamSpares(s: State, id: nat, cost: int, items: int)
    requires InvWith(s, cost, items) && id in s.streams
    ensures var t := RememberClosed(DropStream(s, id), id);
      GatesKept(s, t) && Spares(s, t, id)
  {
    hide InvWith, RememberClosed, DropStream, Spares, GatesKept;
    var u := DropStream(s, id);
    DropStreamKeepsInv(s, id, cost, items);
    DropStreamSpares(s, id, cost, items);
    RememberSpares(u, id, cost, items);
    GatesThen(s, u, RememberClosed(u, id));
    SparesThen(s, u, RememberClosed(u, id), id);
  }

  lemma CallsSpare(s: State, t: State, id: nat, cost: int, items: int)
    requires InvWith(s, cost, items) && t == s.(calls := t.calls)
    ensures Spares(s, t, id) && GatesKept(s, t)
  {
    SparesItself(s, id, cost, items);
  }

  lemma ApplyFrameSpares(x: Applying, f: Frame, a: Answer)
    requires InvWith(x.state, x.cost, x.items) && !x.state.closed && Applicable(x.state, f, x.cost, x.items)
    ensures var t := ApplyFrame(x, f, a).state;
      GatesKept(x.state, t) && (UsesLanes(x.state) ==> Spares(x.state, t, f.streamID))
  {
    hide InvWith, RememberClosed, QueueFrame, DropStream, Fed, NewStream, Spares, GatesKept, SameGate;
    var s, id := x.state, f.streamID;
    var t := ApplyFrame(x, f, a).state;
    TicketAsked(s, a, x.cost, x.items);
    if id != 0 && f.typeCode == OPEN && !Admitted(s, a) {
      var u := AskTicket(s, a);
      hide AskTicket;
      RefuseSpares(u, id, a.granted, x.cost, x.items);
      CallsSpare(s, u, id, x.cost, x.items);
      if UsesLanes(s) {
        SparesThen(s, u, t, id);
      }
      GatesThen(s, u, t);
    } else if id != 0 && f.typeCode == CLOSE && id !in s.tombstones.closed {
      EndStreamSpares(s, id, x.cost, x.items);
    } else {
      OneStreamChanges(x, f, a);
      hide ApplyFrame;
      StreamSpares(s, t, id, x.cost, x.items);
    }
  }

  /** Only this stream differs. */
  predicate OneStream(s: State, t: State, id: nat) {
    && t.lanes == s.lanes && t.carrierLanes == s.carrierLanes && t.tombstones == s.tombstones
    && t.limits == s.limits && t.carrier == s.carrier && t.closed == s.closed
    && t.streams - {id} == s.streams - {id}
  }

  lemma WithOneStream(s: State, id: nat, st: Stream)
    ensures OneStream(s, WithStream(s, id, st), id)
  {
  }

  /** A frame that neither refuses nor ends a stream changes one stream at most. */
  lemma OneStreamChanges(x: Applying, f: Frame, a: Answer)
    requires !(f.streamID != 0 && f.typeCode == OPEN && !Admitted(x.state, a))
    requires !(f.streamID != 0 && f.typeCode == CLOSE && f.streamID !in x.state.tombstones.closed)
    ensures OneStream(x.state, ApplyFrame(x, f, a).state, f.streamID)
  {
    hide ApplyOpen, ApplyData, ApplyWindow, ApplyClose, Admitted, OneStream;
    SameStreams(x.state, x.state, f.streamID);
    if f.streamID != 0 {
      if f.typeCode == OPEN { OpensOne(x, f.streamID, a); }
      else if f.typeCode == DATA { FeedsOne(x, f.streamID, f.payload); }
      else if f.typeCode == WINDOW { CreditsOne(x, f.streamID, f.payload); }
      else if f.typeCode == CLOSE { LateCloseChangesNone(x, f.streamID); }
    }
  }

  lemma SameStreams(s: State, t: State, id: nat)
    requires t == s.(calls := t.calls, panic := t.panic, nextBackend := t.nextBackend)
    ensures OneStream(s, t, id)
  {
  }

  lemma OneStreamThen(s: State, t: State, u: State, id: nat)
    requires OneStream(s, t, id) && OneStream(t, u, id)
    ensures OneStream(s, u, id)
  {
  }

  lemma OpensOne(x: Applying, id: nat, a: Answer)
    requires Admitted(x.state, a)
    ensures OneStream(x.state, ApplyOpen(x, id, a).state, id)
  {
    hide OneStream, NewStream, QueueFrame, RememberClosed, WithStream;
    var s := x.state;
    var u := AskTicket(s, a);
    var v := WithStream(u, id, NewStream(u.nextBackend));
    SameStreams(s, u, id);
    WithOneStream(u, id, NewStream(u.nextBackend));
    OneStreamThen(s, u, v, id);
    var t := v.(nextBackend := u.nextBackend + 1);
    SameStreams(v, t, id);
    OneStreamThen(s, v, t, id);
  }

  lemma FeedsOne(x: Applying, id: nat, payload: Bytes)
    ensures OneStream(x.state, ApplyData(x, id, payload).state, id)
  {
    hide OneStream, Fed, WithStream;
    var s := x.state;
    SameStreams(s, s, id);
    SameStreams(s, s.(panic := Some(NilStream)), id);
    if id in s.streams {
      WithOneStream(s, id, Fed(s.streams[id], payload));
    }
  }

  lemma CreditsOne(x: Applying, id: nat, payload: Bytes)
    ensures OneStream(x.state, ApplyWindow(x, id, payload).state, id)
  {
    hide OneStream, WithStream;
    var s := x.state;
    SameStreams(s, s, id);
    SameStreams(s, s.(panic := Some(NilStream)), id);
    if id in s.streams {
      WithOneStream(s, id, s.streams[id].(sendCredit := Credited(s.streams[id].sendCredit, payload)));
    }
  }

  lemma LateCloseChangesNone(x: Applying, id: nat)
    requires id in x.state.tombstones.closed
    ensures OneStream(x.state, ApplyClose(x, id).state, id)
  {
    hide DropStream, RememberClosed;
    SameStreams(x.state, x.state, id);
  }

  lemma SparesItself(s: State, id: nat, cost: int, items: int)
    requires InvWith(s, cost, items)
    ensures Spares(s, s, id) && GatesKept(s, s)
  {
    hide InvWith;
    RegisterInjective(s, cost, items);
  }

  lemma PanicSpares(s: State, t: State, id: nat, cost: int, items: int)
    requires InvWith(s, cost, items) && t == s.(panic := t.panic)
    ensures Spares(s, t, id) && GatesKept(s, t)
  {
    hide InvWith;
    RegisterInjective(s, cost, items);
  }

  lemma {:induction false} ApplyAllSpares(
      x: Applying, sim: Sim, tombstones: set<nat>, past: seq<nat>, counted: set<nat>,
      frames: seq<Frame>, laneID: nat, answers: seq<Answer>)
    requires InStep(x, sim, tombstones, past, counted, frames, laneID)
    ensures var t := ApplyAll(x, frames, answers).state;
      GatesKept(x.state, t) && (UsesLanes(x.state) ==> Spares(x.state, t, laneID))
    decreases |frames|
  {
    hide InvWith, Linked, ApplyFrame, CoreStep, Simulate, PastAfter, Validate, OnWire, CountedAfter, Covered,
      Unknown, Spares, GatesKept, Applicable;
    SparesItself(x.state, laneID, x.cost, x.items);
    if frames != [] && x.state.panic.None? {
      var f, a := frames[0], First(answers);
      if Unknown(CoreOf(x.state), f) {
        UnknownPanics(x, f, a);
        PanicSpares(x.state, ApplyFrame(x, f, a).state, laneID, x.cost, x.items);
      } else {
        KnownIsApplicable(x, sim, tombstones, past, counted, frames, laneID);
        KnownStaysInStep(x, sim, tombstones, past, counted, frames, laneID, a);
        ApplyFrameSpares(x, f, a);
        var y := ApplyFrame(x, f, a);
        if y.ok {
          ApplyAllSpares(y, Simulate(sim, tombstones, f), tombstones,
              PastAfter(CoreOf(x.state), past, f, a, x.state.limits),
                         CountedAfter(counted, f), frames[1..], laneID, Others(answers));
          var t := ApplyAll(y, frames[1..], Others(answers)).state;
          GatesThen(x.state, y.state, t);
          if UsesLanes(x.state) {
            SparesThen(x.state, y.state, t, laneID);
          }
        }
      }
    }
  }

  // ------------------------------------------------------------------ committing a batch

  /** All lanes but `r` keep their sequence numbers. */
  predicate GatesKeptBut(s: State, t: State, r: LaneRef) {
    t.carrier == s.carrier && forall x :: x in s.lanes ==> x in t.lanes && (x != r ==> SameGate(t.lanes[x], s.lanes[x]))
  }

  /** What a request leaves at the lane it is for: a committed batch, or what was there. */
  predicate GateAfter(a: Lane, b: Lane, sequence: nat, body: Bytes, applied: bool) {
    b.upActive == a.upActive && b.websocketActive == a.websocketActive &&
    if applied then b.lastUpSequence == sequence && b.lastUpDigest == Sha256(body)
    else b.lastUpSequence == a.lastUpSequence && b.lastUpDigest == a.lastUpDigest
  }

  lemma LaneFieldSpares(s: State, t: State, r: LaneRef, l: Lane, id: nat, cost: int, items: int)
    requires InvWith(s, cost, items) && r in s.lanes && (UsesLanes(s) ==> RegisteredAs(s, id, r))
    requires t == s.(lanes := s.lanes[r := l], pendingCost := t.pendingCost, pendingItems := t.pendingItems,
        panic := t.panic, calls := t.calls)
    ensures GatesKeptBut(s, t, r) && (UsesLanes(s) ==> Spares(s, t, id) && RegisteredAs(t, id, r))
  {
    hide InvWith;
    RegisterInjective(s, cost, items);
  }

  lemma ReleaseShape(s: State, cost: int, items: int)
    ensures var t := Release(s, cost, items);
      t == s.(pendingCost := t.pendingCost, pendingItems := t.pendingItems,
        panic := t.panic, calls := t.calls)
  {
  }

  /** A batch changes its own lane's sequence number, when it is applied, and no other. */
  lemma CommitSpares(s: State, r: LaneRef, sequence: nat, body: Bytes, frames: seq<Frame>, a: Answers, laneID: nat)
    requires Inv(s) && !s.closed && r in s.lanes && OnWire(frames) && OnOneLane(s, frames, laneID)
    requires UsesLanes(s) ==> RegisteredAs(s, laneID, r)
    ensures var (t, o) := CommitBatch(s, r, sequence, body, frames, a);
      && GatesKeptBut(s, t, r) && GateAfter(s.lanes[r], t.lanes[r], sequence, body, o == Applied)
      && (UsesLanes(s) ==> Spares(s, t, laneID))
  {
    hide InvWith, ValidateBatch, Reservation, ApplyAll, SessionRuns.ReservationGranted, OnOneLane, Spares, InStep,
      Fifo, OnWire, Release, SessionRuns.Unreserved, CommitBatch, Committed;
    SessionRuns.CommitCases(s, r, sequence, body, frames, a);
    SparesItself(s, laneID, 0, 0);
    if ValidateBatch(s, frames) && SessionRuns.ReservationGranted(s, frames, a) {
      var reserved := SessionRuns.Reserved(s, frames);
      var x := Begin(reserved, frames);
      SessionRuns.ReservedKeepsInv(s, frames, a);
      SessionRuns.ReservedSame(s, frames, laneID);
      BatchStartsInStep(reserved, frames, laneID);
      ReservedSpares(s, frames, laneID);
      ApplyAllSpares(x, Sim(Snapshots(s.streams), {}), s.tombstones.closed, Fifo(s.tombstones), s.streams.Keys,
          frames, laneID, a.frames);
      var y := SessionRuns.AppliedTo(s, frames, a);
      if UsesLanes(s) {
        SparesThen(s, reserved, y.state, laneID);
        StaysRegistered(s, y.state, laneID, r);
      }
      if y.state.panic.None? {
        ValidatedBatch(reserved, frames, laneID, a.frames);
        ReleaseShape(y.state, y.cost, y.items);
        SettledSpares(s, y, r, sequence, body, laneID);
      }
    } else if ValidateBatch(s, frames) {
      SessionRuns.UnreservedSame(s, frames, a);
      CallsSpare(s, SessionRuns.Unreserved(s, frames, a), laneID, 0, 0);
    }
  }

  lemma StaysRegistered(s: State, t: State, laneID: nat, r: LaneRef)
    requires Spares(s, t, laneID) && RegisteredAs(s, laneID, r)
    ensures RegisteredAs(t, laneID, r)
  {
  }

  lemma ReservedSpares(s: State, frames: seq<Frame>, laneID: nat)
    requires Inv(s)
    ensures Spares(s, SessionRuns.Reserved(s, frames), laneID)
    ensures SessionRuns.Reserved(s, frames).lanes == s.lanes && SessionRuns.Reserved(s, frames).carrier == s.carrier
  {
    hide InvWith, Reservation;
    RegisterInjective(s, 0, 0);
  }

  lemma SettledSpares(s: State, y: Applying, r: LaneRef, sequence: nat, body: Bytes, laneID: nat)
    requires InvWith(y.state, y.cost, y.items) && GatesKept(s, y.state) && r in s.lanes
        && y.state.carrier == s.carrier
    requires UsesLanes(s) ==> Spares(s, y.state, laneID) && RegisteredAs(s, laneID, r)
    requires UsesLanes(s) ==> RegisteredAs(y.state, laneID, r)
    ensures var settled := Release(y.state, y.cost, y.items);
      var t := WithLane(settled, r, Committed(LaneAt(settled, r), sequence, body));
      && GatesKeptBut(s, settled, r) && GateAfter(s.lanes[r], settled.lanes[r], sequence, body, false)
      && GatesKeptBut(s, t, r) && GateAfter(s.lanes[r], t.lanes[r], sequence, body, true)
      && (UsesLanes(s) ==> Spares(s, settled, laneID) && Spares(s, t, laneID))
  {
    hide InvWith, Spares, Release;
    var settled := Release(y.state, y.cost, y.items);
    var t := WithLane(settled, r, Committed(LaneAt(settled, r), sequence, body));
    ReleaseShape(y.state, y.cost, y.items);
    RegisterInjective(y.state, y.cost, y.items);
    if UsesLanes(s) {
      SparedLanes(y.state, settled, t, r, laneID);
      SparesThen(s, y.state, settled, laneID);
      SparesThen(s, y.state, t, laneID);
    }
  }

  lemma SparedLanes(s: State, settled: State, t: State, r: LaneRef, laneID: nat)
    requires settled == s.(pendingCost := settled.pendingCost, pendingItems := settled.pendingItems,
        panic := settled.panic, calls := settled.calls)
    requires t == settled.(lanes := t.lanes)
        && (forall x :: x in s.lanes ==> x in t.lanes && (x != r ==> t.lanes[x] == s.lanes[x]))
    requires forall i :: i in s.carrierLanes ==> s.carrierLanes[i] in s.lanes
    requires forall i, j :: i in s.carrierLanes && j in s.carrierLanes && s.carrierLanes[i] == s.carrierLanes[j] ==>
      i == j
    requires RegisteredAs(s, laneID, r)
    ensures Spares(s, settled, laneID) && Spares(s, t, laneID)
  {
  }

  lemma UpOnLaneSpares(s: State, laneID: nat, sequence: nat, body: Bytes, frames: seq<Frame>, a: Answers)
    requires Inv(s) && UsesLanes(s) && !s.closed && laneID in s.carrierLanes && OnWire(frames)
    requires forall i :: 0 <= i < |frames| ==> frames[i].streamID == laneID
    ensures var r := s.carrierLanes[laneID];
      var (t, o) := UpOnLane(s, r, sequence, body, frames, a);
      && r in s.lanes && GatesKeptBut(s, t, r) && Spares(s, t, laneID)
      && (o == Applied ==> CheckUp(s.lanes[r], sequence, body) == Ready)
      && t.lanes[r].lastUpSequence == (if o == Applied then sequence else s.lanes[r].lastUpSequence)
      && t.lanes[r].lastUpDigest == (if o == Applied then Sha256(body) else s.lanes[r].lastUpDigest)
      && (t.lanes[r].upActive ==> s.lanes[r].upActive) && t.lanes[r].websocketActive == s.lanes[r].websocketActive
  {
    hide InvWith, CommitBatch, Spares, OnWire, CheckUp, Committed;
    var r := s.carrierLanes[laneID];
    SparesItself(s, laneID, 0, 0);
    SessionRuns.RegisteredInLanes(s, laneID);
    if CheckUp(s.lanes[r], sequence, body) == Ready {
      var active := SetUpActive(s, r, true);
      SessionRuns.UpActiveKeepsInv(s, r, true);
      LaneFieldSpares(s, active, r, active.lanes[r], laneID, 0, 0);
      CommitSpares(active, r, sequence, body, frames, a, laneID);
      var t := CommitBatch(active, r, sequence, body, frames, a).0;
      SessionRuns.CommitKeepsInv(active, r, sequence, body, frames, a, laneID);
      if t.panic.Some? {
        SessionRuns.ValidatedOnLane(active, frames, a, laneID);
      }
      StaysRegistered(active, t, laneID, r);
      SparesThen(s, active, t, laneID);
      var u := SetUpActive(t, r, false);
      LaneFieldSpares(t, u, r, u.lanes[r], laneID, 0, 0);
      SparesThen(s, t, u, laneID);
      SparesUses(s, active, t);
    }
  }

  lemma SparesUses(s: State, active: State, t: State)
    requires UsesLanes(s) && active.carrier == s.carrier && t.carrier == active.carrier
    ensures UsesLanes(t)
  {
  }

  lemma AddLaneSpares(s: State, laneID: nat)
    requires Inv(s) && laneID !in s.carrierLanes
    ensures Spares(s, AddLane(s, laneID), laneID) && GatesKept(s, AddLane(s, laneID))
  {
    hide StreamsInv, LaneInv, Placement, Accounts;
  }

  /** Lane isolation: whatever a client sends on one lane, every other stream and every other lane is
      left exactly as it was, except a lane whose stream had already closed and whose tombstone the
      batch pushes out; and no other lane's sequence number moves. */
  lemma LaneIsolation(s: State, laneID: nat, sequence: nat, body: Bytes, a: Answers)
    requires Inv(s)
    ensures var (t, o) := UpLane(s, laneID, sequence, body, a);
      && (forall id :: id != laneID && id in s.streams ==> id in t.streams && t.streams[id] == s.streams[id])
      && (forall id :: id != laneID && id in t.streams ==> id in s.streams)
      && (forall id :: id != laneID && id in t.carrierLanes ==>
            && id in s.carrierLanes && t.carrierLanes[id] == s.carrierLanes[id]
            && t.carrierLanes[id] in t.lanes && t.carrierLanes[id] in s.lanes
            && t.lanes[t.carrierLanes[id]] == s.lanes[s.carrierLanes[id]])
      && (forall id :: id != laneID && id in s.carrierLanes && id !in t.carrierLanes ==>
            id in s.tombstones.closed && id !in t.tombstones.closed && id !in t.streams)
  {
    hide InvWith, UpOnLane, ClientFrames, OnWire, OnlyLateFrames, AddLane;
    SparesItself(s, laneID, 0, 0);
    if UsesLanes(s) && laneID <= MAX_STREAM_ID && ClientFrames(s, body, Some(laneID)).Some? && !s.closed {
      var frames := ClientFrames(s, body, Some(laneID)).value;
      SessionRuns.ClientFramesOnWire(s, body, Some(laneID));
      var before := if laneID in s.carrierLanes then s else AddLane(s, laneID);
      if laneID !in s.carrierLanes {
        AddLaneKeepsInv(s, laneID, 0, 0);
        AddLaneSpares(s, laneID);
        SessionRuns.AddedLane(s, laneID);
      }
      hide LanesSpared, StreamsSpared;
      UpOnLaneSpares(before, laneID, sequence, body, frames, a);
      SparesThen(s, before, UpOnLane(before, before.carrierLanes[laneID], sequence, body, frames, a).0, laneID);
    }
    SparesMeans(s, UpLane(s, laneID, sequence, body, a).0, laneID);
  }

  lemma SparesMeans(s: State, t: State, id: nat)
    ensures Spares(s, t, id) ==> StreamsSpared(s, t, id) && LanesSpared(s, t, id)
  {
  }
}
