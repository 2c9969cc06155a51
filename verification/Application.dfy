/** Applying a batch frame by frame keeps the session's invariant, as long as each frame is applicable
    when its turn comes: `applyBatchLocked` in `internal/session/session.go`. That validation makes
    them applicable is in `Validation`. */
module Application {
  import opened Frames
  import opened Charges
  import opened Budget
  import opened Lanes
  import opened Tombstones
  import opened SessionState
  import opened SessionInv
  import opened SessionSteps

  /** The frame's stream id is what the program relies on it to be, and the reservation covers it. */
  predicate Applicable(s: State, f: Frame, cost: int, items: int) {
    var id := f.streamID;
    id == 0 ||
    (&& id <= MAX_STREAM_ID
     && (UsesLanes(s) ==> id in s.carrierLanes)
     && (f.typeCode == OPEN ==> id !in s.streams && id !in s.tombstones.closed)
     && (f.typeCode == DATA || f.typeCode == WINDOW || f.typeCode == CLOSE ==>
           id in s.tombstones.closed || id in s.streams)
     && (f.typeCode == DATA && id in s.streams ==>
         && |f.payload| <= s.streams[id].receiveWindow
         && WriteAmount(s.streams[id], f.payload).cost <= cost
         && WriteAmount(s.streams[id], f.payload).items <= items))
  }

  // ------------------------------------------------------------------- stream updates

  /** A stream's new record, in the invariant of its own and of all streams. */
  lemma StreamUpdateKeepsStreams(s: State, t: State, id: nat, st: Stream)
    requires StreamsInv(s) && 0 < id <= MAX_STREAM_ID && StreamInv(st)
    requires t == s.(streams := s.streams[id := st], nextBackend := t.nextBackend)
    requires id !in s.tombstones.closed && (UsesLanes(s) ==> id in s.carrierLanes)
    requires id in s.streams || |s.streams| < s.limits.maxStreamsPerSession
    ensures StreamsInv(t)
  {
    hide StreamInv, RingInv;
    assert t.streams.Keys == s.streams.Keys + {id};
  }

  /** A live stream's record changes by what the reservation changes the other way, or not at all. */
  lemma StreamUpdateKeepsInv(s: State, t: State, id: nat, st: Stream, cost: int, items: int, cost1: int, items1: int)
    requires InvWith(s, cost, items) && !s.closed && 0 < id <= MAX_STREAM_ID && StreamInv(st) && cost1 >= 0
        && items1 >= 0
    requires t == s.(streams := s.streams[id := st], nextBackend := t.nextBackend)
    requires id !in s.tombstones.closed && (UsesLanes(s) ==> id in s.carrierLanes)
    requires id in s.streams || |s.streams| < s.limits.maxStreamsPerSession
    requires st.pendingWriteCost + cost1 == cost + (if id in s.streams then s.streams[id].pendingWriteCost else 0)
    requires st.pendingWriteItems + items1 == items + (if id in s.streams then s.streams[id].pendingWriteItems else 0)
    ensures InvWith(t, cost1, items1)
  {
    hide StreamsInv, StreamInv, Partitioned, HeldSplit, LaneCharge, LanesInv;
    StreamUpdateKeepsStreams(s, t, id, st);
    LanesSame(s, t);
    forall k
      ensures Held(t, cost1, items1, k) == Held(s, cost, items, k)
    {
      SumUpdate(s.streams, StreamCharge, k, id, st);
    }
    AccountsMoved(s, t, cost, items, cost1, items1);
  }

  lemma AccountsMoved(s: State, t: State, cost: int, items: int, cost1: int, items1: int)
    requires Accounts(s, cost, items) && cost1 >= 0 && items1 >= 0
    requires t.limits == s.limits && t.pendingCost == s.pendingCost && t.pendingItems == s.pendingItems
    requires forall k :: Held(t, cost1, items1, k) == Held(s, cost, items, k)
    ensures Accounts(t, cost1, items1)
  {
    hide Held;
  }

  // -------------------------------------------------------------------------- DATA

  /** Queueing a write takes from the window what it adds to the bytes waiting. */
  lemma FedKeepsStreamInv(st: Stream, payload: Bytes)
    requires StreamInv(st) && |payload| <= st.receiveWindow
    ensures var fed, amount := Fed(st, payload), WriteAmount(st, payload);
      && StreamInv(fed)
      && fed.receiveWindow == st.receiveWindow - |payload|
      && fed.pendingWriteCost == st.pendingWriteCost + amount.cost
      && fed.pendingWriteItems == st.pendingWriteItems + amount.items
      && fed.sendCredit == st.sendCredit && fed.backend == st.backend
  {
  }

  lemma ApplyDataKeepsInv(x: Applying, f: Frame)
    requires InvWith(x.state, x.cost, x.items) && !x.state.closed && f.typeCode == DATA && f.streamID != 0
    requires Applicable(x.state, f, x.cost, x.items)
    ensures var y := ApplyData(x, f.streamID, f.payload); InvWith(y.state, y.cost, y.items)
  {
    hide InvWith, Fed, WriteAmount;
    var id := f.streamID;
    if id !in x.state.tombstones.closed {
      InvStream(x.state, id, x.cost, x.items);
      FedKeepsStreamInv(x.state.streams[id], f.payload);
      var y := ApplyData(x, id, f.payload);
      StreamUpdateKeepsInv(x.state, y.state, id, Fed(x.state.streams[id], f.payload), x.cost, x.items, y.cost,
          y.items);
    }
  }

  lemma InvStream(s: State, id: nat, cost: int, items: int)
    requires InvWith(s, cost, items) && id in s.streams
    ensures StreamInv(s.streams[id]) && id !in s.tombstones.closed && 0 < id <= MAX_STREAM_ID
    ensures UsesLanes(s) ==> id in s.carrierLanes
    ensures cost >= 0 && items >= 0
  {
    hide LanesInv, RingInv, Partitioned, Held, StreamInv;
  }

  // ------------------------------------------------------------------------- WINDOW

  lemma ApplyWindowKeepsInv(x: Applying, f: Frame)
    requires InvWith(x.state, x.cost, x.items) && !x.state.closed && f.typeCode == WINDOW && f.streamID != 0
    requires Applicable(x.state, f, x.cost, x.items)
    ensures var y := ApplyWindow(x, f.streamID, f.payload); InvWith(y.state, y.cost, y.items)
  {
    hide InvWith;
    var id := f.streamID;
    if id !in x.state.tombstones.closed {
      InvStream(x.state, id, x.cost, x.items);
      var y := ApplyWindow(x, id, f.payload);
      var st := x.state.streams[id];
      StreamUpdateKeepsInv(x.state, y.state, id, st.(sendCredit := Credited(st.sendCredit, f.payload)), x.cost,
          x.items, x.cost, x.items);
    }
  }

  // -------------------------------------------------------------------------- CLOSE

  lemma ApplyCloseKeepsInv(x: Applying, f: Frame)
    requires InvWith(x.state, x.cost, x.items) && !x.state.closed && f.typeCode == CLOSE && f.streamID != 0
    requires Applicable(x.state, f, x.cost, x.items)
    ensures var y := ApplyClose(x, f.streamID); InvWith(y.state, y.cost, y.items)
  {
    hide InvWith, RememberClosed, DropStream;
    var id := f.streamID;
    if id !in x.state.tombstones.closed {
      DropStreamKeepsInv(x.state, id, x.cost, x.items);
      RememberKeepsInv(DropStream(x.state, id), id, x.cost, x.items);
    }
  }

  // --------------------------------------------------------------------------- OPEN

  /** A CLOSE the relay sends for a stream. */
  lemma CloseIsQueueable(s: State, id: nat, cost: int, items: int)
    requires InvWith(s, cost, items) && !s.closed && id <= MAX_STREAM_ID && (UsesLanes(s) ==> id in s.carrierLanes)
    ensures Queueable(s, Frame(CLOSE, id, []))
  {
    hide StreamsInv, LanesInv, Accounts, ClosedInv;
  }

  lemma RefuseKeepsInv(s: State, id: nat, granted: bool, cost: int, items: int)
    requires InvWith(s, cost, items) && !s.closed && id !in s.streams && 0 < id <= MAX_STREAM_ID
    requires UsesLanes(s) ==> id in s.carrierLanes
    ensures InvWith(QueueFrame(RememberClosed(s, id), Frame(CLOSE, id, []), granted).0, cost, items)
  {
    hide InvWith, RememberClosed, Remember, QueueFrame, Queueable;
    var t := RememberClosed(s, id);
    RememberKeepsInv(s, id, cost, items);
    RememberShape(s, id, cost, items);
    CloseIsQueueable(t, id, cost, items);
    QueueKeepsInv(t, Frame(CLOSE, id, []), granted, cost, items);
  }

  lemma NewStreamInv(backend: nat)
    ensures StreamInv(NewStream(backend)) && NewStream(backend).pendingWriteCost == 0
        && NewStream(backend).pendingWriteItems == 0
  {
  }

  lemma TicketAsked(s: State, a: Answer, cost: int, items: int)
    requires InvWith(s, cost, items)
    ensures var t := AskTicket(s, a); InvWith(t, cost, items) && t == s.(calls := t.calls)
  {
    hide InvWith;
    CallsKeepInv(s, AskTicket(s, a), cost, items);
  }

  lemma ApplyOpenKeepsInv(x: Applying, f: Frame, a: Answer)
    requires InvWith(x.state, x.cost, x.items) && !x.state.closed && f.typeCode == OPEN && f.streamID != 0
    requires Applicable(x.state, f, x.cost, x.items)
    ensures var y := ApplyOpen(x, f.streamID, a); InvWith(y.state, y.cost, y.items)
  {
    hide InvWith, RememberClosed, QueueFrame, NewStream, StreamInv;
    var id := f.streamID;
    var s := AskTicket(x.state, a);
    TicketAsked(x.state, a, x.cost, x.items);
    hide AskTicket;
    if !Admitted(x.state, a) {
      RefuseKeepsInv(s, id, a.granted, x.cost, x.items);
    } else {
      NewStreamInv(s.nextBackend);
      InvAmounts(s, x.cost, x.items);
      StreamUpdateKeepsInv(s, ApplyOpen(x, id, a).state, id, NewStream(s.nextBackend), x.cost, x.items, x.cost,
          x.items);
    }
  }

  lemma InvAmounts(s: State, cost: int, items: int)
    requires InvWith(s, cost, items)
    ensures cost >= 0 && items >= 0
  {
    hide LanesInv, StreamsInv, Partitioned, Held;
  }

  /** One applicable frame keeps the budget exact, reservation included, and everything else. */
  lemma ApplyFrameKeepsInv(x: Applying, f: Frame, a: Answer)
    requires InvWith(x.state, x.cost, x.items) && !x.state.closed && Applicable(x.state, f, x.cost, x.items)
    ensures var y := ApplyFrame(x, f, a); InvWith(y.state, y.cost, y.items)
  {
    hide InvWith, ApplyOpen, ApplyData, ApplyWindow, ApplyClose, Applicable;
    if f.streamID != 0 {
      if f.typeCode == OPEN { ApplyOpenKeepsInv(x, f, a); }
      else if f.typeCode == DATA { ApplyDataKeepsInv(x, f); }
      else if f.typeCode == WINDOW { ApplyWindowKeepsInv(x, f); }
      else if f.typeCode == CLOSE { ApplyCloseKeepsInv(x, f); }
    }
  }
}
