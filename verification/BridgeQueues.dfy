/** The bridge's state: `reserve`, `release`, the queues of `runUp`, `runLaneUp` and the WebSocket
    carriers, and `finishWebSocketLane`, in the JavaScript embedded in `internal/bridge/page.go`. Each
    method is what happens between two points where the script awaits something. As long as the page is
    open, `queuedBytes` and `queuedItems` are exactly what is held, queued or in flight.

    Lane objects are records named by the order of their creation; a socket's buffered bytes are a
    parameter, and exceptions close the page as the script's `fail` does. */
module BridgeQueues {
  import opened Options
  import opened Frames
  import opened Charges
  import opened Tombstones
  import opened Bridges

  const QUEUE_LIMIT := 33554432
  const QUEUE_ITEM_LIMIT := 16384
  const LANE_QUEUE_LIMIT := 8388608
  const LANE_ITEM_LIMIT := 1024
  const CLOSED_LANE_LIMIT := 4096

  datatype Mode = Multiplexed | HttpsLanes | WebSocketLanes

  /** `reserve` has room for the data. */
  predicate RoomFor(size: nat, buffered: nat, bytes: int, items: int, lane: Option<BridgeLane>) {
    && size > 0 && bytes + buffered <= QUEUE_LIMIT - size && items < QUEUE_ITEM_LIMIT
    && (lane.Some? ==> lane.value.bytes <= LANE_QUEUE_LIMIT - size && lane.value.items < LANE_ITEM_LIMIT)
  }

  /** A frame that may come after its lane is gone. */
  predicate LateType(p: Piece) { p.typeCode == DATA || p.typeCode == CLOSE || p.typeCode == WINDOW }

  function Reserved(l: BridgeLane, size: nat): BridgeLane {
    l.(bytes := l.bytes + size, items := l.items + 1)
  }

  function WithQueued(l: BridgeLane, data: Bytes): BridgeLane {
    l.(pending := l.pending + [data], bytes := l.bytes + |data|, items := l.items + 1)
  }

  /** The lane object a frame of the id is queued on: the registered one, or the next to be made. */
  function LaneFor(lanes: map<nat, nat>, next: nat, id: nat): nat { if id in lanes then lanes[id] else next }

  /** The lanes registered are lane objects of that id that have not finished. */
  predicate LanesFit(objects: map<nat, BridgeLane>, lanes: map<nat, nat>, next: nat, histories: map<nat, History>) {
    && (forall id :: id in lanes ==>
          lanes[id] in objects && objects[lanes[id]].id == id && !objects[lanes[id]].finished)
    && (forall r :: r in objects ==> r < next && r in histories)
  }

  /** Every lane object's bytes are accounted for by what came in, until it is cancelled. */
  predicate LanesTrack(objects: map<nat, BridgeLane>, histories: map<nat, History>, batchLimit: nat) {
    forall r :: r in objects && r in histories && !objects[r].finished ==>
      Tracks(histories[r], objects[r].pending, batchLimit)
  }

  /** A WebSocket lane has nothing in flight between two events: its socket takes a batch at once. */
  predicate NoFlights(mode: Mode, objects: map<nat, BridgeLane>) {
    mode == WebSocketLanes ==> forall r :: r in objects ==> objects[r].inFlight.None?
  }

  /** The ids remembered as closed are the last ones closed. */
  ghost predicate Remembered(closed: set<nat>, order: seq<nat>) {
    |order| <= CLOSED_LANE_LIMIT && Distinct(order) && forall id :: id in closed <==> id in order
  }

  lemma LaneFits(objects: map<nat, BridgeLane>, lanes: map<nat, nat>, next: nat, histories: map<nat, History>,
      mode: Mode, batchLimit: nat, r: nat, l: BridgeLane, h: History)
    requires LanesFit(objects, lanes, next, histories) && LanesTrack(objects, histories, batchLimit)
        && NoFlights(mode, objects)
    requires r in objects && l.id == objects[r].id && (l.finished ==> forall id :: id in lanes ==> lanes[id] != r)
    requires (!l.finished ==> Tracks(h, l.pending, batchLimit)) && (mode == WebSocketLanes ==> l.inFlight.None?)
    ensures LanesFit(objects[r := l], lanes, next, histories[r := h])
    ensures LanesTrack(objects[r := l], histories[r := h], batchLimit) && NoFlights(mode, objects[r := l])
  {
    hide Tracks;
  }

  class Bridge {
    const mode: Mode
    const batchLimit: nat

    var closed: bool
    var queuedBytes: int
    var queuedItems: int
    var held: seq<Bytes>
    var upPending: seq<Bytes>
    var upFlight: Option<InFlight>
    var upSequence: nat
    var laneObjects: map<nat, BridgeLane>
    var lanes: map<nat, nat>
    var nextLane: nat
    var closedLanes: set<nat>
    var closedLaneOrder: seq<nat>

    ghost var upHistory: History
    ghost var laneHistories: map<nat, History>

    ghost predicate Valid()
      reads this
    {
      && (!closed ==> Accounted(queuedBytes, queuedItems, held, upPending, upFlight, laneObjects))
      && Tracks(upHistory, upPending, batchLimit)
      && LanesFit(laneObjects, lanes, nextLane, laneHistories)
      && LanesTrack(laneObjects, laneHistories, batchLimit)
      && NoFlights(mode, laneObjects)
      && Remembered(closedLanes, closedLaneOrder)
    }

    constructor (mode: Mode, batchLimit: nat)
      ensures Valid() && !closed && this.mode == mode && this.batchLimit == batchLimit
      ensures queuedBytes == 0 && queuedItems == 0 && upSequence == 1 && upPending == [] && lanes == map[]
    {
      this.mode, this.batchLimit := mode, batchLimit;
      closed, queuedBytes, queuedItems := false, 0, 0;
      held, upPending, upFlight, upSequence := [], [], None, 1;
      laneObjects, lanes, nextLane := map[], map[], 0;
      closedLanes, closedLaneOrder := {}, [];
      upHistory, laneHistories := NOTHING_QUEUED, map[];
      new;
      TracksNothing(batchLimit);
      NothingAccounted(held, upPending, laneObjects);
    }

    /** `fail` and `close`: from here on the accounts no longer matter. */
    method Fail()
      requires Valid()
      modifies `closed
      ensures Valid() && closed
    {
      closed := true;
    }

    // ---------------------------------------------------------- reserve and release

    /** `reserve`, for a lane if one is given. */
    method Reserve(size: nat, buffered: nat, lane: Option<nat>) returns (ok: bool)
      requires lane.Some? ==> lane.value in laneObjects
      modifies `queuedBytes, `queuedItems, `laneObjects
      ensures ok <==>
        && size > 0 && old(queuedBytes) + buffered + size <= 33554432 && old(queuedItems) + 1 <= 16384
        && (lane.Some? ==>
            && old(laneObjects)[lane.value].bytes + size <= 8388608
            && old(laneObjects)[lane.value].items + 1 <= 1024)
      ensures queuedBytes == old(queuedBytes) + (if ok then size else 0)
          && queuedItems == old(queuedItems) + (if ok then 1 else 0)
      ensures laneObjects == if ok && lane.Some?
        then old(laneObjects)[lane.value := Reserved(old(laneObjects)[lane.value], size)] else old(laneObjects)
    {
      if size == 0 || queuedBytes + buffered > QUEUE_LIMIT - size || queuedItems >= QUEUE_ITEM_LIMIT {
        return false;
      }
      if lane.Some? {
        var l := laneObjects[lane.value];
        if l.bytes > LANE_QUEUE_LIMIT - size || l.items >= LANE_ITEM_LIMIT {
          return false;
        }
        laneObjects := laneObjects[lane.value := Reserved(l, size)];
      }
      queuedBytes := queuedBytes + size;
      queuedItems := queuedItems + 1;
      return true;
    }

    /** `release`, without a lane. */
    method Release(bytes: int, items: int)
      modifies `queuedBytes, `queuedItems
      ensures queuedBytes == old(queuedBytes) - bytes && queuedItems == old(queuedItems) - items
    {
      queuedBytes := queuedBytes - bytes;
      queuedItems := queuedItems - items;
    }

    // ------------------------------------------------------------------ the one queue

    /** A message that arrives before there is a session. */
    method Hold(data: Bytes, buffered: nat)
      requires Valid() && !closed
      modifies `closed, `queuedBytes, `queuedItems, `held, `laneObjects
      ensures Valid() && laneObjects == old(laneObjects)
      ensures closed <==> !RoomFor(|data|, buffered, old(queuedBytes), old(queuedItems), None)
      ensures held == if closed then old(held) else old(held) + [data]
    {
      hide Accounted, Tracks, LanesFit, LanesTrack, NoFlights, Remembered;
      var ok := Reserve(|data|, buffered, None);
      if !ok {
        Fail();
        return;
      }
      HeldAccounted(old(queuedBytes), old(queuedItems), held, upPending, upFlight, laneObjects, data);
      held := held + [data];
    }

    /** `queueUp` and `queueWebSocket`. */
    method QueueUp(data: Bytes, buffered: nat)
      requires Valid() && !closed
      modifies `closed, `queuedBytes, `queuedItems, `upPending, `upHistory, `laneObjects
      ensures Valid() && laneObjects == old(laneObjects)
      ensures closed <==> !RoomFor(|data|, buffered, old(queuedBytes), old(queuedItems), None)
      ensures !closed ==> upPending == old(upPending) + [data] && upHistory == QueuedIn(old(upHistory), data)
      ensures closed ==> upPending == old(upPending) && upHistory == old(upHistory)
    {
      hide Accounted, Tracks, LanesFit, LanesTrack, NoFlights, Remembered, QueuedIn;
      var ok := Reserve(|data|, buffered, None);
      if !ok {
        Fail();
        return;
      }
      PendingAccounted(old(queuedBytes), old(queuedItems), held, upPending, upFlight, laneObjects, data);
      TracksQueued(upHistory, upPending, batchLimit, data);
      upPending := upPending + [data];
      upHistory := QueuedIn(upHistory, data);
    }

    /** The head of `runUp`'s loop: the next body, of which the bridge then awaits the acknowledgement.
        What it packs is as much as the relay takes, in order, whole frames. */
    method StartUp() returns (body: Option<Bytes>)
      requires Valid() && !closed && upPending != [] && upFlight.None?
      modifies `closed, `queuedItems, `upPending, `upFlight, `upHistory
      ensures Valid()
      ensures body.None? <==> closed
      ensures body.Some? ==>
        && upHistory == old(upHistory).(sent := old(upHistory).sent + [body.value])
        && body.value + Flat(upPending) == Flat(old(upPending))
        && upFlight.Some? && upFlight.value.total == |body.value|
      ensures old(upHistory).good ==> body.Some? && Deliverable(body.value, batchLimit)
    {
      hide Accounted, Tracks, LanesFit, LanesTrack, NoFlights, Remembered, Acceptable, Packed, AllIn, Flat,
        WellFormed;
      GoodPending(upHistory, upPending, batchLimit);
      var r, taken := JoinPending(upPending, batchLimit);
      if r.None? {
        Fail();
        return None;
      }
      var joined := r.value;
      if AllWellFormed(upPending) {
        AcceptableDelivers(joined.body, taken, batchLimit);
      }
      TracksSent(upHistory, upPending, batchLimit, joined, taken);
      FlightAccounted(queuedBytes, queuedItems, held, upPending, laneObjects, joined);
      upPending := joined.rest;
      if joined.split {
        queuedItems := queuedItems + 1;
      }
      upFlight := Some(InFlight(|joined.body|, joined.count));
      upHistory := upHistory.(sent := upHistory.sent + [joined.body]);
      return Some(joined.body);
    }

    /** The relay has acknowledged the body. */
    method FinishUp()
      requires Valid() && !closed && upFlight.Some?
      modifies `queuedBytes, `queuedItems, `upFlight, `upSequence
      ensures Valid() && upFlight.None? && upSequence == old(upSequence) + 1
    {
      hide Accounted, Tracks, LanesFit, LanesTrack, NoFlights, Remembered;
      Land();
      upSequence := upSequence + 1;
    }

    /** What was in flight is released. */
    method Land()
      requires Valid() && !closed && upFlight.Some?
      modifies `queuedBytes, `queuedItems, `upFlight
      ensures Valid() && upFlight.None?
      ensures queuedBytes == old(queuedBytes) - old(upFlight).value.total
          && queuedItems == old(queuedItems) - old(upFlight).value.count
    {
      hide Accounted, Tracks, LanesFit, LanesTrack, NoFlights, Remembered;
      LandedAccounted(queuedBytes, queuedItems, held, upPending, upFlight, laneObjects);
      Release(upFlight.value.total, upFlight.value.count);
      upFlight := None;
    }

    /** `runWebSocketUp`: the socket takes the body at once. */
    method SendUp() returns (body: Option<Bytes>)
      requires Valid() && !closed && upPending != [] && upFlight.None?
      modifies `closed, `queuedBytes, `queuedItems, `upPending, `upFlight, `upHistory
      ensures Valid() && (body.None? <==> closed)
      ensures body.Some? ==> upFlight.None? && upHistory == old(upHistory).(sent := old(upHistory).sent + [body.value])
      ensures old(upHistory).good ==> body.Some? && Deliverable(body.value, batchLimit)
    {
      body := StartUp();
      if body.Some? {
        Land();
      }
    }

    /** The loop of `createSession` that queues what was held, in the multiplexed modes. */
    method ReleaseHeld(buffered: nat)
      requires Valid() && !closed
      modifies `closed, `queuedBytes, `queuedItems, `held, `upPending, `upHistory, `laneObjects
      ensures Valid() && laneObjects == old(laneObjects)
      ensures !closed ==> held == [] && upPending == old(upPending) + old(held)
    {
      hide Tracks, LanesFit, LanesTrack, NoFlights, Remembered, Accounted, RoomFor, QueuedIn;
      while held != []
        invariant Valid() && !closed && laneObjects == old(laneObjects)
            && upPending + held == old(upPending) + old(held)
        decreases |held|
      {
        var data := held[0];
        UnheldAccounted(queuedBytes, queuedItems, held, upPending, upFlight, laneObjects);
        assert upPending + held == (upPending + [data]) + held[1..];
        Release(|data|, 1);
        held := held[1..];
        QueueUp(data, buffered);
        if closed {
          return;
        }
      }
    }

    // -------------------------------------------------------------------------- lanes

    /** `rememberLaneClosed`. */
    method RememberLaneClosed(id: nat)
      requires Remembered(closedLanes, closedLaneOrder)
      modifies `closedLanes, `closedLaneOrder
      ensures Remembered(closedLanes, closedLaneOrder)
      ensures closedLaneOrder == if id == 0 then old(closedLaneOrder)
        else FifoRemember(old(closedLaneOrder), id, CLOSED_LANE_LIMIT)
    {
      if id == 0 || id in closedLanes {
        return;
      }
      if |closedLaneOrder| == CLOSED_LANE_LIMIT {
        OldestLeaves(closedLaneOrder, closedLanes);
        closedLanes := closedLanes - {closedLaneOrder[0]};
        closedLaneOrder := closedLaneOrder[1..];
      }
      NewestJoins(closedLaneOrder, closedLanes, id);
      closedLanes := closedLanes + {id};
      closedLaneOrder := closedLaneOrder + [id];
    }

    /** `ensureLane`: the registered lane of the id, or a new one. */
    method EnsureLane(id: nat) returns (r: nat)
      requires Valid() && !closed
      modifies `laneObjects, `lanes, `nextLane, `laneHistories
      ensures Valid() && id in lanes && r == lanes[id] && r in laneObjects && r in laneHistories
      ensures id in old(lanes) ==> unchanged(this)
      ensures id !in old(lanes) ==>
        && r == old(nextLane) && laneObjects == old(laneObjects)[r := NewLane(id)] && lanes == old(lanes)[id := r]
        && laneHistories == old(laneHistories)[r := NOTHING_QUEUED]
    {
      hide Accounted, Tracks, Remembered;
      if id in lanes {
        return lanes[id];
      }
      r := nextLane;
      LaneJoins(queuedBytes, queuedItems, held, upPending, upFlight, laneObjects, r, id, batchLimit);
      laneObjects := laneObjects[r := NewLane(id)];
      lanes := lanes[id := r];
      laneHistories := laneHistories[r := NOTHING_QUEUED];
      nextLane := nextLane + 1;
    }

    /** `reserve` and the push that follows it, for a lane. */
    method QueueOn(r: nat, data: Bytes, buffered: nat)
      requires Valid() && !closed && r in laneObjects && r in laneHistories && !laneObjects[r].finished
      modifies `closed, `queuedBytes, `queuedItems, `laneObjects, `laneHistories
      ensures Valid()
      ensures closed <==> !RoomFor(|data|, buffered, old(queuedBytes), old(queuedItems), Some(old(laneObjects)[r]))
      ensures !closed ==>
        && laneObjects == old(laneObjects)[r := WithQueued(old(laneObjects)[r], data)]
        && laneHistories == old(laneHistories)[r := QueuedIn(old(laneHistories)[r], data)]
      ensures closed ==> laneObjects == old(laneObjects) && laneHistories == old(laneHistories)
    {
      hide Accounted, Tracks, LanesFit, NoFlights, Remembered, QueuedIn;
      var lane := laneObjects[r];
      var ok := Reserve(|data|, buffered, Some(r));
      if !ok {
        Fail();
        return;
      }
      var queued := WithQueued(lane, data);
      ghost var before := old(laneObjects);
      LaneQueued(old(queuedBytes), old(queuedItems), held, upPending, upFlight, before, r, data);
      TracksQueued(laneHistories[r], lane.pending, batchLimit, data);
      FitsMeans(before, lanes, nextLane, laneHistories, mode);
      LaneFits(before, lanes, nextLane, laneHistories, mode, batchLimit, r, queued, QueuedIn(laneHistories[r], data));
      laneObjects := laneObjects[r := laneObjects[r].(pending := laneObjects[r].pending + [data])];
      assert laneObjects == before[r := queued];
      laneHistories := laneHistories[r := QueuedIn(laneHistories[r], data)];
    }

    /** `queueLane`: late frames of a lane that is gone are dropped, other frames need its OPEN first. */
    method QueueLane(piece: Piece, buffered: nat)
      requires Valid() && !closed
      modifies this
      ensures Valid()
      ensures
        var known := piece.id in old(lanes);
        var r := LaneFor(old(lanes), old(nextLane), piece.id);
        var lane := if known then old(laneObjects)[r] else NewLane(piece.id);
        if !known && (piece.typeCode == DATA || piece.typeCode == CLOSE || piece.typeCode == WINDOW)
        then unchanged(this)
        else if !known && (piece.id in old(closedLanes) || piece.typeCode != OPEN) then
          closed && laneObjects == old(laneObjects) && lanes == old(lanes)
        else
          && (closed <==> !RoomFor(|piece.data|, buffered, old(queuedBytes), old(queuedItems), Some(lane)))
          && lanes == old(lanes)[piece.id := r]
          && laneObjects == old(laneObjects)[r := if closed then lane else WithQueued(lane, piece.data)]
    {
      hide Accounted, Tracks, LanesTrack, NoFlights, Remembered, QueuedIn, RoomFor;
      if piece.id !in lanes {
        if piece.typeCode == DATA || piece.typeCode == CLOSE || piece.typeCode == WINDOW {
          return;
        }
        if piece.id in closedLanes || piece.typeCode != OPEN {
          Fail();
          return;
        }
      }
      var r := EnsureLane(piece.id);
      QueueOn(r, piece.data, buffered);
    }

    /** The head of `runLaneUp`'s loop. */
    method StartLane(r: nat) returns (body: Option<Bytes>)
      requires Valid() && !closed && mode == HttpsLanes && r in laneObjects && r in laneHistories
          && !laneObjects[r].finished
      requires laneObjects[r].pending != [] && laneObjects[r].inFlight.None?
      modifies `closed, `queuedItems, `laneObjects, `laneHistories
      ensures Valid() && (body.None? <==> closed)
      ensures body.Some? ==>
        && r in laneObjects && r in laneHistories && laneObjects[r].inFlight.Some?
        && laneObjects[r].inFlight.value.total == |body.value|
        && laneHistories[r] == old(laneHistories)[r].(sent := old(laneHistories)[r].sent + [body.value])
        && laneObjects[r].sequence == old(laneObjects)[r].sequence
      ensures old(laneHistories)[r].good ==> body.Some? && Deliverable(body.value, batchLimit)
    {
      hide Accounted, Tracks, LanesFit, NoFlights, Remembered, Acceptable, Packed, AllIn, Flat, WellFormed;
      var lane := laneObjects[r];
      GoodPending(laneHistories[r], lane.pending, batchLimit);
      var joinedPending, taken := JoinPending(lane.pending, batchLimit);
      if joinedPending.None? {
        Fail();
        return None;
      }
      var joined := joinedPending.value;
      if AllWellFormed(lane.pending) {
        AcceptableDelivers(joined.body, taken, batchLimit);
      }
      var sending := Sending(lane, joined);
      ghost var h := laneHistories[r].(sent := laneHistories[r].sent + [joined.body]);
      TracksSent(laneHistories[r], lane.pending, batchLimit, joined, taken);
      LaneSends(queuedBytes, queuedItems, held, upPending, upFlight, laneObjects, r, joined);
      FitsMeans(laneObjects, lanes, nextLane, laneHistories, mode);
      LaneFits(laneObjects, lanes, nextLane, laneHistories, mode, batchLimit, r, sending, h);
      if joined.split {
        queuedItems := queuedItems + 1;
      }
      laneObjects := laneObjects[r := sending];
      laneHistories := laneHistories[r := h];
      return Some(joined.body);
    }

    /** The relay has acknowledged the lane's body. */
    method FinishLane(r: nat)
      requires Valid() && !closed && r in laneObjects && r in laneHistories && laneObjects[r].inFlight.Some?
      modifies `queuedBytes, `queuedItems, `laneObjects, `laneHistories
      ensures Valid() && r in laneObjects && laneObjects[r].inFlight.None?
      ensures laneObjects[r].sequence == old(laneObjects)[r].sequence + 1
          && laneObjects[r].pending == old(laneObjects)[r].pending
    {
      hide Accounted, Tracks, LanesFit, NoFlights, Remembered;
      var lane := laneObjects[r];
      LaneLands(queuedBytes, queuedItems, held, upPending, upFlight, laneObjects, r);
      FitsMeans(laneObjects, lanes, nextLane, laneHistories, mode);
      LaneFits(laneObjects, lanes, nextLane, laneHistories, mode, batchLimit, r,
          Landed(lane).(sequence := lane.sequence + 1), laneHistories[r]);
      queuedBytes := queuedBytes - lane.inFlight.value.total;
      queuedItems := queuedItems - lane.inFlight.value.count;
      laneObjects := laneObjects[r := Landed(lane).(sequence := lane.sequence + 1)];
      laneHistories := laneHistories[r := laneHistories[r]];
    }

    /** A poll reports the lane as closed: it leaves the register. What it still has to send, it sends. */
    method LaneClosed(id: nat)
      requires Valid() && !closed && id in lanes
      modifies `lanes, `closedLanes, `closedLaneOrder
      ensures Valid() && lanes == old(lanes) - {id} && (id != 0 ==> id in closedLanes)
    {
      hide Accounted, Tracks;
      lanes := lanes - {id};
      RememberLaneClosed(id);
      RememberedIn(old(closedLaneOrder), id);
    }

    /** `finishWebSocketLane`: whatever the lane still has queued is given up, and its account with it. */
    method FinishWebSocketLane(r: nat)
      requires Valid() && !closed && mode == WebSocketLanes && r in laneObjects && r in laneHistories
      modifies `queuedBytes, `queuedItems, `laneObjects, `lanes, `closedLanes, `closedLaneOrder, `laneHistories
      ensures Valid() && !closed
      ensures var lane := old(laneObjects)[r];
        if lane.finished || lane.id !in old(lanes) || old(lanes)[lane.id] != r
        then queuedBytes == old(queuedBytes) && queuedItems == old(queuedItems) && laneObjects == old(laneObjects)
        && lanes == old(lanes)
        else
          && queuedBytes == old(queuedBytes) - lane.bytes && queuedItems == old(queuedItems) - lane.items
          && laneObjects == old(laneObjects)[r := Ended(lane)] && lanes == old(lanes) - {lane.id}
    {
      hide Accounted, Tracks, LanesFit, LanesTrack, NoFlights, Remembered;
      var lane := laneObjects[r];
      if lane.finished || lane.id !in lanes || lanes[lane.id] != r {
        return;
      }
      CancelLane(r);
      RememberLaneClosed(lane.id);
    }

    method CancelLane(r: nat)
      requires Valid() && !closed && mode == WebSocketLanes && r in laneObjects && r in laneHistories
      requires laneObjects[r].id in lanes && lanes[laneObjects[r].id] == r
      modifies `queuedBytes, `queuedItems, `laneObjects, `lanes, `laneHistories
      ensures Valid()
      ensures queuedBytes == old(queuedBytes) - old(laneObjects)[r].bytes
          && queuedItems == old(queuedItems) - old(laneObjects)[r].items
      ensures laneObjects == old(laneObjects)[r := Ended(old(laneObjects)[r])]
          && lanes == old(lanes) - {old(laneObjects)[r].id}
    {
      hide Accounted, Tracks, LanesFit, LanesTrack, NoFlights, Remembered;
      var lane := laneObjects[r];
      FitsMeans(laneObjects, lanes, nextLane, laneHistories, mode);
      UnregisterFits(laneObjects, lanes, nextLane, laneHistories, r);
      LaneEnds(queuedBytes, queuedItems, held, upPending, upFlight, laneObjects, r);
      LaneFits(laneObjects, lanes - {lane.id}, nextLane, laneHistories, mode, batchLimit, r, Ended(lane),
          laneHistories[r]);
      queuedBytes := queuedBytes - lane.bytes;
      queuedItems := queuedItems - lane.items;
      laneObjects := laneObjects[r := Ended(lane)];
      laneHistories := laneHistories[r := laneHistories[r]];
      lanes := lanes - {lane.id};
    }

    /** `queueWebSocketLane`: a CLOSE that overtakes its own socket cancels the lane. */
    method QueueWebSocketLane(piece: Piece, buffered: nat)
      requires Valid() && !closed && mode == WebSocketLanes
      modifies this
      ensures Valid()
      ensures
        var known := piece.id in old(lanes);
        var r := LaneFor(old(lanes), old(nextLane), piece.id);
        var lane := if known then old(laneObjects)[r] else NewLane(piece.id);
        if !known && (piece.typeCode == DATA || piece.typeCode == CLOSE || piece.typeCode == WINDOW)
        then unchanged(this)
        else if piece.id == 0 || (!known && (piece.id in old(closedLanes) || piece.typeCode != OPEN)) then
          closed && laneObjects == old(laneObjects) && lanes == old(lanes)
        else if piece.typeCode == CLOSE && !lane.connected then
          && !closed && lanes == old(lanes) - {piece.id} && laneObjects == old(laneObjects)[r := Ended(lane)]
          && queuedBytes == old(queuedBytes) - lane.bytes && queuedItems == old(queuedItems) - lane.items
        else
          && (closed <==> !RoomFor(|piece.data|, buffered, old(queuedBytes), old(queuedItems), Some(lane)))
          && lanes == old(lanes)[piece.id := r]
          && laneObjects == old(laneObjects)[r := if closed then lane
            else WithQueued(lane, piece.data).(localClosed := lane.localClosed || piece.typeCode == CLOSE)]
    {
      hide Accounted, Tracks, LanesTrack, NoFlights, Remembered, QueuedIn, RoomFor;
      if piece.id !in lanes && (piece.typeCode == DATA || piece.typeCode == CLOSE || piece.typeCode == WINDOW) {
        return;
      }
      if piece.id == 0 || (piece.id !in lanes && (piece.id in closedLanes || piece.typeCode != OPEN)) {
        Fail();
        return;
      }
      var r := EnsureLane(piece.id);
      if piece.typeCode == CLOSE && !laneObjects[r].connected {
        FinishWebSocketLane(r);
        return;
      }
      QueueOn(r, piece.data, buffered);
      if !closed && piece.typeCode == CLOSE {
        MarkLane(r, laneObjects[r].(localClosed := true));
      }
    }

    /** A flag of the lane changes, nothing else. */
    method MarkLane(r: nat, lane: BridgeLane)
      requires Valid() && r in laneObjects && r in laneHistories && !laneObjects[r].finished
      requires lane == laneObjects[r].(connected := lane.connected, localClosed := lane.localClosed)
      modifies `laneObjects, `laneHistories
      ensures Valid() && laneObjects == old(laneObjects)[r := lane] && laneHistories == old(laneHistories)
    {
      hide Accounted, Tracks, LanesFit, NoFlights, Remembered;
      if !closed {
        LaneMarked(queuedBytes, queuedItems, held, upPending, upFlight, laneObjects, r, lane);
      }
      FitsMeans(laneObjects, lanes, nextLane, laneHistories, mode);
      LaneFits(laneObjects, lanes, nextLane, laneHistories, mode, batchLimit, r, lane, laneHistories[r]);
      assert laneHistories[r := laneHistories[r]] == laneHistories;
      laneObjects := laneObjects[r := lane];
    }

    /** `runWebSocketLaneUp`: the socket takes the body at once. */
    method SendLane(r: nat) returns (body: Option<Bytes>)
      requires Valid() && !closed && r in laneObjects && r in laneHistories && !laneObjects[r].finished
      requires laneObjects[r].pending != [] && laneObjects[r].inFlight.None?
      modifies `closed, `queuedBytes, `queuedItems, `laneObjects, `laneHistories
      ensures Valid() && (body.None? <==> closed)
      ensures body.Some? ==>
        && r in laneObjects && r in laneHistories && laneObjects[r].inFlight.None?
        && queuedBytes == old(queuedBytes) - |body.value|
        && laneHistories[r] == old(laneHistories)[r].(sent := old(laneHistories)[r].sent + [body.value])
      ensures old(laneHistories)[r].good ==> body.Some? && Deliverable(body.value, batchLimit)
    {
      hide Accounted, Tracks, LanesFit, NoFlights, Remembered, Acceptable, Packed, AllIn, Flat, WellFormed;
      var lane := laneObjects[r];
      GoodPending(laneHistories[r], lane.pending, batchLimit);
      var joinedPending, taken := JoinPending(lane.pending, batchLimit);
      if joinedPending.None? {
        Fail();
        return None;
      }
      var joined := joinedPending.value;
      if AllWellFormed(lane.pending) {
        AcceptableDelivers(joined.body, taken, batchLimit);
      }
      var sent := Landed(Sending(lane, joined));
      ghost var h := laneHistories[r].(sent := laneHistories[r].sent + [joined.body]);
      TracksSent(laneHistories[r], lane.pending, batchLimit, joined, taken);
      LaneSendsAtOnce(queuedBytes, queuedItems, held, upPending, upFlight, laneObjects, r, joined);
      FitsMeans(laneObjects, lanes, nextLane, laneHistories, mode);
      LaneFits(laneObjects, lanes, nextLane, laneHistories, mode, batchLimit, r, sent, h);
      if joined.split {
        queuedItems := queuedItems + 1;
      }
      queuedBytes := queuedBytes - |joined.body|;
      queuedItems := queuedItems - joined.count;
      laneObjects := laneObjects[r := sent];
      laneHistories := laneHistories[r := h];
      return Some(joined.body);
    }
  }

  lemma NothingAccounted(held: seq<Bytes>, pending: seq<Bytes>, lanes: map<nat, BridgeLane>)
    requires held == [] && pending == [] && lanes == map[]
    ensures Accounted(0, 0, held, pending, None, lanes)
  {
    SumOfNothing(lanes, LaneSize, UpCost);
    SumOfNothing(lanes, LaneSize, UpItems);
  }

  lemma HeldAccounted(bytes: int, items: int, held: seq<Bytes>, pending: seq<Bytes>, inFlight: Option<InFlight>,
      lanes: map<nat, BridgeLane>, data: Bytes)
    requires Accounted(bytes, items, held, pending, inFlight, lanes)
    ensures Accounted(bytes + |data|, items + 1, held + [data], pending, inFlight, lanes)
  {
    FlatLength(held, data);
    hide Flat;
  }

  lemma UnheldAccounted(bytes: int, items: int, held: seq<Bytes>, pending: seq<Bytes>, inFlight: Option<InFlight>,
      lanes: map<nat, BridgeLane>)
    requires Accounted(bytes, items, held, pending, inFlight, lanes) && held != []
    ensures Accounted(bytes - |held[0]|, items - 1, held[1..], pending, inFlight, lanes)
  {
  }

  lemma PendingAccounted(bytes: int, items: int, held: seq<Bytes>, pending: seq<Bytes>, inFlight: Option<InFlight>,
      lanes: map<nat, BridgeLane>, data: Bytes)
    requires Accounted(bytes, items, held, pending, inFlight, lanes)
    ensures Accounted(bytes + |data|, items + 1, held, pending + [data], inFlight, lanes)
  {
    FlatLength(pending, data);
    hide Flat;
  }

  lemma FlightAccounted(bytes: int, items: int, held: seq<Bytes>, pending: seq<Bytes>, lanes: map<nat, BridgeLane>,
      r: Joined)
    requires Accounted(bytes, items, held, pending, None, lanes) && Conserves(pending, r)
    ensures Accounted(bytes, items + (if r.split then 1 else 0), held, r.rest, Some(InFlight(|r.body|, r.count)), lanes)
  {
    JoinedCounts(pending, r);
    hide Flat, Conserves;
  }

  lemma LandedAccounted(bytes: int, items: int, held: seq<Bytes>, pending: seq<Bytes>, inFlight: Option<InFlight>,
      lanes: map<nat, BridgeLane>)
    requires Accounted(bytes, items, held, pending, inFlight, lanes) && inFlight.Some?
    ensures Accounted(bytes - inFlight.value.total, items - inFlight.value.count, held, pending, None, lanes)
  {
    hide Flat;
  }

  lemma GoodPending(h: History, pending: seq<Bytes>, batchLimit: nat)
    requires Tracks(h, pending, batchLimit)
    ensures h.good ==> AllWellFormed(pending)
  {
  }

  lemma AcceptableDelivers(body: Bytes, frames: seq<Frame>, batchLimit: nat)
    requires Acceptable(body, frames, batchLimit)
    ensures Deliverable(body, batchLimit)
  {
  }

  // ------------------------------------------------------------------ lane by lane

  /** The lane after its next batch has been packed. */
  function Sending(l: BridgeLane, r: Joined): BridgeLane {
    l.(pending := r.rest, items := l.items + (if r.split then 1 else 0), inFlight := Some(InFlight(|r.body|, r.count)))
  }

  /** The lane after its batch has been released. */
  function Landed(l: BridgeLane): BridgeLane {
    l.(bytes := l.bytes - FlightBytes(l.inFlight), items := l.items - FlightItems(l.inFlight), inFlight := None)
  }

  /** The lane after it has been cancelled. */
  function Ended(l: BridgeLane): BridgeLane {
    l.(pending := [], bytes := 0, items := 0, finished := true)
  }

  lemma FitsMeans(objects: map<nat, BridgeLane>, lanes: map<nat, nat>, next: nat, histories: map<nat, History>,
      mode: Mode)
    requires LanesFit(objects, lanes, next, histories) && NoFlights(mode, objects)
    ensures forall id :: id in lanes ==>
      lanes[id] in objects && objects[lanes[id]].id == id && !objects[lanes[id]].finished
    ensures mode == WebSocketLanes ==> forall r :: r in objects ==> objects[r].inFlight.None?
  {
  }

  lemma UnregisterFits(objects: map<nat, BridgeLane>, lanes: map<nat, nat>, next: nat, histories: map<nat, History>,
      r: nat)
    requires LanesFit(objects, lanes, next, histories) && r in objects && objects[r].id in lanes
    ensures LanesFit(objects, lanes - {objects[r].id}, next, histories)
    ensures forall id :: id in lanes - {objects[r].id} ==> lanes[id] != r
  {
  }

  lemma LaneJoins(bytes: int, items: int, held: seq<Bytes>, pending: seq<Bytes>, inFlight: Option<InFlight>,
      lanes: map<nat, BridgeLane>, r: nat, id: nat, batchLimit: nat)
    requires Accounted(bytes, items, held, pending, inFlight, lanes) && r !in lanes
    ensures Accounted(bytes, items, held, pending, inFlight, lanes[r := NewLane(id)])
        && Tracks(NOTHING_QUEUED, NewLane(id).pending, batchLimit)
  {
    LaneAccounted(bytes, items, held, pending, inFlight, lanes, r, NewLane(id));
    TracksNothing(batchLimit);
  }

  lemma LaneQueued(bytes: int, items: int, held: seq<Bytes>, pending: seq<Bytes>, inFlight: Option<InFlight>,
      lanes: map<nat, BridgeLane>, r: nat, data: Bytes)
    requires Accounted(bytes, items, held, pending, inFlight, lanes) && r in lanes
    ensures Accounted(bytes + |data|, items + 1, held, pending, inFlight, lanes[r := WithQueued(lanes[r], data)])
  {
    FlatLength(lanes[r].pending, data);
    hide Flat;
    LaneAccounted(bytes, items, held, pending, inFlight, lanes, r, WithQueued(lanes[r], data));
  }

  lemma LaneSends(bytes: int, items: int, held: seq<Bytes>, pending: seq<Bytes>, inFlight: Option<InFlight>,
      lanes: map<nat, BridgeLane>, r: nat, joined: Joined)
    requires Accounted(bytes, items, held, pending, inFlight, lanes) && r in lanes && lanes[r].inFlight.None?
        && Conserves(lanes[r].pending, joined)
    ensures Accounted(bytes, items + (if joined.split then 1 else 0), held, pending, inFlight,
        lanes[r := Sending(lanes[r], joined)])
  {
    JoinedCounts(lanes[r].pending, joined);
    hide Flat, Conserves;
    LaneAccounted(bytes, items, held, pending, inFlight, lanes, r, Sending(lanes[r], joined));
  }

  lemma LaneLands(bytes: int, items: int, held: seq<Bytes>, pending: seq<Bytes>, inFlight: Option<InFlight>,
      lanes: map<nat, BridgeLane>, r: nat)
    requires Accounted(bytes, items, held, pending, inFlight, lanes) && r in lanes && lanes[r].inFlight.Some?
    ensures Accounted(bytes - lanes[r].inFlight.value.total, items - lanes[r].inFlight.value.count, held, pending,
        inFlight, lanes[r := Landed(lanes[r]).(sequence := lanes[r].sequence + 1)])
  {
    hide Flat;
    LaneAccounted(bytes, items, held, pending, inFlight, lanes, r,
        Landed(lanes[r]).(sequence := lanes[r].sequence + 1));
  }

  lemma LaneSendsAtOnce(bytes: int, items: int, held: seq<Bytes>, pending: seq<Bytes>, inFlight: Option<InFlight>,
      lanes: map<nat, BridgeLane>, r: nat, joined: Joined)
    requires Accounted(bytes, items, held, pending, inFlight, lanes) && r in lanes && lanes[r].inFlight.None?
        && Conserves(lanes[r].pending, joined)
    ensures Accounted(bytes - |joined.body|, items + (if joined.split then 1 else 0) - joined.count, held, pending,
        inFlight, lanes[r := Landed(Sending(lanes[r], joined))])
  {
    JoinedCounts(lanes[r].pending, joined);
    hide Flat, Conserves;
    LaneAccounted(bytes, items, held, pending, inFlight, lanes, r, Landed(Sending(lanes[r], joined)));
  }

  lemma LaneEnds(bytes: int, items: int, held: seq<Bytes>, pending: seq<Bytes>, inFlight: Option<InFlight>,
      lanes: map<nat, BridgeLane>, r: nat)
    requires Accounted(bytes, items, held, pending, inFlight, lanes) && r in lanes && lanes[r].inFlight.None?
    ensures Accounted(bytes - lanes[r].bytes, items - lanes[r].items, held, pending, inFlight,
        lanes[r := Ended(lanes[r])])
  {
    LaneAccounted(bytes, items, held, pending, inFlight, lanes, r, Ended(lanes[r]));
  }

  lemma LaneMarked(bytes: int, items: int, held: seq<Bytes>, pending: seq<Bytes>, inFlight: Option<InFlight>,
      lanes: map<nat, BridgeLane>, r: nat, l: BridgeLane)
    requires Accounted(bytes, items, held, pending, inFlight, lanes) && r in lanes
        && l == lanes[r].(connected := l.connected, localClosed := l.localClosed)
    ensures Accounted(bytes, items, held, pending, inFlight, lanes[r := l])
  {
    hide Flat;
    LaneAccounted(bytes, items, held, pending, inFlight, lanes, r, l);
  }

  lemma OldestLeaves(order: seq<nat>, closed: set<nat>)
    requires Remembered(closed, order) && order != []
    ensures Remembered(closed - {order[0]}, order[1..])
  {
    forall id
      ensures id in closed - {order[0]} <==> id in order[1..]
    {
      assert order == [order[0]] + order[1..];
    }
  }

  lemma NewestJoins(order: seq<nat>, closed: set<nat>, id: nat)
    requires Remembered(closed, order) && |order| < CLOSED_LANE_LIMIT && id !in closed
    ensures Remembered(closed + {id}, order + [id])
  {
  }

  lemma RememberedIn(order: seq<nat>, id: nat)
    ensures id in FifoRemember(order, id, CLOSED_LANE_LIMIT)
  {
    assert (order + [id])[|order|] == id;
    if order != [] {
      assert (order[1..] + [id])[|order| - 1] == id;
    }
  }
}
