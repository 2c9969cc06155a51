/** What the exact budget means for callers: conservation in the program's own terms, the headroom
    control frames and uplink batches find (`reservePendingLocked` and the limits above it in
    `internal/session/session.go`), and what a read allowance is worth. */
module Headroom {
  import opened Frames
  import opened Charges
  import opened Budget
  import opened DownQueue
  import opened Lanes
  import opened SessionState
  import opened SessionInv
  import opened SessionSteps
  import opened Application
  import opened Validation
  import opened SessionRuns

  /** The unacknowledged batch and the queued frames of a lane, as the program counts them. */
  function LaneHolds(l: Lane, k: Kind): int {
    if k == DownCost then Holds(l).cost else if k == DownItems then Holds(l).items else 0
  }

  lemma LaneTotals(lanes: map<LaneRef, Lane>)
    requires forall r :: r in lanes ==> LaneInv(lanes[r])
    ensures Sum(lanes, LaneHolds, DownCost) == Sum(lanes, LaneCharge, DownCost) + Sum(lanes, LaneCharge, ControlCost)
    ensures Sum(lanes, LaneHolds, DownItems) == Sum(lanes, LaneCharge, DownItems) + Sum(lanes, LaneCharge, ControlItems)
    ensures Sum(lanes, LaneCharge, UpCost) == 0 && Sum(lanes, LaneCharge, UpItems) == 0
  {
    hide LaneInv, LaneCharge, Holds;
    forall r | r in lanes
      ensures LaneHolds(lanes[r], DownCost) == LaneCharge(lanes[r], DownCost) + LaneCharge(lanes[r], ControlCost)
      ensures LaneHolds(lanes[r], DownItems) == LaneCharge(lanes[r], DownItems) + LaneCharge(lanes[r], ControlItems)
      ensures LaneCharge(lanes[r], UpCost) == 0 && LaneCharge(lanes[r], UpItems) == 0
    {
      HoldsIsCharge(lanes[r]);
    }
    SumsTogether(lanes, LaneCharge, DownCost, ControlCost, LaneHolds, DownCost);
    SumsTogether(lanes, LaneCharge, DownItems, ControlItems, LaneHolds, DownItems);
    SumOfNothing(lanes, LaneCharge, UpCost);
    SumOfNothing(lanes, LaneCharge, UpItems);
  }

  lemma StreamTotals(streams: map<nat, Stream>)
    ensures forall k :: k != UpCost && k != UpItems ==> Sum(streams, StreamCharge, k) == 0
  {
    forall k | k != UpCost && k != UpItems
      ensures Sum(streams, StreamCharge, k) == 0
    {
      SumOfNothing(streams, StreamCharge, k);
    }
  }

  /** Conservation: what is pending is what the live streams' writes and all lanes hold. */
  lemma InvConserves(s: State)
    requires Inv(s)
    ensures s.pendingCost == Sum(s.streams, StreamCharge, UpCost) + Sum(s.lanes, LaneHolds, DownCost)
    ensures s.pendingItems == Sum(s.streams, StreamCharge, UpItems) + Sum(s.lanes, LaneHolds, DownItems)
  {
    hide StreamsInv, Register, Placement, LaneInv, LaneCharge, StreamCharge, LaneHolds, Partitioned;
    LaneTotals(s.lanes);
    StreamTotals(s.streams);
  }

  /** Over every run: the budget equals the holdings, none of it is left once the session is closed,
      and it never exceeds the session's limits. */
  lemma BudgetConserved(carrier: Carrier, limits: Limits, ops: seq<Op>)
    requires ValidLimits(limits)
    ensures var s := RunFrom(NewSession(carrier, limits), ops);
      s.panic.None? ==>
        && s.pendingCost == Sum(s.streams, StreamCharge, UpCost) + Sum(s.lanes, LaneHolds, DownCost)
        && s.pendingItems == Sum(s.streams, StreamCharge, UpItems) + Sum(s.lanes, LaneHolds, DownItems)
        && 0 <= s.pendingCost <= s.limits.maxPendingPerSession
        && 0 <= s.pendingItems <= s.limits.maxPendingItemsPerSession
        && (s.closed ==> s.streams == map[] && s.pendingCost == 0 && s.pendingItems == 0
                         && forall r :: r in s.lanes ==> Idle(s.lanes[r]))
  {
    hide InvWith, NewSession, Step, LaneHolds, StreamCharge;
    ReachableInv(carrier, limits, ops);
    var s := RunFrom(NewSession(carrier, limits), ops);
    if s.panic.None? {
      InvConserves(s);
      InvBounds(s);
    }
  }

  lemma InvBounds(s: State)
    requires Inv(s)
    ensures 0 <= s.pendingCost <= s.limits.maxPendingPerSession
        && 0 <= s.pendingItems <= s.limits.maxPendingItemsPerSession
    ensures s.closed ==> s.streams == map[] && s.pendingCost == 0 && s.pendingItems == 0
    ensures s.closed ==> forall r :: r in s.lanes ==> Idle(s.lanes[r])
  {
    hide StreamsInv, LanesInv, Held, ClassLimit;
  }

  // ------------------------------------------------------------------------- headroom

  /** What the lanes hold of control frames. */
  ghost function ControlHeld(s: State): Amount {
    Amount(Sum(s.lanes, LaneCharge, ControlCost), Sum(s.lanes, LaneCharge, ControlItems))
  }

  /** In any reachable state, the session refuses a control frame only if the control frames it holds,
      with this one, exceed the control reserve, or the session limit where that is smaller. */
  lemma ControlFramesHaveRoom(s: State, cost: int, items: int)
    requires Inv(s) && cost > 0 && items >= 0
    requires !SessionAdmits(s.limits, Amount(s.pendingCost, s.pendingItems), cost, items, PendingControl)
    ensures || ControlHeld(s).cost + cost > ControlReserve(s.limits).cost
            || ControlHeld(s).cost + cost > s.limits.maxPendingPerSession
            || ControlHeld(s).items + items > ControlReserve(s.limits).items
            || ControlHeld(s).items + items > s.limits.maxPendingItemsPerSession
  {
    hide StreamsInv, LanesInv, LaneCharge, StreamCharge, Partitioned, SessionAdmits, ControlReserve;
    StreamTotals(s.streams);
    ControlHeadroom(s.limits, HeldSplit(s, 0, 0), cost, items);
  }

  lemma {:induction false} ReservationFits(counted: set<nat>, frames: seq<Frame>)
    ensures Reservation(counted, frames).items <= |frames|
    ensures Reservation(counted, frames).cost
      <= |EncodeAll(frames)| - 8 * |frames| + ItemCost(Reservation(counted, frames).items)
    decreases |frames|
  {
    if frames != [] {
      hide Encode;
      ReservationFits(CountedAfter(counted, frames[0]), frames[1..]);
    }
  }

  /** A body within the limits needs no more than the uplink reserve. */
  lemma BodyFitsReserve(l: Limits, counted: set<nat>, frames: seq<Frame>)
    requires ValidLimits(l) && |frames| <= MAX_BATCH_FRAMES && |EncodeAll(frames)| <= l.maxBodyBytes
    requires ControlReserve(l).cost + UplinkReserve(l).cost <= l.maxPendingPerSession
    ensures Reservation(counted, frames).cost <= UplinkReserve(l).cost
    ensures Reservation(counted, frames).items <= UplinkReserve(l).items
  {
    ReservationFits(counted, frames);
    EncodedSize(frames);
    hide Reservation, EncodeAll;
    assert ControlReserve(l).cost > 0;
    assert |frames| <= l.maxBodyBytes / 8;
  }

  /** However full the downlink is: while no uplink write and no control frame is outstanding, any body
      within the body limit is admitted by the session, provided its limits cover both reserves. */
  lemma UplinkHasRoom(s: State, frames: seq<Frame>)
    requires Inv(s) && |frames| <= MAX_BATCH_FRAMES && |EncodeAll(frames)| <= s.limits.maxBodyBytes
    requires (forall id :: id in s.streams ==>
                s.streams[id].pendingWriteItems == 0 && s.streams[id].pendingWriteCost == 0)
    requires ControlHeld(s) == Amount(0, 0)
    requires ControlReserve(s.limits).cost + UplinkReserve(s.limits).cost <= s.limits.maxPendingPerSession
    requires ControlReserve(s.limits).items + UplinkReserve(s.limits).items <= s.limits.maxPendingItemsPerSession
    ensures ReservationGranted(s, frames, Answers(true, []))
  {
    hide LanesInv, StreamsInv, LaneCharge, Partitioned, ControlReserve, UplinkReserve, SessionAdmits, Reservation,
      EncodeAll;
    StreamTotals(s.streams);
    SumOfNothing(s.streams, StreamCharge, UpCost);
    SumOfNothing(s.streams, StreamCharge, UpItems);
    BodyFitsReserve(s.limits, s.streams.Keys, frames);
    var need := Reservation(s.streams.Keys, frames);
    LanesHoldNoUplink(s);
    if need.cost != 0 || need.items != 0 {
      ReservationCosts(s.streams.Keys, frames);
      UplinkHeadroom(s.limits, HeldSplit(s, 0, 0), need.cost, need.items);
    }
  }

  lemma {:induction false} ReservationCosts(counted: set<nat>, frames: seq<Frame>)
    ensures Reservation(counted, frames).items > 0 ==> Reservation(counted, frames).cost > 0
    decreases |frames|
  {
    if frames != [] {
      ReservationCosts(CountedAfter(counted, frames[0]), frames[1..]);
    }
  }

  lemma LanesHoldNoUplink(s: State)
    requires Inv(s)
    ensures Sum(s.lanes, LaneCharge, UpCost) == 0 && Sum(s.lanes, LaneCharge, UpItems) == 0
  {
    hide StreamsInv, Register, Placement, LaneInv, LaneCharge, Accounts;
    LaneTotals(s.lanes);
  }

  /** The allowance is the largest read, up to the read buffer, that the stream's credit covers and the
      session's budget admits as a new DATA frame. */
  lemma AllowanceIsLargest(s: State, id: nat, n: nat)
    requires 0 < n <= DATA_CHUNK && Inv(s)
    ensures n <= ReadAllowance(s, id) <==>
      && !s.closed && id in s.streams && n <= s.streams[id].sendCredit
      && SessionAdmits(s.limits, Amount(s.pendingCost, s.pendingItems), n + HEADER_SIZE + QUEUE_ITEM_COST, 1,
        PendingDownlink)
  {
    InvBounds(s);
    hide InvWith;
  }

  /** A granted read allowance is good for any read within it, as long as nothing else takes the room
      first and the relay-wide budget grants it. */
  lemma AllowanceIsAccepted(s: State, id: nat, data: Bytes)
    requires Inv(s) && 0 < |data| <= ReadAllowance(s, id)
    ensures BackendData(s, id, data, true).1
    ensures |data| <= DATA_CHUNK && |data| <= s.streams[id].sendCredit
  {
    hide InvWith, ClassLimit, Enqueue, ExtendsData;
    var st := s.streams[id];
    InvStream(s, id, 0, 0);
    var t := WithStream(s, id, st.(sendCredit := st.sendCredit - |data|));
    StreamTouchKeepsInv(s, id, st.(sendCredit := st.sendCredit - |data|));
    LiveIsQueueable(t, Frame(DATA, id, data));
    EnqueueRoute(t, Frame(DATA, id, data), 0, 0);
    InvBounds(s);
  }

  /** The read joins the frame queued last on the stream's lane. */
  predicate JoinsLast(s: State, id: nat, data: Bytes) {
    var r := Route(s, id);
    r.Some? && ExtendsData(LaneAt(s, r.value).queue, Frame(DATA, id, data), s.limits.maxFramePayload)
  }

  /** The allowance is exact: a read is within it if and only if the session would queue it as a frame of
      its own at once, the manager willing; only a read that joins the frame queued last may be larger. */
  lemma AllowanceIsExact(s: State, id: nat, data: Bytes)
    requires Inv(s) && 0 < |data| <= DATA_CHUNK
    ensures |data| <= ReadAllowance(s, id) ==> BackendData(s, id, data, true).1
    ensures BackendData(s, id, data, true).1 ==> |data| <= ReadAllowance(s, id) || JoinsLast(s, id, data)
  {
    hide InvWith, ReadAllowance, BackendData, JoinsLast, SessionAdmits;
    AllowanceIsLargest(s, id, |data|);
    if |data| <= ReadAllowance(s, id) {
      AllowanceIsAccepted(s, id, data);
    }
    if BackendData(s, id, data, true).1 && !JoinsLast(s, id, data) {
      QueuedAlone(s, id, data);
    }
  }

  lemma QueuedAlone(s: State, id: nat, data: Bytes)
    requires BackendData(s, id, data, true).1 && !JoinsLast(s, id, data)
    ensures !s.closed && id in s.streams && |data| <= s.streams[id].sendCredit
    ensures SessionAdmits(s.limits, Amount(s.pendingCost, s.pendingItems), |data| + HEADER_SIZE + QUEUE_ITEM_COST, 1,
      PendingDownlink)
  {
    hide SessionAdmits, Enqueue, ExtendsData;
  }

  // ------------------------------------------------------------------- what is queued

  /** The control reserve holds three frames for every stream the session may have, and sixteen more,
      unless these no longer fit an int. */
  lemma {:induction false} ControlReserveCovers(l: Limits, frames: seq<Frame>)
    requires ValidLimits(l) && 16 + l.maxStreamsPerSession * 3 <= MAX_INT / 268
    requires |frames| <= 16 + l.maxStreamsPerSession * 3
    requires forall i :: 0 <= i < |frames| ==> frames[i].typeCode != DATA && |frames[i].payload| <= 4
    ensures FramesCharge(frames, ControlCost) <= ControlReserve(l).cost
    ensures FramesCharge(frames, ControlItems) <= ControlReserve(l).items
  {
    SmallFrames(frames);
    assert (16 + l.maxStreamsPerSession * 3) * 268 == ControlReserve(l).cost;
  }

  lemma {:induction false} SmallFrames(frames: seq<Frame>)
    requires forall i :: 0 <= i < |frames| ==> frames[i].typeCode != DATA && |frames[i].payload| <= 4
    ensures FramesCharge(frames, ControlCost) <= |frames| * 268 && FramesCharge(frames, ControlItems) <= |frames|
  {
    if frames != [] {
      SmallFrames(frames[1..]);
    }
  }

  /** A frame is queued exactly if it merges into a WINDOW that is queued, or the session's budget admits
      what it adds and the manager grants that: only the payload if it extends the DATA queued last, and a
      frame of its own otherwise. */
  lemma QueuedExactly(s: State, f: Frame, granted: bool)
    requires Route(s, f.streamID).Some?
    ensures var q := LaneAt(s, Route(s, f.streamID).value).queue;
      var pending := Amount(s.pendingCost, s.pendingItems);
      QueueFrame(s, f, granted).1 <==>
        || MergesWindow(q, f)
        || (granted && ExtendsData(q, f, s.limits.maxFramePayload)
            && SessionAdmits(s.limits, pending, |f.payload|, 0, PendingDownlink))
        || (granted && !ExtendsData(q, f, s.limits.maxFramePayload)
            && SessionAdmits(s.limits, pending, HEADER_SIZE + |f.payload| + QUEUE_ITEM_COST, 1,
                 if f.typeCode == DATA then PendingDownlink else PendingControl))
  {
    hide SessionAdmits, MergesWindow, ExtendsData, Enqueue;
    WindowOrData(LaneAt(s, Route(s, f.streamID).value).queue, f, s.limits.maxFramePayload);
  }

  lemma WindowOrData(q: Queue, f: Frame, maxFramePayload: int)
    ensures !(MergesWindow(q, f) && ExtendsData(q, f, maxFramePayload))
  {
  }

  /** One more control frame, with what the lanes hold of them, is within the control reserve and the
      session's limits. */
  ghost predicate ControlFits(s: State, payload: nat) {
    var cost := HEADER_SIZE + payload + QUEUE_ITEM_COST;
    && ControlHeld(s).cost + cost <= ControlReserve(s.limits).cost
    && ControlHeld(s).cost + cost <= s.limits.maxPendingPerSession
    && ControlHeld(s).items + 1 <= ControlReserve(s.limits).items
    && ControlHeld(s).items + 1 <= s.limits.maxPendingItemsPerSession
  }

  /** Within the reserve, a control frame is queued if the manager grants it. */
  lemma ControlIsQueued(s: State, f: Frame)
    requires Inv(s) && Route(s, f.streamID).Some? && f.typeCode != DATA && ControlFits(s, |f.payload|)
    ensures QueueFrame(s, f, true).1
  {
    hide InvWith, SessionAdmits, QueueFrame, ControlReserve, ControlHeld, MergesWindow;
    QueuedExactly(s, f, true);
    var cost := HEADER_SIZE + |f.payload| + QUEUE_ITEM_COST;
    if !SessionAdmits(s.limits, Amount(s.pendingCost, s.pendingItems), cost, 1, PendingControl) {
      ControlFramesHaveRoom(s, cost, 1);
    }
  }

  /** A piece of a live stream's write is accepted, and its credit given back, whenever its WINDOW fits the
      reserve and the manager grants it. */
  /** The stream has `amount` bytes fewer to write and may be sent as many more, and its client's credit, but no
      other stream's and no DATA, has grown by that amount on lane object `r`. */
  ghost predicate GivesBack(s: State, t: State, r: LaneRef, id: nat, amount: int) {
    && amount > 0 && id in s.streams && id in t.streams && r in s.lanes && r in t.lanes
    && t.streams == s.streams[id := t.streams[id]]
    && t.streams[id].receiveWindow == s.streams[id].receiveWindow + amount
    && t.streams[id].pendingWriteBytes == s.streams[id].pendingWriteBytes - amount
    && t.streams[id].pendingWriteCost == s.streams[id].pendingWriteCost - amount
    && t.streams[id].writes == s.streams[id].writes
    && (forall j :: Credit(AsFrames(t.lanes[r].queue.frames), j)
          == Credit(AsFrames(s.lanes[r].queue.frames), j) + (if j == id then amount else 0))
    && (forall j :: Trace(AsFrames(t.lanes[r].queue.frames), j) == Trace(AsFrames(s.lanes[r].queue.frames), j))
  }

  /** What a backend has taken is given back in full, and once: to the budget, to the receive window, and to the
      client as credit queued on the stream's lane. */
  lemma PieceIsGranted(s: State, id: nat, amount: int, granted: bool)
    requires Inv(s) && !s.closed && id in s.streams && Drained(s, id, amount, granted).1
    ensures Route(s, id).Some? && GivesBack(s, Drained(s, id, amount, granted).0, Route(s, id).value, id, amount)
  {
    hide InvWith, QueueFrame, Release, Credit, Trace, Pushable, Enqueue;
    var st := s.streams[id];
    var drained :=
      st.(pendingWriteBytes := st.pendingWriteBytes - amount, pendingWriteCost := st.pendingWriteCost - amount,
      receiveWindow := st.receiveWindow + amount);
    InvStream(s, id, 0, 0);
    StreamShrinkKeepsInv(s, id, drained, amount, 0);
    var u := Release(WithStream(s, id, drained), amount, 0);
    var f := Frame(WINDOW, id, WindowPayload(amount));
    LiveIsQueueable(u, f);
    EnqueueRoute(u, f, 0, 0);
    QueueShape(u, f, granted);
    var r := Route(u, id).value;
    forall j
      ensures Credit(AsFrames(Enqueue(u.lanes[r], f, s.limits.maxFramePayload).queue.frames), j)
        == Credit(AsFrames(u.lanes[r].queue.frames), j) + (if j == id then amount else 0)
      ensures Trace(AsFrames(Enqueue(u.lanes[r], f, s.limits.maxFramePayload).queue.frames), j)
        == Trace(AsFrames(u.lanes[r].queue.frames), j)
    {
      GrantedCredit(u, r, amount, id, j);
    }
  }

  lemma GrantedCredit(s: State, r: LaneRef, amount: nat, id: nat, j: nat)
    requires Inv(s) && r in s.lanes && amount <= INITIAL_STREAM_WINDOW && id <= MAX_STREAM_ID
    ensures var f := Frame(WINDOW, id, WindowPayload(amount));
      var l := Enqueue(s.lanes[r], f, s.limits.maxFramePayload);
      && Credit(AsFrames(l.queue.frames), j)
         == Credit(AsFrames(s.lanes[r].queue.frames), j) + (if j == id then amount else 0)
      && Trace(AsFrames(l.queue.frames), j) == Trace(AsFrames(s.lanes[r].queue.frames), j)
  {
    hide Accounts, StreamsInv, Credit, Trace, Push;
    var f := Frame(WINDOW, id, WindowPayload(amount));
    WindowRoundTrip(amount);
    PushRefinesAppend(s.lanes[r].queue, f, s.limits.maxFramePayload, j);
    ViewSnoc(AsFrames(s.lanes[r].queue.frames), f, j);
  }

  lemma PieceIsReturned(s: State, id: nat, amount: int)
    requires Inv(s) && !s.closed && id in s.streams
    requires var st := s.streams[id];
      0 < amount <= st.pendingWriteBytes && amount <= st.pendingWriteCost
      && st.receiveWindow + amount <= INITIAL_STREAM_WINDOW
    requires ControlFits(s, 4)
    ensures Drained(s, id, amount, true).1
  {
    hide InvWith, QueueFrame, Release, ControlFits;
    var st := s.streams[id];
    var drained :=
      st.(pendingWriteBytes := st.pendingWriteBytes - amount, pendingWriteCost := st.pendingWriteCost - amount,
      receiveWindow := st.receiveWindow + amount);
    InvStream(s, id, 0, 0);
    StreamShrinkKeepsInv(s, id, drained, amount, 0);
    var u := Release(WithStream(s, id, drained), amount, 0);
    var f := Frame(WINDOW, id, WindowPayload(amount));
    ReleasedFits(s, WithStream(s, id, drained), amount);
    LiveIsQueueable(u, f);
    EnqueueRoute(u, f, 0, 0);
    ControlIsQueued(u, f);
  }

  lemma ReleasedFits(s: State, t: State, amount: int)
    requires t.lanes == s.lanes && t.limits == s.limits && ControlFits(s, 4)
    ensures ControlFits(Release(t, amount, 0), 4)
  {
    hide ControlReserve;
  }

  /** The end of a stream's backend closes the session only if the CLOSE does not fit the reserve, or is
      not granted. */
  lemma EndIsReported(s: State, id: nat, backend: nat)
    requires Inv(s) && !s.closed && id in s.streams && s.streams[id].backend == backend
    requires ControlFits(RememberClosed(DropStream(s, id), id), 0)
    ensures !BackendClosed(s, id, backend, true).closed
  {
    hide InvWith, QueueFrame, RememberClosed, DropStream, ControlFits, CloseSession;
    var dropped := DropStream(s, id);
    var u := RememberClosed(dropped, id);
    InvStream(s, id, 0, 0);
    DropStreamKeepsInv(s, id, 0, 0);
    RememberKeepsInv(dropped, id, 0, 0);
    RememberShape(dropped, id, 0, 0);
    CloseIsQueueable(u, id, 0, 0);
    EnqueueRoute(u, Frame(CLOSE, id, []), 0, 0);
    QueueShape(u, Frame(CLOSE, id, []), true);
    ControlIsQueued(u, Frame(CLOSE, id, []));
  }
}
