/** The invariant of a relay session, and what every helper of its critical sections keeps of it: the
    pending budget is exactly what streams and lanes hold, each class of charge is under its ceiling,
    tombstones and live streams are disjoint, every frame is queued on its own stream's lane, and a
    closed session holds nothing. */
module SessionInv {
  import opened Options
  import opened Frames
  import opened Charges
  import opened Budget
  import opened DownQueue
  import opened Lanes
  import opened Tombstones
  import opened SessionState

  // ------------------------------------------------------------------------- streams

  function StreamCharge(st: Stream, k: Kind): int {
    if k == UpCost then st.pendingWriteCost else if k == UpItems then st.pendingWriteItems else 0
  }

  /** Receive window and bytes waiting for the backend always make up the initial window, and the cost
      charged is those bytes and a flat amount for every write. */
  predicate StreamInv(st: Stream) {
    && st.pendingWriteBytes >= 0 && st.pendingWriteItems >= 0
    && st.receiveWindow + st.pendingWriteBytes == INITIAL_STREAM_WINDOW
    && st.pendingWriteCost == st.pendingWriteBytes + ItemCost(st.pendingWriteItems)
    && st.sendCredit <= MAX_UINT32
  }

  ghost predicate StreamsInv(s: State) {
    && (forall id :: id in s.streams ==> 0 < id <= MAX_STREAM_ID && StreamInv(s.streams[id]))
    && |s.streams| <= s.limits.maxStreamsPerSession
    && RingInv(s.tombstones, s.limits.maxClosedStreamIDs)
    && s.tombstones.closed !! s.streams.Keys
    && (UsesLanes(s) ==> s.streams.Keys <= s.carrierLanes.Keys)
  }

  // --------------------------------------------------------------------------- lanes

  predicate Idle(l: Lane) { l.queue.frames == [] && l.unacked == [] }

  predicate Registered(s: State, r: LaneRef) { r in s.carrierLanes.Values }

  /** Every lane object satisfies its own invariant. */
  ghost predicate LaneObjects(s: State) {
    && MAIN in s.lanes
    && (forall r :: r in s.lanes ==> r < s.nextLane && LaneInv(s.lanes[r]))
  }

  /** Lane ids name distinct lane objects, none of them the session's own. */
  ghost predicate Register(s: State) {
    && (forall id :: id in s.carrierLanes ==>
          id <= MAX_STREAM_ID && s.carrierLanes[id] != MAIN && s.carrierLanes[id] in s.lanes)
    && (forall i, j :: i in s.carrierLanes && j in s.carrierLanes && s.carrierLanes[i] == s.carrierLanes[j] ==> i == j)
    && (!UsesLanes(s) ==> s.carrierLanes == map[])
  }

  /** A lane holds frames of its own stream only, and a lane that is not in use holds none. */
  ghost predicate Placement(s: State) {
    && (forall id :: id in s.carrierLanes && s.carrierLanes[id] in s.lanes ==>
          OnlyStream(s.lanes[s.carrierLanes[id]].queue, id))
    && (forall r :: r in s.lanes && !InUse(s, r) ==> Idle(s.lanes[r]))
  }

  predicate InUse(s: State, r: LaneRef) { Registered(s, r) || (r == MAIN && !UsesLanes(s)) }

  ghost predicate LanesInv(s: State) {
    LaneObjects(s) && Register(s) && Placement(s)
  }

  // ------------------------------------------------------------------- pending budget

  /** What the streams and lanes hold, and `cost` and `items` of a reservation not yet used. */
  ghost function Held(s: State, cost: int, items: int, k: Kind): int {
    Sum(s.streams, StreamCharge, k) + Sum(s.lanes, LaneCharge, k)
    + (if k == UpCost then cost else if k == UpItems then items else 0)
  }

  ghost function HeldSplit(s: State, cost: int, items: int): Split {
    Split(Amount(Held(s, cost, items, UpCost), Held(s, cost, items, UpItems)),
          Amount(Held(s, cost, items, DownCost), Held(s, cost, items, DownItems)),
          Amount(Held(s, cost, items, ControlCost), Held(s, cost, items, ControlItems)))
  }

  /** The budget the session has charged is exactly what it holds, and each class stays below the
      ceiling it was admitted under. */
  ghost predicate Accounts(s: State, cost: int, items: int) {
    && cost >= 0 && items >= 0
    && s.pendingCost == HeldSplit(s, cost, items).Cost()
    && s.pendingItems == HeldSplit(s, cost, items).Items()
    && Partitioned(s.limits, HeldSplit(s, cost, items))
  }

  ghost predicate ClosedInv(s: State) {
    s.closed ==>
      && s.streams == map[] && s.pendingCost == 0 && s.pendingItems == 0
      && forall r :: r in s.lanes ==> Idle(s.lanes[r])
  }

  /** The invariant while `cost` and `items` of an uplink reservation are outstanding. */
  ghost predicate InvWith(s: State, cost: int, items: int) {
    && ValidLimits(s.limits) && s.panic == None
    && StreamsInv(s) && LanesInv(s) && ClosedInv(s) && Accounts(s, cost, items)
  }

  ghost predicate Inv(s: State) { InvWith(s, 0, 0) }

  // ----------------------------------------------------------- arithmetic of the budget

  lemma PartHeld(s: State, cost: int, items: int, k: Kind)
    ensures Part(HeldSplit(s, cost, items), k) == Held(s, cost, items, k)
  {
  }

  lemma HeldCovers(s: State, k: Kind)
    requires StreamsInv(s)
    ensures Sum(s.streams, StreamCharge, k) >= 0 && Sum(s.lanes, LaneCharge, k) >= 0
    ensures forall id :: id in s.streams ==> StreamCharge(s.streams[id], k) <= Sum(s.streams, StreamCharge, k)
    ensures forall r :: r in s.lanes ==> LaneCharge(s.lanes[r], k) <= Sum(s.lanes, LaneCharge, k)
  {
    SumCovers(s.streams, StreamCharge, k);
    SumCovers(s.lanes, LaneCharge, k);
  }

  /** The same amounts are held and charged. */
  lemma AccountsSame(s: State, t: State, cost: int, items: int)
    requires Accounts(s, cost, items)
    requires t.limits == s.limits && t.pendingCost == s.pendingCost && t.pendingItems == s.pendingItems
    requires forall k :: Held(t, cost, items, k) == Held(s, cost, items, k)
    ensures Accounts(t, cost, items)
  {
  }

  /** An admitted charge is charged and held. */
  lemma AccountsCharged(s: State, t: State, cost: int, items: int, c: int, i: int, cost1: int, items1: int,
      pool: PendingClass)
    requires ValidLimits(s.limits) && Accounts(s, cost, items) && cost1 >= 0 && items1 >= 0
    requires SessionAdmits(s.limits, Amount(s.pendingCost, s.pendingItems), c, i, pool)
    requires t.limits == s.limits && t.pendingCost == s.pendingCost + c && t.pendingItems == s.pendingItems + i
    requires forall k :: Held(t, cost1, items1, k) == Held(s, cost, items, k) + ChargeFor(pool, c, i, k)
    ensures Accounts(t, cost1, items1)
  {
    var before, after := HeldSplit(s, cost, items), HeldSplit(t, cost1, items1);
    forall k
      ensures Part(after, k) == Part(before, k) + ChargeFor(pool, c, i, k)
    {
      PartHeld(s, cost, items, k);
      PartHeld(t, cost1, items1, k);
    }
    AdmissionKeepsPartition(s.limits, before, after, c, i, pool);
    TotalsAfterCharge(before, after, c, i, pool);
  }

  lemma TotalsAfterCharge(before: Split, after: Split, c: int, i: int, pool: PendingClass)
    requires forall k :: Part(after, k) == Part(before, k) + ChargeFor(pool, c, i, k)
    ensures after.Cost() == before.Cost() + c && after.Items() == before.Items() + i
  {
    assert after.up.cost == Part(after, UpCost) && after.down.cost == Part(after, DownCost)
        && after.control.cost == Part(after, ControlCost);
    assert after.up.items == Part(after, UpItems) && after.down.items == Part(after, DownItems)
        && after.control.items == Part(after, ControlItems);
  }

  /** A release of what is held no longer. */
  lemma AccountsReleased(s: State, t: State, cost: int, items: int, cost1: int, items1: int)
    requires Accounts(s, cost, items) && cost1 >= 0 && items1 >= 0 && t.limits == s.limits
    requires forall k :: 0 <= Held(t, cost1, items1, k) <= Held(s, cost, items, k)
    requires t.pendingCost == HeldSplit(t, cost1, items1).Cost()
    requires t.pendingItems == HeldSplit(t, cost1, items1).Items()
    ensures Accounts(t, cost1, items1)
  {
  }

  lemma LaneUpdateHeld(s: State, r: LaneRef, l: Lane, cost: int, items: int, k: Kind)
    requires r in s.lanes
    ensures Held(WithLane(s, r, l), cost, items, k)
      == Held(s, cost, items, k) - LaneCharge(s.lanes[r], k) + LaneCharge(l, k)
  {
    SumUpdate(s.lanes, LaneCharge, k, r, l);
  }

  // ------------------------------------------------------------------------- frames

  lemma LanesSame(s: State, t: State)
    requires t.lanes == s.lanes && t.carrierLanes == s.carrierLanes && t.nextLane == s.nextLane
        && t.carrier == s.carrier
    ensures LanesInv(s) ==> LanesInv(t)
  {
  }

  lemma StreamsSame(s: State, t: State)
    requires t.streams == s.streams && t.tombstones == s.tombstones && t.limits == s.limits && t.carrier == s.carrier
    requires s.carrierLanes.Keys <= t.carrierLanes.Keys
    ensures StreamsInv(s) ==> StreamsInv(t)
  {
  }

  lemma HeldSame(s: State, t: State, cost: int, items: int)
    requires t.streams == s.streams && t.lanes == s.lanes
    ensures forall k :: Held(t, cost, items, k) == Held(s, cost, items, k)
  {
  }

  // -------------------------------------------------------------------- lane updates

  lemma LaneUpdateKeepsObjects(s: State, r: LaneRef, l: Lane)
    requires LaneObjects(s) && r in s.lanes && LaneInv(l)
    ensures LaneObjects(WithLane(s, r, l))
  {
  }

  lemma LaneUpdateKeepsPlacement(s: State, r: LaneRef, l: Lane)
    requires Placement(s) && Register(s) && r in s.lanes
    requires forall id :: id in s.carrierLanes && s.carrierLanes[id] == r ==> OnlyStream(l.queue, id)
    requires !InUse(s, r) ==> Idle(l)
    ensures Placement(WithLane(s, r, l)) && Register(WithLane(s, r, l))
  {
    var t := WithLane(s, r, l);
    forall id | id in t.carrierLanes
      ensures OnlyStream(t.lanes[t.carrierLanes[id]].queue, id)
    {
      assert OnlyStream(s.lanes[s.carrierLanes[id]].queue, id);
    }
    forall x | x in t.lanes && !InUse(t, x)
      ensures Idle(t.lanes[x])
    {
      assert !InUse(s, x);
    }
  }

  /** What has been asked of the manager so far is not part of the invariant. */
  lemma CallsKeepInv(s: State, t: State, cost: int, items: int)
    requires InvWith(s, cost, items) && t == s.(calls := t.calls)
    ensures InvWith(t, cost, items)
  {
    hide LaneInv, Idle;
    HeldSame(s, t, cost, items);
    AccountsSame(s, t, cost, items);
    LanesSame(s, t);
    StreamsSame(s, t);
  }

  /** One lane object changes, keeping its own invariant and its place. */
  lemma LaneUpdateKeepsLanes(s: State, r: LaneRef, l: Lane)
    requires LanesInv(s) && r in s.lanes && LaneInv(l)
    requires forall id :: id in s.carrierLanes && s.carrierLanes[id] == r ==> OnlyStream(l.queue, id)
    requires !InUse(s, r) ==> Idle(l)
    ensures LanesInv(WithLane(s, r, l))
  {
    LaneUpdateKeepsObjects(s, r, l);
    LaneUpdateKeepsPlacement(s, r, l);
  }

  lemma LaneUpdateKeepsClosed(s: State, r: LaneRef, l: Lane)
    requires ClosedInv(s) && (s.closed ==> Idle(l))
    ensures ClosedInv(WithLane(s, r, l))
  {
  }

  /** A lane update that moves no charge. */
  lemma LaneUpdateKeepsInv(s: State, r: LaneRef, l: Lane, cost: int, items: int)
    requires InvWith(s, cost, items) && r in s.lanes && LaneInv(l)
    requires forall k :: LaneCharge(l, k) == LaneCharge(s.lanes[r], k)
    requires forall id :: id in s.carrierLanes && s.carrierLanes[id] == r ==> OnlyStream(l.queue, id)
    requires !InUse(s, r) || s.closed ==> Idle(l)
    ensures InvWith(WithLane(s, r, l), cost, items)
  {
    hide LaneInv, LaneCharge, Held, Idle, OnlyStream, Accounts, StreamsInv, LanesInv, ClosedInv;
    var t := WithLane(s, r, l);
    LaneUpdateKeepsLanes(s, r, l);
    LaneUpdateKeepsClosed(s, r, l);
    StreamsSame(s, t);
    forall k
      ensures Held(t, cost, items, k) == Held(s, cost, items, k)
    {
      LaneUpdateHeld(s, r, l, cost, items, k);
    }
    AccountsSame(s, t, cost, items);
  }

  /** The queue and the unacknowledged batch are the same. */
  predicate SameHoldings(a: Lane, b: Lane) {
    a.queue == b.queue && a.unacked == b.unacked && a.unackedCost == b.unackedCost && a.unackedItems == b.unackedItems
  }

  lemma SameHoldingsSameInv(a: Lane, b: Lane)
    requires LaneInv(a) && SameHoldings(a, b)
    requires (b.downActive <==> b.superseded.Some?) && (b.superseded.Some? ==> b.unacked == [])
    ensures LaneInv(b) && forall k :: LaneCharge(b, k) == LaneCharge(a, k)
  {
    assert UnackedFrames(b) == UnackedFrames(a);
  }

  lemma TouchLaneKeepsInv(s: State, r: LaneRef, l: Lane, cost: int, items: int)
    requires InvWith(s, cost, items) && r in s.lanes && SameHoldings(s.lanes[r], l)
    requires (l.downActive <==> l.superseded.Some?) && (l.superseded.Some? ==> l.unacked == [])
    ensures InvWith(WithLane(s, r, l), cost, items)
  {
    SameHoldingsSameInv(s.lanes[r], l);
    LaneUpdateKeepsInv(s, r, l, cost, items);
  }

  lemma SignalKeepsInv(s: State, laneID: nat, cost: int, items: int)
    requires InvWith(s, cost, items)
    ensures InvWith(SignalLane(s, laneID), cost, items)
  {
    if laneID in s.carrierLanes {
      var r := s.carrierLanes[laneID];
      assert LaneInv(s.lanes[r]);
      TouchLaneKeepsInv(s, r, Signal(s.lanes[r]), cost, items);
    }
  }

  // ------------------------------------------------------------------ queueing a frame

  /** A frame the session may queue: well formed, and its stream has a lane if lanes are used. */
  predicate Queueable(s: State, f: Frame) {
    && Pushable(f, s.limits.maxFramePayload) && !s.closed
    && (UsesLanes(s) ==> f.streamID in s.carrierLanes)
  }

  /** What queueing does, and what it does not touch. */
  lemma QueueShape(s: State, f: Frame, granted: bool)
    requires Route(s, f.streamID).Some?
    ensures var (t, ok) := QueueFrame(s, f, granted);
      var r := Route(s, f.streamID).value;
      var need := Admit(LaneAt(s, r).queue, f, s.limits.maxFramePayload);
      && t == s.(lanes := t.lanes, pendingCost := t.pendingCost, pendingItems := t.pendingItems, calls := t.calls)
      && (!ok ==> t == s.(calls := t.calls))
      && (ok ==>
          && t.lanes == s.lanes[r := Enqueue(LaneAt(s, r), f, s.limits.maxFramePayload)]
          && (need.Absorbed? ==> t.pendingCost == s.pendingCost && t.pendingItems == s.pendingItems)
          && (need.Needs? ==>
              && SessionAdmits(s.limits, Amount(s.pendingCost, s.pendingItems), need.cost, need.items, need.pool)
              && t.pendingCost == s.pendingCost + need.cost && t.pendingItems == s.pendingItems + need.items))
  {
  }

  lemma EnqueueKeepsLanes(s: State, f: Frame)
    requires LanesInv(s) && Queueable(s, f)
    ensures Route(s, f.streamID).Some? && Route(s, f.streamID).value in s.lanes
    ensures var r := Route(s, f.streamID).value;
      LanesInv(WithLane(s, r, Enqueue(s.lanes[r], f, s.limits.maxFramePayload)))
  {
    var r := Route(s, f.streamID).value;
    assert LaneInv(s.lanes[r]);
    PushKeepsInv(s.lanes[r].queue, f, s.limits.maxFramePayload);
    EnqueueKeepsLaneInv(s.lanes[r], f, s.limits.maxFramePayload, UpCost);
    LaneUpdateKeepsLanes(s, r, Enqueue(s.lanes[r], f, s.limits.maxFramePayload));
  }

  lemma EnqueueHeld(s: State, r: LaneRef, f: Frame, cost: int, items: int, k: Kind)
    requires r in s.lanes && LaneInv(s.lanes[r]) && Pushable(f, s.limits.maxFramePayload)
    ensures Held(WithLane(s, r, Enqueue(s.lanes[r], f, s.limits.maxFramePayload)), cost, items, k)
         == Held(s, cost, items, k) + AdmissionCharge(Admit(s.lanes[r].queue, f, s.limits.maxFramePayload), k)
  {
    LaneUpdateHeld(s, r, Enqueue(s.lanes[r], f, s.limits.maxFramePayload), cost, items, k);
    EnqueueKeepsLaneInv(s.lanes[r], f, s.limits.maxFramePayload, k);
  }

  /** What an admission needs is charged and held. */
  lemma AccountsAdmitted(s: State, t: State, need: Admission, cost: int, items: int)
    requires ValidLimits(s.limits) && Accounts(s, cost, items) && t.limits == s.limits
    requires forall k :: Held(t, cost, items, k) == Held(s, cost, items, k) + AdmissionCharge(need, k)
    requires need.Absorbed? ==> t.pendingCost == s.pendingCost && t.pendingItems == s.pendingItems
    requires need.Needs? ==>
      && SessionAdmits(s.limits, Amount(s.pendingCost, s.pendingItems), need.cost, need.items, need.pool)
      && t.pendingCost == s.pendingCost + need.cost && t.pendingItems == s.pendingItems + need.items
    ensures Accounts(t, cost, items)
  {
    match need
    case Absorbed => AccountsSame(s, t, cost, items);
    case Needs(c, i, pool) => AccountsCharged(s, t, cost, items, c, i, cost, items, pool);
  }

  /** Queueing a frame, or being refused, keeps the budget exact. */
  lemma QueueKeepsAccounts(s: State, f: Frame, granted: bool, cost: int, items: int)
    requires ValidLimits(s.limits) && LanesInv(s) && Accounts(s, cost, items)
    requires Queueable(s, f) && Route(s, f.streamID).Some? && Route(s, f.streamID).value in s.lanes
    ensures Accounts(QueueFrame(s, f, granted).0, cost, items)
  {
    var r := Route(s, f.streamID).value;
    var need := Admit(s.lanes[r].queue, f, s.limits.maxFramePayload);
    QueueShape(s, f, granted);
    var (t, ok) := QueueFrame(s, f, granted);
    if ok {
      var pushed := WithLane(s, r, Enqueue(s.lanes[r], f, s.limits.maxFramePayload));
      assert LaneInv(s.lanes[r]);
      HeldSame(pushed, t, cost, items);
      forall k
        ensures Held(t, cost, items, k) == Held(s, cost, items, k) + AdmissionCharge(need, k)
      {
        EnqueueHeld(s, r, f, cost, items, k);
      }
      AccountsAdmitted(s, t, need, cost, items);
    }
  }

  lemma QueueKeepsInv(s: State, f: Frame, granted: bool, cost: int, items: int)
    requires InvWith(s, cost, items) && Queueable(s, f)
    ensures InvWith(QueueFrame(s, f, granted).0, cost, items)
    ensures var t := QueueFrame(s, f, granted).0;
      t.streams == s.streams && t.carrierLanes == s.carrierLanes && t.tombstones == s.tombstones && t.closed == s.closed
  {
    EnqueueKeepsLanes(s, f);
    QueueKeepsAccounts(s, f, granted, cost, items);
    QueueShape(s, f, granted);
    hide QueueFrame, Enqueue, Admit, Accounts, LaneInv, SessionAdmits, Placement, Register, LaneObjects, Pushable;
    var (t, ok) := QueueFrame(s, f, granted);
    if ok {
      var r := Route(s, f.streamID).value;
      LanesSame(WithLane(s, r, Enqueue(s.lanes[r], f, s.limits.maxFramePayload)), t);
      StreamsSame(s, t);
    } else {
      CallsKeepInv(s, t, cost, items);
    }
  }
}
