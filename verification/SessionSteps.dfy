/** What each helper and each critical section of the relay session keeps of its invariant. */
module SessionSteps {
  import opened Options
  import opened Frames
  import opened Charges
  import opened Budget
  import opened DownQueue
  import opened Lanes
  import opened Tombstones
  import opened SessionState
  import opened SessionInv

  // ---------------------------------------------------------------- giving budget back

  lemma LaneChangeHeld(s: State, t: State, r: LaneRef, l: Lane, cost: int, items: int, k: Kind)
    requires StreamsInv(s) && Accounts(s, cost, items) && r in s.lanes
    requires t.streams == s.streams && t.lanes == s.lanes[r := l]
    requires LaneCharge(l, k) <= LaneCharge(s.lanes[r], k)
    ensures 0 <= Held(t, cost, items, k) == Held(s, cost, items, k) - LaneCharge(s.lanes[r], k) + LaneCharge(l, k)
  {
    hide StreamsInv, Partitioned, HeldSplit, LaneCharge, StreamCharge, Sum;
    HeldCovers(s, k);
    SumUpdate(s.lanes, LaneCharge, k, r, l);
  }

  /** A lane gives up part of what it holds, and the budget gets exactly that back. */
  lemma LaneReleaseHeld(s: State, r: LaneRef, l: Lane, c: int, i: int, cost: int, items: int)
    requires StreamsInv(s) && Accounts(s, cost, items) && r in s.lanes && LaneInv(s.lanes[r]) && LaneInv(l)
    requires forall k :: LaneCharge(l, k) <= LaneCharge(s.lanes[r], k)
    requires c == Holds(s.lanes[r]).cost - Holds(l).cost && i == Holds(s.lanes[r]).items - Holds(l).items
    ensures 0 <= c <= s.pendingCost && 0 <= i <= s.pendingItems
    ensures Accounts(WithLane(Release(s, c, i), r, l), cost, items)
  {
    hide LaneInv, StreamsInv, LaneCharge, Holds, Partitioned, Held;
    var t := WithLane(s, r, l).(pendingCost := s.pendingCost - c, pendingItems := s.pendingItems - i,
                                calls := Release(s, c, i).calls);
    HoldsIsCharge(s.lanes[r]);
    HoldsIsCharge(l);
    forall k
      ensures 0 <= Held(t, cost, items, k) == Held(s, cost, items, k) - LaneCharge(s.lanes[r], k) + LaneCharge(l, k)
    {
      LaneChangeHeld(s, t, r, l, cost, items, k);
    }
    AccountsReleased(s, t, cost, items, cost, items);
  }

  lemma LaneReleaseKeepsInv(s: State, r: LaneRef, l: Lane, c: int, i: int, cost: int, items: int)
    requires InvWith(s, cost, items) && r in s.lanes && LaneInv(l)
    requires forall k :: LaneCharge(l, k) <= LaneCharge(s.lanes[r], k)
    requires c == Holds(s.lanes[r]).cost - Holds(l).cost && i == Holds(s.lanes[r]).items - Holds(l).items
    requires forall id :: id in s.carrierLanes && s.carrierLanes[id] == r ==> OnlyStream(l.queue, id)
    requires !InUse(s, r) || s.closed ==> Idle(l)
    ensures var t := WithLane(Release(s, c, i), r, l);
      && InvWith(t, cost, items)
      && t == s.(lanes := s.lanes[r := l], pendingCost := s.pendingCost - c, pendingItems := s.pendingItems - i,
        calls := t.calls)
  {
    hide LaneInv, Held, Accounts, LaneCharge, Holds, StreamsInv, Register, Placement, Idle, OnlyStream, InUse;
    var t := WithLane(Release(s, c, i), r, l);
    LaneReleaseHeld(s, r, l, c, i, cost, items);
    LaneUpdateKeepsLanes(s, r, l);
    LaneUpdateKeepsClosed(s, r, l);
    StreamsSame(s, t);
    LanesSame(WithLane(s, r, l), t);
  }

  /** `releaseLaneLocked` never trips the budget guard. */
  lemma ReleaseLaneKeepsInv(s: State, r: LaneRef, cost: int, items: int)
    requires InvWith(s, cost, items) && r in s.lanes
    ensures InvWith(ReleaseLane(s, r), cost, items)
    ensures var t := ReleaseLane(s, r);
      t == s.(lanes := s.lanes[r := Emptied(s.lanes[r])], pendingCost := t.pendingCost, pendingItems := t.pendingItems,
        calls := t.calls)
  {
    var l := s.lanes[r];
    var held := Holds(l);
    EmptiedKeepsLaneInv(l);
    HoldsIsCharge(Emptied(l));
    LaneReleaseKeepsInv(s, r, Emptied(l), held.cost, held.items, cost, items);
  }

  /** A stream gives up part of what it holds, or all of it, and the budget gets exactly that back. */
  lemma StreamReleaseAccounts(s: State, t: State, id: nat, left: int, leftItems: int, cost: int, items: int)
    requires StreamsInv(s) && Accounts(s, cost, items) && id in s.streams
    requires 0 <= left <= s.streams[id].pendingWriteCost && 0 <= leftItems <= s.streams[id].pendingWriteItems
    requires forall k ::
      Sum(t.streams, StreamCharge, k) == Sum(s.streams, StreamCharge, k) - StreamCharge(s.streams[id], k)
                          + (if k == UpCost then left else if k == UpItems then leftItems else 0)
    requires t.lanes == s.lanes && t.limits == s.limits
    requires t.pendingCost == s.pendingCost - s.streams[id].pendingWriteCost + left
    requires t.pendingItems == s.pendingItems - s.streams[id].pendingWriteItems + leftItems
    ensures Accounts(t, cost, items)
    ensures s.streams[id].pendingWriteCost - left <= s.pendingCost
        && s.streams[id].pendingWriteItems - leftItems <= s.pendingItems
  {
    hide LaneCharge, StreamsInv, Partitioned;
    forall k
      ensures 0 <= Held(t, cost, items, k) <= Held(s, cost, items, k)
    {
      HeldCovers(s, k);
    }
    AccountsReleased(s, t, cost, items, cost, items);
  }

  /** Dropping a live stream never trips the budget guard. */
  lemma DropStreamKeepsInv(s: State, id: nat, cost: int, items: int)
    requires InvWith(s, cost, items) && id in s.streams
    ensures InvWith(DropStream(s, id), cost, items)
    ensures var t := DropStream(s, id);
      t == s.(streams := s.streams - {id}, pendingCost := t.pendingCost, pendingItems := t.pendingItems,
        calls := t.calls)
  {
    hide LanesInv, Accounts, LaneCharge, RingInv, Held;
    var st := s.streams[id];
    var t :=
      s.(streams := s.streams - {id}, pendingCost := s.pendingCost - st.pendingWriteCost,
          pendingItems := s.pendingItems - st.pendingWriteItems, calls := DropStream(s, id).calls);
    forall k
      ensures Sum(t.streams, StreamCharge, k) == Sum(s.streams, StreamCharge, k) - StreamCharge(st, k)
    {
      SumRemove(s.streams, StreamCharge, k, id);
    }
    StreamReleaseAccounts(s, t, id, 0, 0, cost, items);
    LanesSame(s, t);
    assert DropStream(s, id) == t;
    assert t.streams.Keys == s.streams.Keys - {id};
  }

  // ------------------------------------------------------- the register and tombstones

  lemma EmptiedIsIdle(l: Lane)
    ensures Idle(Emptied(l))
  {
  }

  lemma UnregisterKeepsInv(s: State, laneID: nat, cost: int, items: int)
    requires InvWith(s, cost, items) && laneID !in s.streams
    requires laneID in s.carrierLanes && Idle(s.lanes[s.carrierLanes[laneID]])
    ensures InvWith(s.(carrierLanes := s.carrierLanes - {laneID}), cost, items)
  {
    hide Accounts, RingInv, Held, LaneObjects, Placement, StreamInv, Idle, InUse;
    var t := s.(carrierLanes := s.carrierLanes - {laneID});
    UnregisterKeepsLanes(s, t, laneID);
    HeldSame(s, t, cost, items);
    AccountsSame(s, t, cost, items);
    assert t.carrierLanes.Keys == s.carrierLanes.Keys - {laneID};
  }

  /** A lane whose stream is not live leaves the register, holding nothing. */
  lemma DropLaneKeepsInv(s: State, laneID: nat, cost: int, items: int)
    requires InvWith(s, cost, items) && laneID !in s.streams
    ensures InvWith(DropLane(s, laneID), cost, items)
  {
    hide StreamsInv, Accounts, LaneObjects, Placement, ClosedInv, ReleaseLane, Idle, Emptied;
    if laneID in s.carrierLanes {
      var r := s.carrierLanes[laneID];
      ReleaseLaneKeepsInv(s, r, cost, items);
      EmptiedIsIdle(s.lanes[r]);
      UnregisterKeepsInv(ReleaseLane(s, r), laneID, cost, items);
    }
  }

  lemma DropLaneShape(s: State, laneID: nat, cost: int, items: int)
    requires InvWith(s, cost, items) && laneID !in s.streams
    ensures var t := DropLane(s, laneID);
      && t == s.(lanes := t.lanes, carrierLanes := s.carrierLanes - {laneID}, pendingCost := t.pendingCost,
          pendingItems := t.pendingItems, calls := t.calls)
      && t.lanes
        == (if laneID in s.carrierLanes then s.lanes[s.carrierLanes[laneID] := Emptied(s.lanes[s.carrierLanes[laneID]])]
              else s.lanes)
      && t.lanes.Keys == s.lanes.Keys
  {
    hide Accounts, Placement, StreamsInv, LaneInv, ReleaseLane, ClosedInv, Emptied;
    if laneID in s.carrierLanes {
      ReleaseLaneKeepsInv(s, s.carrierLanes[laneID], cost, items);
    } else {
      assert s.carrierLanes - {laneID} == s.carrierLanes;
    }
  }

  lemma StillInUse(s: State, t: State, laneID: nat, r: LaneRef)
    requires InUse(s, r) && t.carrier == s.carrier
    requires forall i :: i in s.carrierLanes && i != laneID ==>
      i in t.carrierLanes && t.carrierLanes[i] == s.carrierLanes[i]
    requires laneID in s.carrierLanes ==> s.carrierLanes[laneID] != r
    ensures InUse(t, r)
  {
    if Registered(s, r) {
      var i :| i in s.carrierLanes && s.carrierLanes[i] == r;
      assert i in t.carrierLanes && t.carrierLanes[i] == r;
    }
  }

  lemma UnregisterKeepsLanes(s: State, t: State, laneID: nat)
    requires LanesInv(s) && laneID in s.carrierLanes && Idle(s.lanes[s.carrierLanes[laneID]])
    requires t == s.(carrierLanes := s.carrierLanes - {laneID})
    ensures LanesInv(t)
  {
    hide LaneInv, OnlyStream, Idle, InUse;
    forall r | r in t.lanes && !InUse(t, r)
      ensures Idle(t.lanes[r])
    {
      if InUse(s, r) && r != s.carrierLanes[laneID] {
        StillInUse(s, t, laneID, r);
      }
    }
  }

  lemma RegisterKeepsPlacement(s: State, laneID: nat, l: Lane)
    requires LanesInv(s) && laneID !in s.carrierLanes && OnlyStream(l.queue, laneID)
    ensures var r := s.nextLane;
      Placement(s.(lanes := s.lanes[r := l], carrierLanes := s.carrierLanes[laneID := r], nextLane := r + 1))
  {
    hide LaneInv, OnlyStream, Idle, InUse;
    var r := s.nextLane;
    var t := s.(lanes := s.lanes[r := l], carrierLanes := s.carrierLanes[laneID := r], nextLane := r + 1);
    assert r !in s.lanes;
    assert InUse(t, r) by {
      RegisteredIsInUse(t, laneID);
    }
    forall x | x in t.lanes && !InUse(t, x)
      ensures Idle(t.lanes[x])
    {
      if InUse(s, x) {
        StillInUse(s, t, laneID, x);
      }
    }
  }

  lemma RegisteredIsInUse(s: State, laneID: nat)
    requires laneID in s.carrierLanes
    ensures InUse(s, s.carrierLanes[laneID])
  {
  }

  lemma RegisterKeepsRegister(s: State, laneID: nat, l: Lane)
    requires LaneObjects(s) && Register(s) && UsesLanes(s) && laneID !in s.carrierLanes && laneID <= MAX_STREAM_ID
    ensures var r := s.nextLane;
      Register(s.(lanes := s.lanes[r := l], carrierLanes := s.carrierLanes[laneID := r], nextLane := r + 1))
  {
    hide LaneInv;
    assert s.nextLane !in s.lanes;
  }

  lemma RegisterKeepsLanes(s: State, laneID: nat, l: Lane)
    requires LanesInv(s) && UsesLanes(s) && laneID !in s.carrierLanes && laneID <= MAX_STREAM_ID
    requires OnlyStream(l.queue, laneID) && LaneInv(l)
    ensures var r := s.nextLane;
      LanesInv(s.(lanes := s.lanes[r := l], carrierLanes := s.carrierLanes[laneID := r], nextLane := r + 1))
  {
    RegisterKeepsPlacement(s, laneID, l);
    RegisterKeepsRegister(s, laneID, l);
    hide LaneInv, Placement, Register, OnlyStream;
  }

  lemma RegisterHeld(s: State, t: State, l: Lane, cost: int, items: int)
    requires LaneObjects(s) && forall k :: LaneCharge(l, k) == 0
    requires t.streams == s.streams && t.lanes == s.lanes[s.nextLane := l]
    ensures forall k :: Held(t, cost, items, k) == Held(s, cost, items, k)
  {
    hide LaneCharge, LaneInv;
    forall k
      ensures Held(t, cost, items, k) == Held(s, cost, items, k)
    {
      SumUpdate(s.lanes, LaneCharge, k, s.nextLane, l);
    }
  }

  lemma RegisterKeepsInv(s: State, laneID: nat, l: Lane, cost: int, items: int)
    requires InvWith(s, cost, items) && UsesLanes(s) && laneID !in s.carrierLanes && laneID <= MAX_STREAM_ID
    requires OnlyStream(l.queue, laneID) && LaneInv(l) && Idle(l) && forall k :: LaneCharge(l, k) == 0
    ensures var r := s.nextLane;
      InvWith(s.(lanes := s.lanes[r := l], carrierLanes := s.carrierLanes[laneID := r], nextLane := r + 1), cost, items)
  {
    hide Accounts, LaneCharge, RingInv, StreamsInv, LaneInv, StreamInv, Register, Placement, LaneObjects, Idle,
      OnlyStream, Held;
    var r := s.nextLane;
    var t := s.(lanes := s.lanes[r := l], carrierLanes := s.carrierLanes[laneID := r], nextLane := r + 1);
    RegisterKeepsLanes(s, laneID, l);
    StreamsSame(s, t);
    RegisterHeld(s, t, l, cost, items);
    AccountsSame(s, t, cost, items);
  }

  lemma NewLaneIsIdle(laneID: nat)
    ensures OnlyStream(NEW_LANE.queue, laneID) && Idle(NEW_LANE)
  {
  }

  /** A new lane is registered, holding nothing. */
  lemma AddLaneKeepsInv(s: State, laneID: nat, cost: int, items: int)
    requires InvWith(s, cost, items) && UsesLanes(s) && laneID !in s.carrierLanes && laneID <= MAX_STREAM_ID
    ensures InvWith(AddLane(s, laneID), cost, items)
  {
    hide InvWith, LaneInv, Idle, OnlyStream, LaneCharge;
    NewLaneInv();
    NewLaneIsIdle(laneID);
    RegisterKeepsInv(s, laneID, NEW_LANE, cost, items);
  }

  /** An id is remembered; the evicted id's lane, if any, is still there. */
  function Noted(s: State, id: nat): State {
    s.(tombstones := Remember(s.tombstones, id, s.limits.maxClosedStreamIDs))
  }

  function EvictedBy(s: State, id: nat): Option<nat> {
    Evicted(s.tombstones, id, s.limits.maxClosedStreamIDs)
  }

  lemma NotedKeepsInv(s: State, id: nat, cost: int, items: int)
    requires InvWith(s, cost, items) && id !in s.streams
    ensures InvWith(Noted(s, id), cost, items)
    ensures id in Noted(s, id).tombstones.closed
    ensures EvictedBy(s, id).Some? ==> EvictedBy(s, id).value !in s.streams && EvictedBy(s, id).value != id
  {
    hide Accounts, Held, StreamInv, LanesInv, Remember, Evicted, RingInv;
    RingRefinesFifo(s.tombstones, id, s.limits.maxClosedStreamIDs);
    LanesSame(s, Noted(s, id));
    HeldSame(s, Noted(s, id), cost, items);
    AccountsSame(s, Noted(s, id), cost, items);
  }

  /** A closed stream is remembered; the lane of the id this pushes out gives back all it held. */
  lemma RememberKeepsInv(s: State, id: nat, cost: int, items: int)
    requires InvWith(s, cost, items) && id !in s.streams
    ensures InvWith(RememberClosed(s, id), cost, items)
  {
    hide StreamsInv, Accounts, ClosedInv, LanesInv, Remember, Evicted, DropLane, SignalLane, ValidLimits;
    NotedKeepsInv(s, id, cost, items);
    if id !in s.tombstones.closed {
      if EvictedBy(s, id).Some? {
        DropLaneKeepsInv(Noted(s, id), EvictedBy(s, id).value, cost, items);
        SignalKeepsInv(DropLane(Noted(s, id), EvictedBy(s, id).value), id, cost, items);
      } else {
        SignalKeepsInv(Noted(s, id), id, cost, items);
      }
    }
  }

  lemma SignalShape(s: State, laneID: nat)
    requires laneID in s.carrierLanes ==> s.carrierLanes[laneID] in s.lanes
    ensures SignalLane(s, laneID) == s.(lanes := SignalLane(s, laneID).lanes)
        && SignalLane(s, laneID).lanes.Keys == s.lanes.Keys
  {
  }

  /** What remembering leaves alone. */
  lemma RememberShape(s: State, id: nat, cost: int, items: int)
    requires InvWith(s, cost, items) && id !in s.streams
    ensures var t := RememberClosed(s, id);
      && t == s.(tombstones := Remember(s.tombstones, id, s.limits.maxClosedStreamIDs), lanes := t.lanes,
                 carrierLanes := (if EvictedBy(s, id).Some? then s.carrierLanes - {EvictedBy(s, id).value}
                                  else s.carrierLanes),
                 pendingCost := t.pendingCost, pendingItems := t.pendingItems, calls := t.calls)
      && t.lanes.Keys == s.lanes.Keys
      && id in t.tombstones.closed
      && (id in s.carrierLanes ==> id in t.carrierLanes)
  {
    hide StreamsInv, Accounts, ClosedInv, Placement, Remember, Evicted, DropLane, SignalLane, ValidLimits, LaneInv;
    NotedKeepsInv(s, id, cost, items);
    if id !in s.tombstones.closed {
      if EvictedBy(s, id).Some? {
        var oldest := EvictedBy(s, id).value;
        DropLaneShape(Noted(s, id), oldest, cost, items);
        SignalShape(DropLane(Noted(s, id), oldest), id);
      } else {
        SignalShape(Noted(s, id), id);
      }
    } else {
      RememberKnown(s, id);
    }
  }

  lemma RememberKnown(s: State, id: nat)
    requires id in s.tombstones.closed
    ensures Noted(s, id) == s && EvictedBy(s, id) == None
  {
  }

  // ---------------------------------------------------------------------------- closing

  /** The lanes after `closeLocked`. */
  function ClosedLanes(s: State): map<LaneRef, Lane> {
    map r | r in s.lanes :: if r == MAIN || r in s.carrierLanes.Values then Emptied(s.lanes[r]) else s.lanes[r]
  }

  /** After closing, every lane object is idle: those that were in use have been emptied. */
  lemma ClosedLanesIdle(s: State, r: LaneRef)
    requires LanesInv(s) && r in s.lanes
    ensures LaneInv(ClosedLanes(s)[r]) && Idle(ClosedLanes(s)[r])
    ensures forall k :: LaneCharge(ClosedLanes(s)[r], k) == 0
  {
    assert LaneInv(s.lanes[r]);
    if r == MAIN || Registered(s, r) {
      EmptiedKeepsLaneInv(s.lanes[r]);
    } else {
      assert Idle(s.lanes[r]);
      IdleHoldsNothing(s.lanes[r]);
    }
  }

  lemma IdleHoldsNothing(l: Lane)
    requires LaneInv(l) && Idle(l)
    ensures forall k :: LaneCharge(l, k) == 0
  {
    assert UnackedFrames(l) == [] && AsFrames(l.queue.frames) == [];
  }

  lemma ClosedKeepsLanes(s: State, t: State)
    requires LanesInv(s) && t.lanes == ClosedLanes(s)
    requires t.carrierLanes == s.carrierLanes && t.nextLane == s.nextLane && t.carrier == s.carrier
    ensures LanesInv(t) && forall r :: r in t.lanes ==> Idle(t.lanes[r]) && forall k :: LaneCharge(t.lanes[r], k) == 0
  {
    hide LaneInv, Idle, LaneCharge, InUse;
    forall r | r in t.lanes
      ensures LaneInv(t.lanes[r]) && Idle(t.lanes[r]) && forall k :: LaneCharge(t.lanes[r], k) == 0
    {
      ClosedLanesIdle(s, r);
    }
  }

  lemma NothingHeld(s: State)
    requires s.streams == map[] && forall r :: r in s.lanes ==> forall k :: LaneCharge(s.lanes[r], k) == 0
    ensures forall k :: Held(s, 0, 0, k) == 0
  {
    hide LaneCharge, StreamCharge;
    forall k
      ensures Held(s, 0, 0, k) == 0
    {
      SumOfNothing(s.streams, StreamCharge, k);
      SumOfNothing(s.lanes, LaneCharge, k);
    }
  }

  lemma NothingAccounted(s: State, cost: int, items: int)
    requires ValidLimits(s.limits) && s.pendingCost == 0 && s.pendingItems == 0 && cost == 0 && items == 0
    requires forall k :: Held(s, cost, items, k) == 0
    ensures Accounts(s, cost, items)
  {
    hide Held;
    forall k
      ensures Part(HeldSplit(s, cost, items), k) == 0
    {
      PartHeld(s, cost, items, k);
    }
    NothingSplit(s.limits, HeldSplit(s, cost, items));
  }

  lemma NothingSplit(l: Limits, c: Split)
    requires ValidLimits(l) && NonNegative(c)
    requires NonPositive(c)
    ensures c.Cost() == 0 && c.Items() == 0 && Partitioned(l, c)
  {
    hide ClassLimit;
    LimitsNest(l);
  }

  /** A closed session holds nothing and has given its whole budget back. */
  lemma CloseKeepsInv(s: State, cost: int, items: int)
    requires InvWith(s, cost, items) && !s.closed
    ensures Inv(CloseSession(s)) && CloseSession(s).closed
  {
    hide Accounts, LanesInv, LaneCharge, Held, LaneInv, StreamInv, Idle, Emptied, RingInv;
    var t := CloseSession(s);
    assert t.lanes == ClosedLanes(s);
    ClosedKeepsLanes(s, t);
    NothingHeld(t);
    NothingAccounted(t, 0, 0);
  }
}
