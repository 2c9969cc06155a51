/** The relay session as the program has it: `Session` in `internal/session/session.go`, an object whose
    methods update its maps and lists in place, with the loops they use. Every method is one critical
    section, or a helper called inside one, and is proved to do to the object exactly what the state
    machine of `SessionState` says.

    `lanes` is the heap of `carrierLane` objects; the entry `MAIN` stands for the fields of the session
    that make up its own lane. The answers of the manager are parameters. */
module RelaySession {
  import opened Options
  import opened Frames
  import opened Charges
  import opened Budget
  import opened DownQueue
  import opened Lanes
  import opened Tombstones
  import opened SessionState
  import opened SessionInv
  import opened SessionSteps
  import SessionRuns

  class Session {
    const carrier: Carrier
    const limits: Limits

    var streams: map<nat, Stream>
    var closedStreams: set<nat>
    var closedOrder: seq<nat>
    var closedStart: nat
    var lanes: map<LaneRef, Lane>
    var carrierLanes: map<nat, LaneRef>
    var pendingCost: int
    var pendingItems: int
    var closed: bool
    var nextLane: LaneRef
    var nextBackend: nat
    var panic: Option<Panic>
    var calls: seq<ManagerCall>

    function View(): State
      reads this
    {
      State(carrier, limits, streams, Ring(closedStreams, closedOrder, closedStart), lanes, carrierLanes,
            pendingCost, pendingItems, closed, nextLane, nextBackend, panic, calls)
    }

    /** `newSession`. */
    constructor (carrier: Carrier, limits: Limits)
      ensures View() == NewSession(carrier, limits)
    {
      this.carrier, this.limits := carrier, limits;
      streams, closedStreams, closedOrder, closedStart := map[], {}, [], 0;
      lanes, carrierLanes, nextLane := map[MAIN := NEW_LANE], map[], 1;
      pendingCost, pendingItems, closed, nextBackend, panic, calls := 0, 0, false, 0, None, [];
      new;
      if carrier == HttpsLanes {
        AddCarrierLane(0);
      }
    }

    /** `newCarrierLane`, registered. */
    method AddCarrierLane(laneID: nat)
      modifies `lanes, `carrierLanes, `nextLane
      ensures View() == AddLane(old(View()), laneID)
    {
      lanes := lanes[nextLane := NEW_LANE];
      carrierLanes := carrierLanes[laneID := nextLane];
      nextLane := nextLane + 1;
    }

    function UsesCarrierLanes(): bool {
      carrier == HttpsLanes || carrier == WebSocketLanes
    }

    function LaneOf(r: LaneRef): Lane
      reads `lanes
    {
      if r in lanes then lanes[r] else NEW_LANE
    }

    // ----------------------------------------------------------------- pending budget

    /** `reservePendingLocked`. */
    method ReservePending(cost: int, items: int, pool: PendingClass, granted: bool) returns (ok: bool)
      modifies `pendingCost, `pendingItems, `calls
      ensures (View(), ok) == Reserve(old(View()), cost, items, pool, granted)
    {
      hide ControlReserve, UplinkReserve, SubtractReserve;
      var limit := SessionLimit(limits);
      if pool == PendingUplink {
        limit := UplinkLimit(limits);
      } else if pool == PendingDownlink {
        limit := DownlinkLimit(limits);
      }
      if cost <= 0 || items < 0 || cost > limit.cost || items > limit.items
         || pendingCost > limit.cost - cost || pendingItems > limit.items - items {
        return false;
      }
      calls := calls + [BudgetCall(cost, items, pool, granted)];
      if !granted {
        return false;
      }
      pendingCost := pendingCost + cost;
      pendingItems := pendingItems + items;
      return true;
    }

    /** `uplinkPendingLimits` and `downlinkPendingLimits`. */
    static function UplinkLimit(l: Limits): Amount { SubtractReserve(SessionLimit(l), ControlReserve(l)) }
    static function DownlinkLimit(l: Limits): Amount { SubtractReserve(UplinkLimit(l), UplinkReserve(l)) }

    /** `releasePendingLocked`. */
    method ReleasePending(cost: int, items: int)
      modifies `pendingCost, `pendingItems, `calls, `panic
      ensures View() == Release(old(View()), cost, items)
    {
      if cost == 0 && items == 0 {
        return;
      }
      if cost < 0 || items < 0 || cost > pendingCost || items > pendingItems {
        panic := Some(BadRelease);
        return;
      }
      calls := calls + [BudgetCall(-cost, -items, PendingUplink, true)];
      pendingCost := pendingCost - cost;
      pendingItems := pendingItems - items;
    }

    // --------------------------------------------------------- queues and tombstones

    /** `queueFrameLocked` and `queueLaneFrameLocked`. */
    method QueueFrameLocked(f: Frame, granted: bool) returns (ok: bool)
      modifies `lanes, `pendingCost, `pendingItems, `calls
      ensures (View(), ok) == QueueFrame(old(View()), f, granted)
    {
      hide Reserve, Enqueue, Admit;
      if UsesCarrierLanes() {
        if f.streamID !in carrierLanes {
          return false;
        }
        ok := QueueOnLane(carrierLanes[f.streamID], f, granted);
      } else {
        ok := QueueOnLane(MAIN, f, granted);
      }
    }

    /** What is reserved and queued once the lane is known. */
    function Queued(s: State, r: LaneRef, f: Frame, granted: bool): (State, bool) {
      var l := LaneAt(s, r);
      match Admit(l.queue, f, s.limits.maxFramePayload)
      case Absorbed => (WithLane(s, r, Enqueue(l, f, s.limits.maxFramePayload)), true)
      case Needs(cost, items, pool) =>
        var (reserved, ok) := Reserve(s, cost, items, pool, granted);
        if !ok then (reserved, false) else (WithLane(reserved, r, Enqueue(l, f, s.limits.maxFramePayload)), true)
    }

    method QueueOnLane(r: LaneRef, f: Frame, granted: bool) returns (ok: bool)
      modifies `lanes, `pendingCost, `pendingItems, `calls
      ensures (View(), ok) == Queued(old(View()), r, f, granted)
    {
      hide Reserve, Admit, Push, Encode, WithAmount, WithMore, PayloadOf, WindowAmount;
      var lane := LaneOf(r);
      var frames, windows := lane.queue.frames, lane.queue.windows;
      PushCases(lane.queue, f, limits.maxFramePayload);
      if f.typeCode == WINDOW && f.streamID in windows && 0 <= windows[f.streamID] < |frames| {
        var index := windows[f.streamID];
        var total := WindowAmount(PayloadOf(frames[index])) + WindowAmount(f.payload);
        if total <= MAX_UINT32 {
          if |frames[index].encoded| >= HEADER_SIZE {
            frames := frames[index := WithAmount(frames[index], total)];
          }
          SetQueue(r, lane, frames, windows);
          return true;
        }
      }
      if |frames| != 0 {
        var n := |frames| - 1;
        var last := frames[n];
        if last.typeCode == DATA && f.typeCode == DATA && last.streamID == f.streamID
           && |last.encoded| - HEADER_SIZE + |f.payload| <= limits.maxFramePayload {
          ok := ReservePending(|f.payload|, 0, PendingDownlink, granted);
          if !ok {
            return false;
          }
          if |last.encoded| >= HEADER_SIZE {
            frames := frames[n := WithMore(last, f.payload)];
          }
          SetQueue(r, lane, frames, windows);
          return true;
        }
      }
      var encoded := Encode(f);
      var pool := if f.typeCode == DATA then PendingDownlink else PendingControl;
      ok := ReservePending(|encoded| + QUEUE_ITEM_COST, 1, pool, granted);
      if !ok {
        return false;
      }
      if f.typeCode == WINDOW {
        windows := windows[f.streamID := |frames|];
      }
      frames := frames + [QueuedFrame(encoded, f.typeCode, f.streamID, |encoded| + QUEUE_ITEM_COST)];
      SetQueue(r, lane, frames, windows);
      return true;
    }

    method SetQueue(r: LaneRef, lane: Lane, frames: seq<QueuedFrame>, windows: map<nat, int>)
      modifies `lanes
      ensures lanes == old(lanes)[r := lane.(queue := Queue(frames, windows), notify := true)]
    {
      lanes := lanes[r := lane.(queue := Queue(frames, windows), notify := true)];
    }

    /** The three ways of a push. */
    static lemma PushCases(q: Queue, f: Frame, maxFramePayload: int)
      ensures MergesWindow(q, f) ==>
        && Admit(q, f, maxFramePayload) == Absorbed
        && Push(q, f, maxFramePayload).windows == q.windows
        && var at := q.windows[f.streamID];
          Push(q, f, maxFramePayload).frames
            == if |q.frames[at].encoded| < HEADER_SIZE then q.frames
               else q.frames[at :=
                 WithAmount(q.frames[at], WindowAmount(PayloadOf(q.frames[at])) + WindowAmount(f.payload))]
      ensures !MergesWindow(q, f) && ExtendsData(q, f, maxFramePayload) ==>
        && Admit(q, f, maxFramePayload) == Needs(|f.payload|, 0, PendingDownlink)
        && Push(q, f, maxFramePayload).windows == q.windows
        && var n := |q.frames| - 1;
          Push(q, f, maxFramePayload).frames
            == if |q.frames[n].encoded| < HEADER_SIZE then q.frames else q.frames[n := WithMore(q.frames[n], f.payload)]
      ensures !MergesWindow(q, f) && !ExtendsData(q, f, maxFramePayload) ==>
        && Admit(q, f, maxFramePayload)
           == Needs(|Encode(f)| + QUEUE_ITEM_COST, 1, if f.typeCode == DATA then PendingDownlink else PendingControl)
        && Push(q, f, maxFramePayload)
           == Queue(q.frames + [QueuedFrame(Encode(f), f.typeCode, f.streamID, |Encode(f)| + QUEUE_ITEM_COST)],
                    if f.typeCode == WINDOW then q.windows[f.streamID := |q.frames|] else q.windows)
    {
      hide WithAmount, WithMore, PayloadOf, WindowAmount;
    }

    /** `releaseLaneLocked`. */
    method ReleaseLaneLocked(r: LaneRef)
      modifies `lanes, `pendingCost, `pendingItems, `calls, `panic
      ensures View() == ReleaseLane(old(View()), r)
    {
      hide Holds, Emptied, Release;
      var lane := LaneOf(r);
      var cost, items := HeldBy(lane);
      NothingReleased(View());
      if cost != 0 || items != 0 {
        ReleasePending(cost, items);
      }
      lanes := lanes[r := Emptied(lane)];
    }

    lemma NothingReleased(s: State)
      ensures Release(s, 0, 0) == s
    {
    }

    /** Its loop over the queued frames. */
    static method HeldBy(lane: Lane) returns (cost: int, items: int)
      ensures Amount(cost, items) == Holds(lane)
    {
      cost, items := lane.unackedCost, lane.unackedItems;
      var frames := lane.queue.frames;
      for i := 0 to |frames|
        invariant cost == lane.unackedCost + TotalCost(frames[..i]) && items == lane.unackedItems + i
      {
        TotalSnoc(frames, i);
        cost := cost + frames[i].cost;
        items := items + 1;
      }
      assert frames[..|frames|] == frames;
    }

    static lemma TotalSnoc(frames: seq<QueuedFrame>, i: nat)
      requires i < |frames|
      ensures TotalCost(frames[..i + 1]) == TotalCost(frames[..i]) + frames[i].cost
    {
      assert frames[..i + 1] == frames[..i] + [frames[i]];
      JoinedConcat(frames[..i], [frames[i]]);
      assert [frames[i]][1..] == [];
    }

    /** A registered lane is released and taken out of the register. */
    method DropLaneLocked(laneID: nat)
      modifies `lanes, `carrierLanes, `pendingCost, `pendingItems, `calls, `panic
      ensures View() == DropLane(old(View()), laneID)
    {
      hide ReleaseLane;
      if laneID in carrierLanes {
        ReleaseLaneLocked(carrierLanes[laneID]);
        carrierLanes := carrierLanes - {laneID};
      }
    }

    /** `rememberClosedLocked`. */
    method RememberClosedLocked(id: nat)
      modifies this
      ensures View() == RememberClosed(old(View()), id)
    {
      hide DropLane, SignalLane;
      if id in closedStreams {
        return;
      }
      ghost var before := View();
      if |closedOrder| < limits.maxClosedStreamIDs {
        closedStreams := closedStreams + {id};
        closedOrder := closedOrder + [id];
      } else if closedStart < |closedOrder| {
        var evicted := closedOrder[closedStart];
        closedStreams := closedStreams + {id} - {evicted};
        closedOrder := closedOrder[closedStart := id];
        closedStart := (closedStart + 1) % |closedOrder|;
        assert View() == Noted(before, id);
        DropLaneLocked(evicted);
      }
      SignalLaneLocked(id);
    }

    method SignalLaneLocked(laneID: nat)
      modifies `lanes
      ensures View() == SignalLane(old(View()), laneID)
    {
      if laneID in carrierLanes {
        lanes := lanes[carrierLanes[laneID] := Signal(LaneOf(carrierLanes[laneID]))];
      }
    }

    /** `releaseStreamWritesLocked` and the deletion that follows it; a missing stream is a nil pointer. */
    method DropStreamLocked(id: nat)
      modifies `streams, `pendingCost, `pendingItems, `calls, `panic
      ensures View() == DropStream(old(View()), id)
    {
      if id !in streams {
        panic := Some(NilStream);
        return;
      }
      var state := streams[id];
      if state.pendingWriteCost != 0 || state.pendingWriteItems != 0 {
        ReleasePending(state.pendingWriteCost, state.pendingWriteItems);
      }
      streams := streams - {id};
    }

    method SettleAllLocked()
      modifies `pendingCost, `pendingItems, `calls
      ensures View() == SettleAll(old(View()))
    {
      if pendingCost != 0 || pendingItems != 0 {
        calls := calls + [BudgetCall(-pendingCost, -pendingItems, PendingUplink, true)];
        pendingCost, pendingItems := 0, 0;
      }
    }

    /** `closeLocked`. */
    method CloseLocked()
      modifies `lanes, `streams, `closed, `pendingCost, `pendingItems, `calls
      ensures View() == CloseSession(old(View()))
    {
      hide SettleAll;
      if closed {
        return;
      }
      closed := true;
      lanes := EmptiedLanes(lanes, carrierLanes);
      streams := map[];
      SettlesLast(old(View()), lanes);
      SettleAllLocked();
    }

    static lemma SettlesLast(s: State, lanes: map<LaneRef, Lane>)
      ensures SettleAll(s.(closed := true, streams := map[], lanes := lanes))
           == SettleAll(s).(closed := true, streams := map[], lanes := lanes)
    {
    }

    /** Its loop over the registered lanes, and the session's own. */
    static method EmptiedLanes(lanes: map<LaneRef, Lane>, carrierLanes: map<nat, LaneRef>)
        returns (after: map<LaneRef, Lane>)
      ensures after == map r | r in lanes :: if r == MAIN || r in carrierLanes.Values then Emptied(lanes[r])
        else lanes[r]
    {
      hide Emptied;
      after := lanes;
      var todo := carrierLanes.Keys;
      ghost var done: set<LaneRef> := {};
      while todo != {}
        invariant todo <= carrierLanes.Keys && done <= carrierLanes.Values
        invariant forall id :: id in carrierLanes && id !in todo ==> carrierLanes[id] in done
        invariant after.Keys == lanes.Keys
        invariant forall r :: r in lanes ==> after[r] == if r in done then Emptied(lanes[r]) else lanes[r]
        decreases |todo|
      {
        var id :| id in todo;
        todo := todo - {id};
        var r := carrierLanes[id];
        if r in after {
          EmptiedTwice(lanes[r]);
          after := after[r := Emptied(after[r])];
        }
        done := done + {r};
      }
      assert done == carrierLanes.Values;
      if MAIN in after {
        EmptiedTwice(lanes[MAIN]);
        after := after[MAIN := Emptied(after[MAIN])];
      }
    }

    static lemma EmptiedTwice(l: Lane)
      ensures Emptied(Emptied(l)) == Emptied(l)
    {
    }

    // -------------------------------------------------------------------- batches

    /** `validateBatchLocked`. */
    method ValidateBatchLocked(values: seq<Frame>) returns (valid: bool)
      ensures valid == ValidateBatch(View(), values)
    {
      hide Accepts, Simulate;
      var live := map id | id in streams :: Snapshot(streams[id].receiveWindow, streams[id].sendCredit);
      var closedNow: set<nat> := {};
      for i := 0 to |values|
        invariant ValidateBatch(View(), values) == Validate(Sim(live, closedNow), closedStreams, values[i..])
      {
        var value := values[i];
        var accepted;
        AcceptedStep(Sim(live, closedNow), closedStreams, values[i..]);
        assert values[i..][1..] == values[i + 1..];
        accepted, live, closedNow := ValidateFrame(live, closedNow, value);
        if !accepted {
          return false;
        }
      }
      assert values[|values|..] == [];
      return true;
    }

    static lemma AcceptedStep(sim: Sim, tombstones: set<nat>, values: seq<Frame>)
      requires values != []
      ensures Validate(sim, tombstones, values)
           == (Accepts(sim, tombstones, values[0])
               && Validate(Simulate(sim, tombstones, values[0]), tombstones, values[1..]))
    {
      hide Accepts, Simulate;
    }

    /** The body of its loop. */
    method ValidateFrame(live: map<nat, Snapshot>, closedNow: set<nat>, value: Frame)
      returns (accepted: bool, nextLive: map<nat, Snapshot>, nextClosed: set<nat>)
      ensures accepted == Accepts(Sim(live, closedNow), closedStreams, value)
      ensures accepted ==> Sim(nextLive, nextClosed) == Simulate(Sim(live, closedNow), closedStreams, value)
    {
      hide Credited;
      nextLive, nextClosed := live, closedNow;
      var id := value.streamID;
      if id == 0 {
        return value.typeCode == PONG, live, closedNow;
      }
      var wasClosed := id in closedStreams || id in closedNow;
      if value.typeCode == OPEN {
        if id in live || wasClosed {
          return false, live, closedNow;
        }
        nextLive := live[id := Snapshot(INITIAL_STREAM_WINDOW, INITIAL_STREAM_WINDOW)];
      } else if value.typeCode == DATA {
        if wasClosed {
          return true, live, closedNow;
        }
        if id !in live || |value.payload| % TWO32 > live[id].receiveWindow {
          return false, live, closedNow;
        }
        nextLive := live[id := live[id].(receiveWindow := Sub32(live[id].receiveWindow, |value.payload| % TWO32))];
      } else if value.typeCode == WINDOW {
        if wasClosed {
          return true, live, closedNow;
        }
        if id !in live {
          return false, live, closedNow;
        }
        nextLive := live[id := live[id].(sendCredit := Credited(live[id].sendCredit, value.payload))];
      } else if value.typeCode == CLOSE {
        if wasClosed {
          return true, live, closedNow;
        }
        if id !in live {
          return false, live, closedNow;
        }
        nextLive := live - {id};
        nextClosed := closedNow + {id};
      } else {
        return false, live, closedNow;
      }
      return true, nextLive, nextClosed;
    }

    /** `backendWriteReservationLocked`. */
    method BackendWriteReservationLocked(values: seq<Frame>) returns (cost: int, items: int)
      ensures Amount(cost, items) == Reservation(streams.Keys, values)
    {
      var live := streams.Keys;
      cost, items := 0, 0;
      for i := 0 to |values|
        invariant cost + Reservation(live, values[i..]).cost == Reservation(streams.Keys, values).cost
        invariant items + Reservation(live, values[i..]).items == Reservation(streams.Keys, values).items
      {
        var value := values[i];
        assert values[i..][1..] == values[i + 1..] && values[i..][0] == value;
        if value.streamID != 0 {
          if value.typeCode == OPEN {
            live := live + {value.streamID};
          } else if value.typeCode == DATA {
            if value.streamID in live {
              cost := cost + |value.payload| + QUEUE_ITEM_COST;
              items := items + 1;
            }
          } else if value.typeCode == CLOSE {
            live := live - {value.streamID};
          }
        }
      }
      assert values[|values|..] == [];
    }

    /** `appendBackendWriteLocked`. */
    method AppendBackendWriteLocked(id: nat, payload: Bytes) returns (cost: int, items: int)
      requires id in streams
      modifies `streams
      ensures View() == WithStream(old(View()), id, AppendWrite(old(streams)[id], payload))
      ensures Amount(cost, items) == WriteAmount(old(streams)[id], payload)
    {
      var state := streams[id];
      cost, items := |payload| + QUEUE_ITEM_COST, 1;
      var n := |state.writes|;
      var coalesce := n != 0 && |state.writes[n - 1]| + |payload| <= DATA_CHUNK;
      if coalesce {
        cost, items := |payload|, 0;
      }
      if coalesce {
        state := state.(writes := state.writes[n - 1 := state.writes[n - 1] + payload]);
      } else {
        state := state.(writes := state.writes + [payload]);
      }
      state := state.(pendingWriteBytes := state.pendingWriteBytes + |payload|,
                      pendingWriteCost := state.pendingWriteCost + cost, pendingWriteItems := state.pendingWriteItems
                        + items);
      streams := streams[id := state];
    }

    /** `applyBatchLocked`: what is left of the reservation, the backends begun and ended, and whether
        every frame could be applied. It stops where it must refuse a stream and cannot say so, and where
        a stream is missing. */
    method ApplyBatchLocked(values: seq<Frame>, reservedCost: int, reservedItems: int, answers: seq<Answer>)
      returns (begun: seq<nat>, ended: seq<nat>, cost: int, items: int, applied: bool)
      requires panic.None?
      modifies this
      ensures Applying(View(), cost, items, begun, ended, applied)
           == ApplyAll(Applying(old(View()), reservedCost, reservedItems, [], [], true), values, answers)
    {
      hide ApplyFrame;
      begun, ended, cost, items, applied := [], [], reservedCost, reservedItems, true;
      ghost var start := Applying(View(), cost, items, begun, ended, applied);
      var others := answers;
      for i := 0 to |values|
        invariant panic.None? && applied
        invariant ApplyAll(start, values, answers)
          == ApplyAll(Applying(View(), cost, items, begun, ended, applied), values[i..], others)
      {
        AppliedStep(Applying(View(), cost, items, begun, ended, applied), values[i..], others);
        assert values[i..][1..] == values[i + 1..] && values[i..][0] == values[i];
        begun, ended, cost, items, applied := ApplyFrameLocked(values[i], First(others), begun, ended, cost, items);
        others := Others(others);
        if !applied || panic.Some? {
          return;
        }
      }
      assert values[|values|..] == [];
    }

    static lemma AppliedStep(x: Applying, values: seq<Frame>, answers: seq<Answer>)
      requires values != [] && x.ok && x.state.panic.None?
      ensures ApplyAll(x, values, answers)
        == ApplyAll(ApplyFrame(x, values[0], First(answers)), values[1..], Others(answers))
      ensures var y := ApplyFrame(x, values[0], First(answers));
        !y.ok || y.state.panic.Some? ==> ApplyAll(x, values, answers) == y
    {
      hide ApplyFrame;
    }

    /** The body of its loop. */
    method ApplyFrameLocked(value: Frame, a: Answer, begun: seq<nat>, ended: seq<nat>, reservedCost: int,
        reservedItems: int)
      returns (begunNow: seq<nat>, endedNow: seq<nat>, cost: int, items: int, applied: bool)
      modifies this
      ensures Applying(View(), cost, items, begunNow, endedNow, applied)
           == ApplyFrame(Applying(old(View()), reservedCost, reservedItems, begun, ended, true), value, a)
    {
      hide RememberClosed, QueueFrame, DropStream, AppendWrite, NewStream, Credited, WriteAmount;
      begunNow, endedNow, cost, items, applied := begun, ended, reservedCost, reservedItems, true;
      var id := value.streamID;
      if id == 0 {
        return;
      }
      var wasClosed := id in closedStreams;
      if value.typeCode == OPEN {
        var admitted := false;
        if |streams| < limits.maxStreamsPerSession {
          calls := calls + [TicketCall(nextBackend, a.ticket)];
          admitted := a.ticket;
        }
        if !admitted {
          RememberClosedLocked(id);
          applied := QueueFrameLocked(Frame(CLOSE, id, []), a.granted);
          return;
        }
        streams := streams[id := NewStream(nextBackend)];
        begunNow := begun + [nextBackend];
        nextBackend := nextBackend + 1;
      } else if value.typeCode == DATA || value.typeCode == WINDOW || value.typeCode == CLOSE {
        if wasClosed {
          return;
        }
        if id !in streams {
          panic := Some(NilStream);
          return;
        }
        if value.typeCode == DATA {
          var used, usedItems := AppendBackendWriteLocked(id, value.payload);
          cost, items := reservedCost - used, reservedItems - usedItems;
          var state := streams[id];
          streams := streams[id := state.(receiveWindow := Sub32(state.receiveWindow, |value.payload| % TWO32))];
        } else if value.typeCode == WINDOW {
          var state := streams[id];
          streams := streams[id := state.(sendCredit := Credited(state.sendCredit, value.payload))];
        } else {
          endedNow := ended + [streams[id].backend];
          DropStreamLocked(id);
          RememberClosedLocked(id);
        }
      }
    }

    // --------------------------------------------------------------------------- uplink

    /** What holds between critical sections, unless one has panicked and kept the lock. */
    ghost predicate Valid()
      reads this
    {
      panic.None? ==> Inv(View())
    }

    /** The parsing and shape checks of `ProcessUp` and `ProcessUpLane`, done without the lock. */
    method ParseClientFrames(body: Bytes, lane: Option<nat>) returns (frames: Option<seq<Frame>>)
      ensures frames == ClientFrames(View(), body, lane)
    {
      hide ParseBody, ClientShape;
      var r := ParseAll(body, limits.maxFramePayload);
      if r.ParseFailed? {
        return None;
      }
      for i := 0 to |r.frames|
        invariant forall j :: 0 <= j < i ==>
          ClientShape(r.frames[j]) && (lane.Some? ==> r.frames[j].streamID == lane.value)
      {
        if !ClientShape(r.frames[i]) || (lane.Some? && r.frames[i].streamID != lane.value) {
          return None;
        }
      }
      return Some(r.frames);
    }

    method SetLaneUpActive(r: LaneRef, active: bool)
      modifies `lanes
      ensures View() == SetUpActive(old(View()), r, active)
    {
      lanes := lanes[r := LaneOf(r).(upActive := active)];
    }

    /** From validation to commit, as both uplink requests do it. */
    method CommitBatchLocked(r: LaneRef, sequence: nat, body: Bytes, frames: seq<Frame>, a: Answers)
        returns (o: UpOutcome)
      requires panic.None?
      modifies this
      ensures (View(), o) == CommitBatch(old(View()), r, sequence, body, frames, a)
    {
      hide ValidateBatch, Reservation, ApplyAll, Reserve, Release, Committed;
      var valid := ValidateBatchLocked(frames);
      if !valid {
        return Failed;
      }
      var cost, items := BackendWriteReservationLocked(frames);
      if cost != 0 || items != 0 {
        var ok := ReservePending(cost, items, PendingUplink, a.reserved);
        if !ok {
          return Backpressure;
        }
        ReserveShape(old(View()), cost, items, PendingUplink, a.reserved);
      }
      var begun, ended, unusedCost, unusedItems, applied := ApplyBatchLocked(frames, cost, items, a.frames);
      if panic.Some? {
        return NotApplied;
      }
      NothingReleased(View());
      if unusedCost != 0 || unusedItems != 0 {
        ReleasePending(unusedCost, unusedItems);
      }
      if !applied {
        return NotApplied;
      }
      lanes := lanes[r := Committed(LaneOf(r), sequence, body)];
      return Applied;
    }

    lemma ReserveShape(s: State, cost: int, items: int, pool: PendingClass, granted: bool)
      ensures Reserve(s, cost, items, pool, granted).0.panic == s.panic
    {
    }

    /** `ProcessUp` up to the point where it leaves the lock to parse the body. */
    method ProcessUpBegin(sequence: nat, body: Bytes) returns (o: UpOutcome)
      requires Valid() && panic.None?
      modifies this
      ensures (View(), o) == UpBegin(old(View()), sequence, body) && Valid()
    {
      hide InvWith;
      SessionRuns.UpBeginKeepsInv(View(), sequence, body);
      if UsesCarrierLanes() {
        return Refused;
      }
      if closed {
        return Gone;
      }
      var main := LaneOf(MAIN);
      if sequence == main.lastUpSequence && sequence != 0 {
        if Sha256(body) != main.lastUpDigest {
          return Failed;
        }
        return Acked;
      }
      if sequence != (main.lastUpSequence + 1) % TWO64 || sequence == 0 {
        return Failed;
      }
      if main.upActive {
        return Concurrent;
      }
      SetLaneUpActive(MAIN, true);
      return Begun;
    }

    /** `ProcessUp` from where it takes the lock again; `frames` is what parsing gave. */
    method ProcessUpFinish(sequence: nat, body: Bytes, a: Answers) returns (o: UpOutcome)
      requires Valid() && panic.None? && !UsesLanes(View())
      modifies this
      ensures (View(), o) == UpFinish(old(View()), sequence, body, a) && Valid()
    {
      hide InvWith, ClientFrames, CommitBatch, ValidateBatch, SessionRuns.BatchRetained;
      SessionRuns.UpFinishKeepsInv(View(), sequence, body, a);
      var frames := ParseClientFrames(body, None);
      SetLaneUpActive(MAIN, false);
      if closed {
        return Gone;
      }
      if frames.None? {
        return Failed;
      }
      o := CommitBatchLocked(MAIN, sequence, body, frames.value, a);
    }

    /** `onlyLateFrames`. */
    static method OnlyLate(values: seq<Frame>) returns (late: bool)
      ensures late == OnlyLateFrames(values)
    {
      for i := 0 to |values|
        invariant forall j :: 0 <= j < i ==>
          values[j].typeCode == DATA || values[j].typeCode == WINDOW || values[j].typeCode == CLOSE
      {
        if values[i].typeCode != DATA && values[i].typeCode != WINDOW && values[i].typeCode != CLOSE {
          return false;
        }
      }
      return |values| != 0;
    }

    /** `ProcessUpLane`. */
    method ProcessUpLane(laneID: nat, sequence: nat, body: Bytes, a: Answers) returns (o: UpOutcome)
      requires Valid() && panic.None?
      modifies this
      ensures (View(), o) == UpLane(old(View()), laneID, sequence, body, a) && Valid()
    {
      hide InvWith, ClientFrames, UpOnLane, AddLane;
      SessionRuns.UpLaneKeepsInv(View(), laneID, sequence, body, a);
      if !UsesCarrierLanes() || laneID > MAX_STREAM_ID {
        return Refused;
      }
      var parsed := ParseClientFrames(body, Some(laneID));
      if parsed.None? {
        return Failed;
      }
      var frames := parsed.value;
      if closed {
        return Gone;
      }
      if laneID !in carrierLanes {
        if laneID != 0 && |frames| != 0 && frames[0].typeCode != OPEN {
          var late := OnlyLate(frames);
          if late {
            return Acked;
          }
        }
        if laneID == 0 || |frames| == 0 || frames[0].typeCode != OPEN {
          return Failed;
        }
        SessionRuns.AddedLane(View(), laneID);
        AddCarrierLane(laneID);
      }
      AddKeepsPanic(old(View()), laneID);
      o := UpOnLaneLocked(carrierLanes[laneID], sequence, body, frames, a);
    }

    lemma AddKeepsPanic(s: State, laneID: nat)
      ensures AddLane(s, laneID).panic == s.panic
    {
    }

    method UpOnLaneLocked(r: LaneRef, sequence: nat, body: Bytes, frames: seq<Frame>, a: Answers)
        returns (o: UpOutcome)
      requires panic.None?
      modifies this
      ensures (View(), o) == UpOnLane(old(View()), r, sequence, body, frames, a)
    {
      hide CommitBatch;
      var lane := LaneOf(r);
      if sequence == lane.lastUpSequence && sequence != 0 {
        if Sha256(body) != lane.lastUpDigest {
          return Failed;
        }
        return Acked;
      }
      if sequence != (lane.lastUpSequence + 1) % TWO64 || sequence == 0 {
        return Failed;
      }
      if lane.upActive {
        return Concurrent;
      }
      SetLaneUpActive(r, true);
      o := CommitBatchLocked(r, sequence, body, frames, a);
      SetLaneUpActive(r, false);
    }

    // ------------------------------------------------------ lanes, failures and closing

    /** `ReleaseWebSocketLane`. */
    method ReleaseWebSocketLaneLocked(laneID: nat)
      requires Valid() && panic.None?
      modifies this
      ensures View() == ReleaseWebSocketLane(old(View()), laneID) && Valid()
    {
      hide InvWith, DropLane, DropStream, RememberClosed;
      SessionRuns.ReleaseWebSocketLaneKeepsInv(View(), laneID);
      if carrier != WebSocketLanes || laneID !in carrierLanes {
        return;
      }
      var r := carrierLanes[laneID];
      lanes := lanes[r := LaneOf(r).(websocketActive := false)];
      if laneID in streams {
        DropStreamLocked(laneID);
        RememberClosedLocked(laneID);
      }
      DropLaneLocked(laneID);
    }

    /** `Close`, and `protocolFailure`. */
    method Close()
      requires Valid() && panic.None?
      modifies this
      ensures View() == CloseSession(old(View())) && Valid()
    {
      hide InvWith, CloseSession;
      SessionRuns.CloseSessionKeepsInv(View());
      CloseLocked();
    }

    /** `laneProtocolFailure`. */
    method LaneProtocolFailure(laneID: nat)
      requires Valid() && panic.None?
      modifies this
      ensures View() == LaneFailure(old(View()), laneID) && Valid()
    {
      hide InvWith, CloseSession, ReleaseWebSocketLane;
      if carrier == WebSocketLanes {
        ReleaseWebSocketLaneLocked(laneID);
      } else {
        Close();
      }
    }

    /** `AcquireWebSocket`. */
    method AcquireWebSocketLocked() returns (ok: bool)
      requires Valid() && panic.None?
      modifies this
      ensures (View(), ok) == AcquireWebSocket(old(View())) && Valid()
    {
      hide InvWith;
      SessionRuns.AcquireKeepsInv(View(), 0);
      if closed || carrier != WebSocket || LaneOf(MAIN).websocketActive {
        return false;
      }
      lanes := lanes[MAIN := LaneOf(MAIN).(websocketActive := true)];
      return true;
    }

    /** `AcquireWebSocketLane`. */
    method AcquireWebSocketLaneLocked(laneID: nat) returns (ok: bool)
      requires Valid() && panic.None?
      modifies this
      ensures (View(), ok) == AcquireWebSocketLane(old(View()), laneID) && Valid()
    {
      hide InvWith;
      SessionRuns.AcquireKeepsInv(View(), laneID);
      if closed || carrier != WebSocketLanes || laneID == 0 || laneID > MAX_STREAM_ID {
        return false;
      }
      if laneID in closedStreams {
        return false;
      }
      if laneID !in carrierLanes {
        if |carrierLanes| >= limits.maxStreamsPerSession {
          return false;
        }
        AddCarrierLane(laneID);
      }
      var r := carrierLanes[laneID];
      if LaneOf(r).websocketActive {
        return false;
      }
      lanes := lanes[r := LaneOf(r).(websocketActive := true)];
      return true;
    }

    // ------------------------------------------------------------------------- backends

    /** `nextWrite`, when it does not have to wait. */
    method TakeWrite(id: nat) returns (data: Option<Bytes>)
      requires Valid() && panic.None?
      modifies this
      ensures (View(), data) == NextWrite(old(View()), id) && Valid()
    {
      hide InvWith;
      SessionRuns.NextWriteKeepsInv(View(), id);
      if closed || id !in streams || |streams[id].writes| == 0 {
        return None;
      }
      var state := streams[id];
      data := Some(state.writes[0]);
      streams := streams[id := state.(writes := state.writes[1..])];
    }

    /** `backendDrained`. */
    method BackendDrained(id: nat, amount: int, granted: bool) returns (ok: bool)
      requires Valid() && panic.None?
      modifies this
      ensures (View(), ok) == Drained(old(View()), id, amount, granted) && Valid()
    {
      hide InvWith, QueueFrame;
      SessionRuns.DrainedKeepsInv(View(), id, amount, granted);
      if closed || id !in streams {
        return false;
      }
      var state := streams[id];
      if amount <= 0 || amount > state.pendingWriteBytes || amount > state.pendingWriteCost
         || state.receiveWindow + amount > INITIAL_STREAM_WINDOW {
        return false;
      }
      state :=
        state.(pendingWriteBytes := state.pendingWriteBytes - amount,
            pendingWriteCost := state.pendingWriteCost - amount);
      ReleasePending(amount, 0);
      streams := streams[id := state.(receiveWindow := state.receiveWindow + amount)];
      ok := QueueFrameLocked(Frame(WINDOW, id, WindowPayload(amount)), granted);
    }

    /** `backendWriteFinished`. */
    method BackendWriteFinished(id: nat) returns (ok: bool)
      requires Valid() && panic.None?
      modifies this
      ensures (View(), ok) == WriteFinished(old(View()), id) && Valid()
    {
      hide InvWith;
      SessionRuns.WriteFinishedKeepsInv(View(), id);
      if closed || id !in streams || streams[id].pendingWriteItems == 0
          || streams[id].pendingWriteCost < QUEUE_ITEM_COST {
        return false;
      }
      var state := streams[id];
      streams :=
        streams[id :=
          state.(pendingWriteItems := state.pendingWriteItems - 1,
              pendingWriteCost := state.pendingWriteCost - QUEUE_ITEM_COST)];
      ReleasePending(QUEUE_ITEM_COST, 1);
      return true;
    }

    /** `nextReadAllowance`, when it does not have to wait; otherwise 0. */
    method NextReadAllowance(id: nat) returns (allowance: nat)
      ensures allowance == ReadAllowance(View(), id)
    {
      hide ControlReserve, UplinkReserve, SubtractReserve;
      if closed || id !in streams || streams[id].sendCredit == 0 {
        return 0;
      }
      var result := streams[id].sendCredit;
      if result > DATA_CHUNK {
        result := DATA_CHUNK;
      }
      var limit := DownlinkLimit(limits);
      if pendingItems >= limit.items {
        return 0;
      }
      var available := limit.cost - pendingCost - QUEUE_ITEM_COST - HEADER_SIZE;
      if available <= 0 {
        return 0;
      }
      if result > available {
        result := available;
      }
      return result;
    }

    /** `backendData`, for what fits the read buffer. */
    method BackendDataRead(id: nat, data: Bytes, granted: bool) returns (ok: bool)
      requires Valid() && panic.None? && |data| <= DATA_CHUNK
      modifies this
      ensures (View(), ok) == BackendData(old(View()), id, data, granted) && Valid()
    {
      hide InvWith, QueueFrame;
      SessionRuns.BackendDataKeepsInv(View(), id, data, granted);
      if closed || id !in streams || |data| == 0 || |data| > streams[id].sendCredit {
        return false;
      }
      var state := streams[id];
      streams := streams[id := state.(sendCredit := state.sendCredit - |data|)];
      ok := QueueFrameLocked(Frame(DATA, id, data), granted);
    }

    /** `backendClosed`. */
    method BackendGone(id: nat, backend: nat, granted: bool)
      requires Valid() && panic.None?
      modifies this
      ensures View() == BackendClosed(old(View()), id, backend, granted) && Valid()
    {
      hide InvWith, QueueFrame, DropStream, RememberClosed, CloseSession;
      SessionRuns.BackendClosedKeepsInv(View(), id, backend, granted);
      if closed || id !in streams || streams[id].backend != backend {
        return;
      }
      DropStreamLocked(id);
      RememberClosedLocked(id);
      var ok := QueueFrameLocked(Frame(CLOSE, id, []), granted);
      if !ok {
        CloseLocked();
      }
    }

    // ---------------------------------------------------------------------------- polls

    /** The counting loop of `takeDownBatchLocked`. */
    static method CountBatch(frames: seq<QueuedFrame>, batchLimit: int) returns (count: nat, cost: int)
      ensures count == TakeCount(frames, batchLimit, 0, 0) && cost == TotalCost(frames[..count])
    {
      var size := 0;
      count, cost := 0, 0;
      while count < |frames| && count < MAX_BATCH_FRAMES
        invariant count <= |frames| && size >= 0
        invariant TakeCount(frames, batchLimit, 0, 0) == TakeCount(frames, batchLimit, count, size)
        invariant cost == TotalCost(frames[..count])
        decreases |frames| - count
      {
        var next := |frames[count].encoded|;
        if count != 0 && size + next > batchLimit {
          break;
        }
        TotalSnoc(frames, count);
        size := size + next;
        cost := cost + frames[count].cost;
        count := count + 1;
      }
    }

    /** The index entries left once the frames before `index` are gone. */
    static predicate LeftBehind(windows: map<nat, int>, left: map<nat, int>, index: int) {
      && (forall id :: id in left ==> id in windows && left[id] == windows[id] && windows[id] >= index)
      && (forall id :: id in windows && windows[id] >= index ==> id in left)
    }

    static lemma LeftBehindNext(queue: Queue, left: map<nat, int>, index: nat, next: map<nat, int>)
      requires QueueInv(queue) && index < |queue.frames| && LeftBehind(queue.windows, left, index)
      requires var f := queue.frames[index];
        next == if f.typeCode == WINDOW && f.streamID in left && left[f.streamID] == index then left - {f.streamID}
          else left
      ensures LeftBehind(queue.windows, next, index + 1)
    {
      hide WellFormed;
      forall id | id in queue.windows && queue.windows[id] == index
        ensures queue.frames[index].typeCode == WINDOW && queue.frames[index].streamID == id
      {
        assert IndexesWindow(queue, id);
      }
      hide QueueInv, IndexesWindow;
    }

    /** The rest of `takeDownBatchLocked`: the body is put together, the index entries of the frames in it
        are deleted, and those that stay are renumbered. */
    static method TakeDownBatch(queue: Queue, batchLimit: int) returns (batch: Batch, after: Queue)
      requires QueueInv(queue)
      ensures batch == TakeBatch(queue, batchLimit) && after == AfterBatch(queue, batchLimit)
    {
      hide QueueInv, TakeCount;
      var frames := queue.frames;
      var count, cost := CountBatch(frames, batchLimit);
      var result: Bytes := [];
      var windows: map<nat, int> := queue.windows;
      AllLeft(queue);
      for index := 0 to count
        invariant result == Joined(frames[..index]) && LeftBehind(queue.windows, windows, index)
      {
        ghost var left: map<nat, int> := windows;
        var f := frames[index];
        if f.typeCode == WINDOW && f.streamID in windows && windows[f.streamID] == index {
          windows := windows - {f.streamID};
        }
        LeftBehindNext(queue, left, index, windows);
        JoinedSnoc(frames, index);
        result := result + f.encoded;
      }
      var renumbered: map<nat, int> := windows;
      var todo := windows.Keys;
      while todo != {}
        invariant todo <= windows.Keys && renumbered.Keys == windows.Keys
        invariant forall id :: id in windows ==>
          renumbered[id] == if id in todo then windows[id] else windows[id] - count
        decreases |todo|
      {
        var id :| id in todo;
        todo := todo - {id};
        renumbered := renumbered[id := windows[id] - count];
      }
      batch := Batch(result, cost, count);
      after := Queue(frames[count..], renumbered);
      assert renumbered == map id | id in queue.windows && queue.windows[id] >= count :: queue.windows[id] - count;
    }

    static lemma AllLeft(queue: Queue)
      requires QueueInv(queue)
      ensures LeftBehind(queue.windows, queue.windows, 0)
    {
      forall id | id in queue.windows
        ensures IndexesWindow(queue, id)
      {
      }
    }

    static lemma JoinedSnoc(frames: seq<QueuedFrame>, i: nat)
      requires i < |frames|
      ensures Joined(frames[..i + 1]) == Joined(frames[..i]) + frames[i].encoded
    {
      assert frames[..i + 1] == frames[..i] + [frames[i]];
      JoinedConcat(frames[..i], [frames[i]]);
      JoinedOne(frames[i], [frames[i]]);
    }

    static lemma JoinedOne(f: QueuedFrame, one: seq<QueuedFrame>)
      requires one == [f]
      ensures Joined(one) == f.encoded
    {
      assert one[1..] == [];
    }

    /** What a poll waiting on lane object `r` checks of the session. */
    function ConditionNow(r: LaneRef, laneID: nat): Condition
      reads this
    {
      ConditionOf(View(), r, laneID)
    }

    /** One pass of the waiting loop of `Poll` and `PollLane`, on the lane. */
    method LanePass(lane: Lane, r: LaneRef, laneID: nat, me: nat, cursor: nat) returns (next: Lane, outcome: Outcome)
      requires QueueInv(lane.queue)
      ensures Turn(next, outcome) == Loop(lane, me, cursor, limits.carrierBatchBytes, ConditionNow(r, laneID))
    {
      hide TakeBatch, AfterBatch, QueueInv;
      if lane.superseded != Some(me) {
        return lane, Empty;
      }
      if |lane.queue.frames| != 0 {
        var batch, after := TakeDownBatch(lane.queue, limits.carrierBatchBytes);
        next := lane.(queue := after, downCursor := lane.downCursor + 1, unackedBase := cursor, unacked := batch.body,
                      unackedCost := batch.cost, unackedItems := batch.items, downActive := false, superseded := None);
        return next, Delivered(batch.body, next.downCursor);
      }
      next := lane.(downActive := false, superseded := None);
      if closed {
        return next, SessionOver;
      }
      if r != MAIN {
        if laneID != 0 && laneID !in streams && laneID in closedStreams {
          return next, LaneOver;
        }
        if laneID !in carrierLanes || carrierLanes[laneID] != r {
          return next, LaneOver;
        }
      }
      return lane, Parked;
    }

    /** The same on the session. */
    method PollPass(lane: Lane, r: LaneRef, laneID: nat, me: nat, cursor: nat) returns (outcome: Outcome)
      requires QueueInv(lane.queue)
      modifies `lanes
      ensures var t := Loop(lane, me, cursor, limits.carrierBatchBytes, old(ConditionNow(r, laneID)));
        outcome == t.outcome && View() == WithLane(old(View()), r, t.lane)
    {
      hide Loop, ConditionOf, QueueInv;
      var next;
      next, outcome := LanePass(lane, r, laneID, me, cursor);
      lanes := lanes[r := next];
    }

    /** `Poll` and `PollLane` up to the first time they wait. */
    method PollFirst(laneID: nat, me: nat, cursor: nat) returns (entry: Entry)
      requires Valid() && panic.None?
      modifies this
      ensures (View(), entry) == PollEnter(old(View()), laneID, me, cursor) && Valid()
    {
      hide InvWith, Loop, ConditionOf, QueueInv;
      SessionRuns.PollEnterKeepsInv(View(), laneID, me, cursor);
      if UsesCarrierLanes() && laneID > MAX_STREAM_ID {
        return PollRefused;
      }
      if closed {
        return PollGone;
      }
      var r := MAIN;
      if UsesCarrierLanes() {
        if laneID !in carrierLanes {
          return PollRefused;
        }
        r := carrierLanes[laneID];
      }
      SessionRuns.PollLaneIsThere(View(), laneID);
      SessionRuns.InvLane(View(), r);
      QueueOfLane(lanes[r]);
      var lane := lanes[r];
      if |lane.unacked| != 0 {
        if cursor == lane.unackedBase {
          return PollReplays(lane.unacked, lane.downCursor);
        }
        if cursor != lane.downCursor {
          return PollFails;
        }
        ReleasePending(lane.unackedCost, lane.unackedItems);
        lane := lane.(unacked := [], unackedCost := 0, unackedItems := 0);
      } else if cursor != lane.downCursor {
        return PollFails;
      }
      NothingReleased(View());
      var outcome := PollPass(lane.(superseded := Some(me), downActive := true), r, laneID, me, cursor);
      return PollEnters(r, outcome);
    }

    lemma QueueOfLane(l: Lane)
      requires LaneInv(l)
      ensures QueueInv(l.queue)
    {
    }

    /** `case <-notify`. */
    method PollAgain(r: LaneRef, laneID: nat, me: nat, cursor: nat) returns (outcome: Outcome)
      requires Valid() && panic.None? && r in lanes
      modifies this
      ensures (View(), outcome) == PollWoken(old(View()), r, laneID, me, cursor) && Valid()
    {
      hide InvWith, Loop, ConditionOf, QueueInv;
      SessionRuns.PollWokenKeepsInv(View(), r, laneID, me, cursor);
      SessionRuns.InvLane(View(), r);
      QueueOfLane(lanes[r]);
      var lane := lanes[r];
      if lane.superseded != Some(me) {
        lane := Signal(lane);
      }
      outcome := PollPass(lane, r, laneID, me, cursor);
    }

    /** `case <-deadline.C`. */
    method PollTimesOut(r: LaneRef, laneID: nat, me: nat, cursor: nat) returns (outcome: Outcome)
      requires Valid() && panic.None? && r in lanes
      modifies this
      ensures (View(), outcome) == PollDeadline(old(View()), r, laneID, me, cursor) && Valid()
    {
      hide InvWith, Loop, ConditionOf, QueueInv;
      SessionRuns.PollLeavesKeepsInv(View(), r, laneID, me, cursor);
      SessionRuns.InvLane(View(), r);
      QueueOfLane(lanes[r]);
      var lane := lanes[r];
      if lane.superseded != Some(me) {
        lanes := lanes[r := Signal(lane)];
        return Empty;
      }
      if |lane.queue.frames| != 0 {
        outcome := PollPass(lane, r, laneID, me, cursor);
        return outcome;
      }
      lanes := lanes[r := lane.(downActive := false, superseded := None)];
      return Empty;
    }

    /** `case <-ctx.Done()` and `case <-s.done`. */
    method PollLeaves(r: LaneRef, me: nat)
      requires Valid() && panic.None? && r in lanes
      modifies this
      ensures View() == PollQuits(old(View()), r, me) && Valid()
    {
      hide InvWith;
      SessionRuns.PollLeavesKeepsInv(View(), r, 0, me, 0);
      if lanes[r].superseded == Some(me) {
        lanes := lanes[r := lanes[r].(downActive := false, superseded := None)];
      } else {
        lanes := lanes[r := lanes[r]];
      }
    }

    /** `case <-mine`. */
    method PollGivesWay(r: LaneRef)
      requires Valid() && panic.None? && r in lanes
      modifies this
      ensures View() == PollDisplaced(old(View()), r) && Valid()
    {
      hide InvWith;
      SessionRuns.PollLeavesKeepsInv(View(), r, 0, 0, 0);
      lanes := lanes[r := Signal(lanes[r])];
    }
  }
}
