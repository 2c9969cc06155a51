/** One carrier lane: `carrierLane`, and the same fields of `Session` itself, which serve as the only
    lane of the multiplexed carriers (`internal/session/session.go`). A lane carries a stop-and-wait
    uplink with a sequence number, and a downlink of batches that polls acknowledge with a cursor.

    `Poll` and `PollLane` hold the session lock only for short sections between which they are parked
    on channels. Each section is one function here; the parked polls themselves are in `LaneRuns`. */
module Lanes {
  import opened Options
  import opened Frames
  import opened Charges
  import opened DownQueue

  /** SHA-256 taken as collision-free; `NoDigest` is the zero value before the first batch. */
  datatype Digest = NoDigest | Sha256(body: Bytes)

  /** `superseded` names the poll that owns the lane's downlink (the identity of its `mine` channel);
      `notify` says whether the capacity-1 channel holds its token. */
  datatype Lane = Lane(
    lastUpSequence: nat, lastUpDigest: Digest, upActive: bool, websocketActive: bool,
    queue: Queue, unacked: Bytes, unackedCost: int, unackedItems: int, unackedBase: nat, downCursor: nat,
    downActive: bool, superseded: Option<nat>, notify: bool)

  const NEW_LANE := Lane(0, NoDigest, false, false, EMPTY_QUEUE, [], 0, 0, 0, 0, false, None, false)

  // ------------------------------------------------------------------------- uplink

  const TWO64 := 0x1_0000_0000_0000_0000

  /** What the sequence check of an uplink request decides. */
  datatype UpCheck = Acknowledged | WrongDigest | OutOfSequence | Busy | Ready

  function CheckUp(l: Lane, sequence: nat, body: Bytes): UpCheck {
    if sequence == l.lastUpSequence && sequence != 0 then
      if Sha256(body) == l.lastUpDigest then Acknowledged else WrongDigest
    else if sequence != (l.lastUpSequence + 1) % TWO64 || sequence == 0 then OutOfSequence
    else if l.upActive then Busy
    else Ready
  }

  function Committed(l: Lane, sequence: nat, body: Bytes): Lane {
    l.(lastUpSequence := sequence, lastUpDigest := Sha256(body))
  }

  // ----------------------------------------------------------------------- downlink

  function Signal(l: Lane): Lane { l.(notify := true) }

  function Enqueue(l: Lane, f: Frame, maxFramePayload: int): Lane {
    l.(queue := Push(l.queue, f, maxFramePayload), notify := true)
  }

  /** The lane after `releaseLaneLocked` or `closeLocked` has dropped what it held. */
  function Emptied(l: Lane): Lane {
    l.(queue := EMPTY_QUEUE, unacked := [], unackedCost := 0, unackedItems := 0, notify := true)
  }

  /** What a poll's cursor means to the lane: a retry of the last reply, an error, or an acknowledgement
      that lets the poll take over, releasing what the acknowledged batch was charged. */
  datatype Presented = Replayed(body: Bytes, next: nat) | BadCursor | Accepted(lane: Lane, cost: int, items: int)

  function Present(l: Lane, cursor: nat): Presented {
    if |l.unacked| != 0 then
      if cursor == l.unackedBase then Replayed(l.unacked, l.downCursor)
      else if cursor != l.downCursor then BadCursor
      else Accepted(l.(unacked := [], unackedCost := 0, unackedItems := 0), l.unackedCost, l.unackedItems)
    else if cursor != l.downCursor then BadCursor
    else Accepted(l, 0, 0)
  }

  /** The newest poll wins; the one it displaces has its `mine` channel closed. */
  function TakeOver(l: Lane, me: nat): Lane {
    l.(superseded := Some(me), downActive := true)
  }

  function Displaced(l: Lane): Option<nat> {
    if l.downActive then l.superseded else None
  }

  function Resigned(l: Lane): Lane {
    l.(downActive := false, superseded := None)
  }

  /** What a waiting poll sees beside the lane: the session closed; the lane's stream gone and
      remembered as closed; the lane no longer registered. The multiplexed `Poll` sees only the first. */
  datatype Condition = Condition(closed: bool, ended: bool, detached: bool)

  predicate Over(c: Condition) { c.closed || c.ended || c.detached }

  /** How a section of a poll ends. `Empty` is the empty reply with the poll's own cursor. */
  datatype Outcome = Empty | Delivered(body: Bytes, next: nat) | SessionOver | LaneOver | Cancelled | Parked

  datatype Turn = Turn(lane: Lane, outcome: Outcome)

  /** One pass of the waiting loop, with the lock held. */
  function Loop(l: Lane, me: nat, cursor: nat, batchLimit: int, c: Condition): Turn {
    if l.superseded != Some(me) then Turn(l, Empty)
    else if |l.queue.frames| != 0 then
      var batch := TakeBatch(l.queue, batchLimit);
      Turn(Resigned(l).(queue := AfterBatch(l.queue, batchLimit), downCursor := l.downCursor + 1,
                        unackedBase := cursor, unacked := batch.body,
                        unackedCost := batch.cost, unackedItems := batch.items),
           Delivered(batch.body, l.downCursor + 1))
    else if c.closed then Turn(Resigned(l), SessionOver)
    else if c.ended || c.detached then Turn(Resigned(l), LaneOver)
    else Turn(l, Parked)
  }

  /** `case <-notify`: the token is already taken; a poll that no longer owns the lane passes it on. */
  function AfterToken(l: Lane, me: nat, cursor: nat, batchLimit: int, c: Condition): Turn {
    Loop(if l.superseded != Some(me) then Signal(l) else l, me, cursor, batchLimit, c)
  }

  /** `case <-ctx.Done()`, and `case <-s.done` with the other outcome. */
  function Quit(l: Lane, me: nat): Lane {
    if l.superseded == Some(me) then Resigned(l) else l
  }

  /** `case <-deadline.C`. */
  function Deadline(l: Lane, me: nat, cursor: nat, batchLimit: int, c: Condition): Turn {
    if l.superseded != Some(me) then Turn(Signal(l), Empty)
    else if |l.queue.frames| != 0 then Loop(l, me, cursor, batchLimit, c)
    else Turn(Resigned(l), Empty)
  }

  // ----------------------------------------------------------------------- invariant

  /** The frames of the batch that waits to be acknowledged. */
  function UnackedFrames(l: Lane): seq<Frame> {
    var r := ParseBody(l.unacked, MAX_PAYLOAD);
    if r.Parsed? then r.frames else []
  }

  /** What the lane holds of the pending budget: its queued frames and its unacknowledged batch. */
  function LaneCharge(l: Lane, k: Kind): (c: int)
    ensures c >= 0
  {
    FramesCharge(AsFrames(l.queue.frames), k) + FramesCharge(UnackedFrames(l), k)
  }

  ghost predicate LaneInv(l: Lane) {
    && QueueInv(l.queue)
    && l.unackedCost == FramesCharge(UnackedFrames(l), DownCost) + FramesCharge(UnackedFrames(l), ControlCost)
    && l.unackedItems == FramesCharge(UnackedFrames(l), DownItems) + FramesCharge(UnackedFrames(l), ControlItems)
    && (l.downActive <==> l.superseded.Some?)
    && (l.superseded.Some? ==> l.unacked == [])
  }

  /** What the lane's queue and unacknowledged batch hold, in the program's totals. */
  function Holds(l: Lane): Amount {
    Amount(l.unackedCost + TotalCost(l.queue.frames), l.unackedItems + |l.queue.frames|)
  }

  lemma HoldsIsCharge(l: Lane)
    requires LaneInv(l)
    ensures Holds(l).cost == LaneCharge(l, DownCost) + LaneCharge(l, ControlCost)
    ensures Holds(l).items == LaneCharge(l, DownItems) + LaneCharge(l, ControlItems)
    ensures LaneCharge(l, UpCost) == 0 && LaneCharge(l, UpItems) == 0
  {
    CostIsCharge(l.queue.frames);
    NoUplinkCharge(AsFrames(l.queue.frames));
    NoUplinkCharge(UnackedFrames(l));
  }

  /** A lane that holds nothing. */
  lemma IdleLane(l: Lane)
    requires l.queue.frames == [] && l.queue.windows == map[]
    requires l.unacked == [] && l.unackedCost == 0 && l.unackedItems == 0
    requires l.downActive <==> l.superseded.Some?
    ensures LaneInv(l) && forall k :: LaneCharge(l, k) == 0
  {
    assert UnackedFrames(l) == [] && AsFrames(l.queue.frames) == [];
    forall id
      ensures IndexesWindow(l.queue, id)
    {
    }
  }

  lemma NewLaneInv()
    ensures LaneInv(NEW_LANE) && forall k :: LaneCharge(NEW_LANE, k) == 0
  {
    IdleLane(NEW_LANE);
  }

  lemma EnqueueKeepsLaneInv(l: Lane, f: Frame, maxFramePayload: int, k: Kind)
    requires LaneInv(l) && Pushable(f, maxFramePayload)
    ensures LaneInv(Enqueue(l, f, maxFramePayload))
    ensures LaneCharge(Enqueue(l, f, maxFramePayload), k)
         == LaneCharge(l, k) + AdmissionCharge(Admit(l.queue, f, maxFramePayload), k)
  {
    PushKeepsInv(l.queue, f, maxFramePayload);
    PushCharges(l.queue, f, maxFramePayload, k);
    assert UnackedFrames(Enqueue(l, f, maxFramePayload)) == UnackedFrames(l);
  }

  lemma EmptiedKeepsLaneInv(l: Lane)
    requires LaneInv(l)
    ensures LaneInv(Emptied(l)) && forall k :: LaneCharge(Emptied(l), k) == 0
  {
    IdleLane(Emptied(l));
  }

  /** Acknowledging a batch gives back exactly what it was charged. */
  lemma PresentKeepsLaneInv(l: Lane, cursor: nat, k: Kind)
    requires LaneInv(l) && Present(l, cursor).Accepted?
    ensures var p := Present(l, cursor);
      && LaneInv(p.lane) && p.lane.unacked == []
      && LaneCharge(p.lane, k) == LaneCharge(l, k) - FramesCharge(UnackedFrames(l), k)
      && p.cost == FramesCharge(UnackedFrames(l), DownCost) + FramesCharge(UnackedFrames(l), ControlCost)
      && p.items == FramesCharge(UnackedFrames(l), DownItems) + FramesCharge(UnackedFrames(l), ControlItems)
  {
  }

  lemma LoopMovesBatch(l: Lane, me: nat, cursor: nat, batchLimit: int, c: Condition)
    requires LaneInv(l) && l.superseded == Some(me) && |l.queue.frames| != 0
    ensures var t := Loop(l, me, cursor, batchLimit, c).lane;
      && UnackedFrames(t) == AsFrames(Taken(l.queue, batchLimit)) && UnackedFrames(l) == []
      && QueueInv(t.queue)
      && t.unackedCost == FramesCharge(UnackedFrames(t), DownCost) + FramesCharge(UnackedFrames(t), ControlCost)
      && t.unackedItems == FramesCharge(UnackedFrames(t), DownItems) + FramesCharge(UnackedFrames(t), ControlItems)
      && AsFrames(l.queue.frames) == UnackedFrames(t) + AsFrames(t.queue.frames)
  {
    BatchIsPrefix(l.queue, batchLimit);
    NoUplinkCharge(AsFrames(Taken(l.queue, batchLimit)));
    AsFramesConcat(Taken(l.queue, batchLimit), AfterBatch(l.queue, batchLimit).frames);
  }

  /** Moving frames from the queue into the replayable batch keeps their charges. */
  lemma LoopKeepsLaneInv(l: Lane, me: nat, cursor: nat, batchLimit: int, c: Condition, k: Kind)
    requires LaneInv(l)
    ensures var t := Loop(l, me, cursor, batchLimit, c);
      LaneInv(t.lane) && LaneCharge(t.lane, k) == LaneCharge(l, k)
  {
    if l.superseded == Some(me) && |l.queue.frames| != 0 {
      LoopMovesBatch(l, me, cursor, batchLimit, c);
      var t := Loop(l, me, cursor, batchLimit, c).lane;
      ChargeConcat(UnackedFrames(t), AsFrames(t.queue.frames), k);
    } else {
      assert UnackedFrames(Loop(l, me, cursor, batchLimit, c).lane) == UnackedFrames(l);
    }
  }
}
