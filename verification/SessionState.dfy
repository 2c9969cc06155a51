/** The relay session as a state machine: `Session` in `internal/session/session.go`. Each function is
    what one critical section of the program (or a helper called inside one) does to the state; the
    imperative form, proved equal to these, is the class in `RelaySession`.

    Go panics are part of the model: a nil stream dereferenced, or the budget guard in
    `releasePendingLocked` failing, sets `panic`. The manager's answers to budget and ticket
    requests, which another session may influence at any time, are inputs; what a section asks of the
    manager, in which order and with which answer, is recorded in `calls`. */
module SessionState {
  import opened Options
  import opened Frames
  import opened Charges
  import opened Budget
  import opened DownQueue
  import opened Lanes
  import opened Tombstones

  datatype Carrier = Https | HttpsLanes | WebSocket | WebSocketLanes

  /** A nil stream dereferenced, or the budget guard of `releasePendingLocked`. */
  datatype Panic = NilStream | BadRelease

  /** The identity of a lane object; `MAIN` is the session's own fields. */
  type LaneRef = nat
  const MAIN: LaneRef := 0

  /** `streamState`; `backend` is the identity of its backend connection. */
  datatype Stream = Stream(
    backend: nat, receiveWindow: nat, sendCredit: nat,
    pendingWriteBytes: int, pendingWriteCost: int, pendingWriteItems: int, writes: seq<Bytes>)

  /** A call to the manager: of `changePendingBudget`, or of `acquireStream` for the backend to be. */
  datatype ManagerCall =
    | BudgetCall(cost: int, items: int, pool: PendingClass, allowed: bool)
    | TicketCall(backend: nat, granted: bool)

  /** `lanes` holds every lane object ever created; `carrierLanes` the registered ones by lane id;
      `calls` the calls made to the manager so far. */
  datatype State = State(
    carrier: Carrier, limits: Limits,
    streams: map<nat, Stream>, tombstones: Ring,
    lanes: map<LaneRef, Lane>, carrierLanes: map<nat, LaneRef>,
    pendingCost: int, pendingItems: int, closed: bool,
    nextLane: LaneRef, nextBackend: nat, panic: Option<Panic>, calls: seq<ManagerCall>)

  predicate UsesLanes(s: State) { s.carrier == HttpsLanes || s.carrier == WebSocketLanes }

  /** `newSession`. */
  function NewSession(carrier: Carrier, limits: Limits): State {
    var s := State(carrier, limits, map[], NO_TOMBSTONES, map[MAIN := NEW_LANE], map[], 0, 0, false, 1, 0, None, []);
    if carrier == HttpsLanes then AddLane(s, 0) else s
  }

  /** A new lane object registered under a lane id. */
  function AddLane(s: State, laneID: nat): State {
    s.(lanes := s.lanes[s.nextLane := NEW_LANE], carrierLanes := s.carrierLanes[laneID := s.nextLane],
        nextLane := s.nextLane + 1)
  }

  function WithLane(s: State, r: LaneRef, l: Lane): State { s.(lanes := s.lanes[r := l]) }

  function WithStream(s: State, id: nat, st: Stream): State { s.(streams := s.streams[id := st]) }

  function LaneAt(s: State, r: LaneRef): Lane {
    if r in s.lanes then s.lanes[r] else NEW_LANE
  }

  /** The lane a downlink frame of stream `id` goes to. */
  function Route(s: State, id: nat): Option<LaneRef> {
    if UsesLanes(s) then (if id in s.carrierLanes then Some(s.carrierLanes[id]) else None)
    else Some(MAIN)
  }

  // ------------------------------------------------------------------ pending budget

  function Asking(s: State, call: ManagerCall): State { s.(calls := s.calls + [call]) }

  /** `reservePendingLocked`; `granted` is the manager's answer, if it is asked. */
  function Reserve(s: State, cost: int, items: int, pool: PendingClass, granted: bool): (State, bool) {
    if !SessionAdmits(s.limits, Amount(s.pendingCost, s.pendingItems), cost, items, pool) then (s, false)
    else
      var asked := Asking(s, BudgetCall(cost, items, pool, granted));
      if !granted then (asked, false)
      else (asked.(pendingCost := s.pendingCost + cost, pendingItems := s.pendingItems + items), true)
  }

  /** `releasePendingLocked`. */
  function Release(s: State, cost: int, items: int): State {
    if cost == 0 && items == 0 then s
    else if cost < 0 || items < 0 || cost > s.pendingCost || items > s.pendingItems then s.(panic := Some(BadRelease))
    else
      Asking(s, BudgetCall(-cost, -items, PendingUplink, true))
        .(pendingCost := s.pendingCost - cost, pendingItems := s.pendingItems - items)
  }

  // --------------------------------------------------------------- queues and tombstones

  /** `queueFrameLocked` and `queueLaneFrameLocked`. */
  function QueueFrame(s: State, f: Frame, granted: bool): (State, bool) {
    match Route(s, f.streamID)
    case None => (s, false)
    case Some(r) =>
      var l := LaneAt(s, r);
      match Admit(l.queue, f, s.limits.maxFramePayload)
      case Absorbed => (WithLane(s, r, Enqueue(l, f, s.limits.maxFramePayload)), true)
      case Needs(cost, items, pool) =>
        var (reserved, ok) := Reserve(s, cost, items, pool, granted);
        if !ok then (reserved, false) else (WithLane(reserved, r, Enqueue(l, f, s.limits.maxFramePayload)), true)
  }

  /** `releaseLaneLocked`. */
  function ReleaseLane(s: State, r: LaneRef): State {
    var held := Holds(LaneAt(s, r));
    var released := Release(s, held.cost, held.items);
    WithLane(released, r, Emptied(LaneAt(s, r)))
  }

  /** A registered lane is released and taken out of the register. */
  function DropLane(s: State, laneID: nat): State {
    if laneID !in s.carrierLanes then s
    else
      var released := ReleaseLane(s, s.carrierLanes[laneID]);
      released.(carrierLanes := released.carrierLanes - {laneID})
  }

  function SignalLane(s: State, laneID: nat): State {
    if laneID !in s.carrierLanes then s
    else WithLane(s, s.carrierLanes[laneID], Signal(LaneAt(s, s.carrierLanes[laneID])))
  }

  /** `rememberClosedLocked`: the oldest tombstone may be evicted, and with it its lane. */
  function RememberClosed(s: State, id: nat): State {
    if id in s.tombstones.closed then s
    else
      var evicted := Evicted(s.tombstones, id, s.limits.maxClosedStreamIDs);
      var remembered := s.(tombstones := Remember(s.tombstones, id, s.limits.maxClosedStreamIDs));
      SignalLane(if evicted.Some? then DropLane(remembered, evicted.value) else remembered, id)
  }

  /** `releaseStreamWritesLocked` and the removal of the stream. */
  function DropStream(s: State, id: nat): State {
    if id !in s.streams then s.(panic := Some(NilStream))
    else
      var st := s.streams[id];
      var released := Release(s, st.pendingWriteCost, st.pendingWriteItems);
      released.(streams := released.streams - {id})
  }

  /** All that is pending is given back at once. */
  function SettleAll(s: State): State {
    if s.pendingCost == 0 && s.pendingItems == 0 then s
    else
      Asking(s, BudgetCall(-s.pendingCost, -s.pendingItems, PendingUplink, true)).(pendingCost := 0, pendingItems := 0)
  }

  /** `closeLocked`. */
  function CloseSession(s: State): State {
    if s.closed then s
    else
      SettleAll(s).(closed := true, streams := map[],
         lanes := map r | r in s.lanes :: if r == MAIN || r in s.carrierLanes.Values then Emptied(s.lanes[r])
           else s.lanes[r])
  }

  // ------------------------------------------------------------------ batch validation

  /** `streamSnapshot`. */
  datatype Snapshot = Snapshot(receiveWindow: nat, sendCredit: nat)

  function Snapshots(streams: map<nat, Stream>): map<nat, Snapshot> {
    map id | id in streams :: Snapshot(streams[id].receiveWindow, streams[id].sendCredit)
  }

  /** `sendCredit` after a WINDOW, saturating at the largest uint32. */
  function Credited(credit: nat, payload: Bytes): nat {
    var sum := credit + WindowAmount(payload);
    if sum > MAX_UINT32 then MAX_UINT32 else sum
  }

  /** uint32 subtraction. */
  function Sub32(a: nat, b: nat): nat {
    (a - b) % TWO32
  }

  /** The simulation `validateBatchLocked` runs a batch on: snapshots of the streams that would be live,
      and the ids the batch would have closed. */
  datatype Sim = Sim(live: map<nat, Snapshot>, closed: set<nat>)

  predicate WasClosed(sim: Sim, tombstones: set<nat>, id: nat) { id in tombstones || id in sim.closed }

  predicate Accepts(sim: Sim, tombstones: set<nat>, f: Frame) {
    var id := f.streamID;
    if id == 0 then f.typeCode == PONG
    else if f.typeCode == OPEN then !(id in sim.live || WasClosed(sim, tombstones, id))
    else if f.typeCode == DATA then
      WasClosed(sim, tombstones, id) || (id in sim.live && |f.payload| % TWO32 <= sim.live[id].receiveWindow)
    else if f.typeCode == WINDOW || f.typeCode == CLOSE then WasClosed(sim, tombstones, id) || id in sim.live
    else false
  }

  function Simulate(sim: Sim, tombstones: set<nat>, f: Frame): Sim {
    var id := f.streamID;
    if id == 0 then sim
    else if f.typeCode == OPEN then sim.(live := sim.live[id := Snapshot(INITIAL_STREAM_WINDOW, INITIAL_STREAM_WINDOW)])
    else if WasClosed(sim, tombstones, id) || id !in sim.live then sim
    else
      var shot := sim.live[id];
      if f.typeCode == DATA then
        sim.(live := sim.live[id := shot.(receiveWindow := Sub32(shot.receiveWindow, |f.payload| % TWO32))])
      else if f.typeCode == WINDOW then
        sim.(live := sim.live[id := shot.(sendCredit := Credited(shot.sendCredit, f.payload))])
      else if f.typeCode == CLOSE then Sim(sim.live - {id}, sim.closed + {id})
      else sim
  }

  /** `validateBatchLocked`. */
  predicate Validate(sim: Sim, tombstones: set<nat>, frames: seq<Frame>)
    decreases |frames|
  {
    frames == []
    || (Accepts(sim, tombstones, frames[0]) && Validate(Simulate(sim, tombstones, frames[0]), tombstones, frames[1..]))
  }

  predicate ValidateBatch(s: State, frames: seq<Frame>) {
    Validate(Sim(Snapshots(s.streams), {}), s.tombstones.closed, frames)
  }

  /** `backendWriteReservationLocked`, from the ids live so far. */
  function Reservation(live: set<nat>, frames: seq<Frame>): (a: Amount)
    ensures a.cost >= 0 && a.items >= 0
    decreases |frames|
  {
    if frames == [] then Amount(0, 0)
    else
      var f, rest := frames[0], frames[1..];
      if f.streamID == 0 then Reservation(live, rest)
      else if f.typeCode == OPEN then Reservation(live + {f.streamID}, rest)
      else if f.typeCode == DATA && f.streamID in live then
        var a := Reservation(live, rest);
        Amount(|f.payload| + QUEUE_ITEM_COST + a.cost, 1 + a.items)
      else if f.typeCode == CLOSE then Reservation(live - {f.streamID}, rest)
      else Reservation(live, rest)
  }

  // ----------------------------------------------------------------- batch application

  function Flattened(writes: seq<Bytes>): Bytes {
    if writes == [] then [] else writes[0] + Flattened(writes[1..])
  }

  /** The payload joins the last queued write. */
  predicate CoalescesWrite(st: Stream, payload: Bytes) {
    st.writes != [] && |st.writes[|st.writes| - 1]| + |payload| <= DATA_CHUNK
  }

  function WriteAmount(st: Stream, payload: Bytes): Amount {
    if CoalescesWrite(st, payload) then Amount(|payload|, 0) else Amount(|payload| + QUEUE_ITEM_COST, 1)
  }

  /** `appendBackendWriteLocked`. */
  function AppendWrite(st: Stream, payload: Bytes): Stream {
    var amount := WriteAmount(st, payload);
    var n := |st.writes|;
    st.(writes := (if CoalescesWrite(st, payload) then st.writes[n - 1 := st.writes[n - 1] + payload]
                   else st.writes + [payload]),
        pendingWriteBytes := st.pendingWriteBytes + |payload|,
        pendingWriteCost := st.pendingWriteCost + amount.cost,
        pendingWriteItems := st.pendingWriteItems + amount.items)
  }

  function Fed(st: Stream, payload: Bytes): Stream {
    var appended := AppendWrite(st, payload);
    appended.(receiveWindow := Sub32(appended.receiveWindow, |payload| % TWO32))
  }

  function NewStream(backend: nat): Stream {
    Stream(backend, INITIAL_STREAM_WINDOW, INITIAL_STREAM_WINDOW, 0, 0, 0, [])
  }

  /** The manager's answers to one frame of a batch: is a stream ticket available for an OPEN, and is
      the budget granted for the CLOSE that refuses it. */
  datatype Answer = Answer(ticket: bool, granted: bool)

  /** `applyBatchLocked` in progress: the state, what is left of the reservation, the backends begun
      and ended so far, and whether every frame could be applied. */
  datatype Applying = Applying(state: State, cost: int, items: int, begun: seq<nat>, ended: seq<nat>, ok: bool)

  predicate Admitted(s: State, a: Answer) { |s.streams| < s.limits.maxStreamsPerSession && a.ticket }

  /** A ticket is asked for only if the session has room for the stream. */
  function AskTicket(s: State, a: Answer): State {
    if |s.streams| < s.limits.maxStreamsPerSession then Asking(s, TicketCall(s.nextBackend, a.ticket)) else s
  }

  function ApplyOpen(x: Applying, id: nat, a: Answer): Applying {
    var s := AskTicket(x.state, a);
    if !Admitted(x.state, a) then
      var (queued, ok) := QueueFrame(RememberClosed(s, id), Frame(CLOSE, id, []), a.granted);
      x.(state := queued, ok := ok)
    else
      x.(state := WithStream(s, id, NewStream(s.nextBackend)).(nextBackend := s.nextBackend + 1),
         begun := x.begun + [s.nextBackend])
  }

  function ApplyData(x: Applying, id: nat, payload: Bytes): Applying {
    var s := x.state;
    if id in s.tombstones.closed then x
    else if id !in s.streams then x.(state := s.(panic := Some(NilStream)))
    else
      var amount := WriteAmount(s.streams[id], payload);
      x.(state := WithStream(s, id, Fed(s.streams[id], payload)), cost := x.cost - amount.cost,
          items := x.items - amount.items)
  }

  function ApplyWindow(x: Applying, id: nat, payload: Bytes): Applying {
    var s := x.state;
    if id in s.tombstones.closed then x
    else if id !in s.streams then x.(state := s.(panic := Some(NilStream)))
    else
      var st := s.streams[id];
      x.(state := WithStream(s, id, st.(sendCredit := Credited(st.sendCredit, payload))))
  }

  function ApplyClose(x: Applying, id: nat): Applying {
    var s := x.state;
    if id in s.tombstones.closed then x
    else if id !in s.streams then x.(state := s.(panic := Some(NilStream)))
    else x.(state := RememberClosed(DropStream(s, id), id), ended := x.ended + [s.streams[id].backend])
  }

  /** One frame of `applyBatchLocked`. */
  function ApplyFrame(x: Applying, f: Frame, a: Answer): Applying {
    if f.streamID == 0 then x
    else if f.typeCode == OPEN then ApplyOpen(x, f.streamID, a)
    else if f.typeCode == DATA then ApplyData(x, f.streamID, f.payload)
    else if f.typeCode == WINDOW then ApplyWindow(x, f.streamID, f.payload)
    else if f.typeCode == CLOSE then ApplyClose(x, f.streamID)
    else x
  }

  function First(answers: seq<Answer>): Answer {
    if answers == [] then Answer(false, false) else answers[0]
  }

  function Others(answers: seq<Answer>): seq<Answer> {
    if answers == [] then [] else answers[1..]
  }

  /** `applyBatchLocked`: it stops at a frame it cannot apply, and so does a panic. */
  function ApplyAll(x: Applying, frames: seq<Frame>, answers: seq<Answer>): Applying
    decreases |frames|
  {
    if frames == [] || !x.ok || x.state.panic.Some? then x
    else ApplyAll(ApplyFrame(x, frames[0], First(answers)), frames[1..], Others(answers))
  }

  // --------------------------------------------------------------------------- uplink

  /** How a section of an uplink request ends. After `Failed` the program calls the (lane) protocol
      failure, after `NotApplied` it closes the session, each in a critical section of its own. */
  datatype UpOutcome = Refused | Gone | Failed | Acked | Concurrent | Backpressure | Begun | Applied | NotApplied

  /** The parsed body, if it parses and every frame has a client's shape (and, in lane modes, the
      lane's id). */
  function ClientFrames(s: State, body: Bytes, lane: Option<nat>): Option<seq<Frame>> {
    var r := ParseBody(body, s.limits.maxFramePayload);
    if r.Parsed? && forall i :: 0 <= i < |r.frames| ==>
         ClientShape(r.frames[i]) && (lane.Some? ==> r.frames[i].streamID == lane.value)
    then Some(r.frames) else None
  }

  /** The manager's answers to a batch: to its reservation, and to its frames. */
  datatype Answers = Answers(reserved: bool, frames: seq<Answer>)

  /** Validate, reserve, apply, commit: what both uplink requests do with a parsed batch. */
  function CommitBatch(s: State, r: LaneRef, sequence: nat, body: Bytes, frames: seq<Frame>, a: Answers): (State,
      UpOutcome) {
    if !ValidateBatch(s, frames) then (s, Failed)
    else
      var need := Reservation(s.streams.Keys, frames);
      var asked := need.cost != 0 || need.items != 0;
      var (reserved, ok) := Reserve(s, need.cost, need.items, PendingUplink, a.reserved);
      if asked && !ok then (reserved, Backpressure)
      else
        var x :=
          ApplyAll(Applying(if asked then reserved else s, need.cost, need.items, [], [], true), frames, a.frames);
        if x.state.panic.Some? then (x.state, NotApplied)
        else
          var settled := Release(x.state, x.cost, x.items);
          if !x.ok then (settled, NotApplied)
          else (WithLane(settled, r, Committed(LaneAt(settled, r), sequence, body)), Applied)
  }

  function SetUpActive(s: State, r: LaneRef, active: bool): State {
    WithLane(s, r, LaneAt(s, r).(upActive := active))
  }

  /** `ProcessUp`, first section. */
  function UpBegin(s: State, sequence: nat, body: Bytes): (State, UpOutcome) {
    if UsesLanes(s) then (s, Refused)
    else if s.closed then (s, Gone)
    else
      match CheckUp(LaneAt(s, MAIN), sequence, body)
      case Acknowledged => (s, Acked)
      case WrongDigest => (s, Failed)
      case OutOfSequence => (s, Failed)
      case Busy => (s, Concurrent)
      case Ready => (SetUpActive(s, MAIN, true), Begun)
  }

  /** `ProcessUp`, second section, after the body has been parsed without the lock. */
  function UpFinish(s: State, sequence: nat, body: Bytes, a: Answers): (State, UpOutcome) {
    var idle := SetUpActive(s, MAIN, false);
    if s.closed then (idle, Gone)
    else
      match ClientFrames(s, body, None)
      case None => (idle, Failed)
      case Some(frames) => CommitBatch(idle, MAIN, sequence, body, frames, a)
  }

  predicate OnlyLateFrames(frames: seq<Frame>) {
    frames != [] && forall i :: 0 <= i < |frames| ==>
      frames[i].typeCode == DATA || frames[i].typeCode == WINDOW || frames[i].typeCode == CLOSE
  }

  /** `ProcessUpLane`: its body is parsed first, and the rest is one section. */
  function UpLane(s: State, laneID: nat, sequence: nat, body: Bytes, a: Answers): (State, UpOutcome) {
    if !UsesLanes(s) || laneID > MAX_STREAM_ID then (s, Refused)
    else
      match ClientFrames(s, body, Some(laneID))
      case None => (s, Failed)
      case Some(frames) =>
        if s.closed then (s, Gone)
        else if laneID in s.carrierLanes then UpOnLane(s, s.carrierLanes[laneID], sequence, body, frames, a)
        else if laneID != 0 && frames != [] && frames[0].typeCode != OPEN && OnlyLateFrames(frames) then (s, Acked)
        else if laneID == 0 || frames == [] || frames[0].typeCode != OPEN then (s, Failed)
        else UpOnLane(AddLane(s, laneID), s.nextLane, sequence, body, frames, a)
  }

  function UpOnLane(s: State, r: LaneRef, sequence: nat, body: Bytes, frames: seq<Frame>, a: Answers): (State,
      UpOutcome) {
    match CheckUp(LaneAt(s, r), sequence, body)
    case Acknowledged => (s, Acked)
    case WrongDigest => (s, Failed)
    case OutOfSequence => (s, Failed)
    case Busy => (s, Concurrent)
    case Ready =>
      var (after, outcome) := CommitBatch(SetUpActive(s, r, true), r, sequence, body, frames, a);
      (SetUpActive(after, r, false), outcome)
  }

  /** `ReleaseWebSocketLane`. */
  function ReleaseWebSocketLane(s: State, laneID: nat): State {
    if s.carrier != WebSocketLanes || laneID !in s.carrierLanes then s
    else
      var r := s.carrierLanes[laneID];
      var inactive := WithLane(s, r, LaneAt(s, r).(websocketActive := false));
      DropLane(if laneID in s.streams then RememberClosed(DropStream(inactive, laneID), laneID) else inactive, laneID)
  }

  /** `protocolFailure` and `laneProtocolFailure`. */
  function LaneFailure(s: State, laneID: nat): State {
    if s.carrier == WebSocketLanes then ReleaseWebSocketLane(s, laneID) else CloseSession(s)
  }

  /** `AcquireWebSocket`. */
  function AcquireWebSocket(s: State): (State, bool) {
    var main := LaneAt(s, MAIN);
    if s.closed || s.carrier != WebSocket || main.websocketActive then (s, false)
    else (WithLane(s, MAIN, main.(websocketActive := true)), true)
  }

  /** `AcquireWebSocketLane`. */
  function AcquireWebSocketLane(s: State, laneID: nat): (State, bool) {
    if s.closed || s.carrier != WebSocketLanes || laneID == 0 || laneID > MAX_STREAM_ID then (s, false)
    else if laneID in s.tombstones.closed then (s, false)
    else if laneID !in s.carrierLanes && |s.carrierLanes| >= s.limits.maxStreamsPerSession then (s, false)
    else
      var t := if laneID in s.carrierLanes then s else AddLane(s, laneID);
      var r := t.carrierLanes[laneID];
      if LaneAt(t, r).websocketActive then (t, false)
      else (WithLane(t, r, LaneAt(t, r).(websocketActive := true)), true)
  }

  // ------------------------------------------------------------------------- backends

  /** `nextWrite`, when it finds one. */
  function NextWrite(s: State, id: nat): (State, Option<Bytes>) {
    if s.closed || id !in s.streams || s.streams[id].writes == [] then (s, None)
    else
      var st := s.streams[id];
      (WithStream(s, id, st.(writes := st.writes[1..])), Some(st.writes[0]))
  }

  /** `backendDrained`: `amount` bytes reached the backend. */
  function Drained(s: State, id: nat, amount: int, granted: bool): (State, bool) {
    if s.closed || id !in s.streams then (s, false)
    else
      var st := s.streams[id];
      if amount <= 0 || amount > st.pendingWriteBytes || amount > st.pendingWriteCost
         || st.receiveWindow + amount > INITIAL_STREAM_WINDOW then (s, false)
      else
        var drained :=
          st.(pendingWriteBytes := st.pendingWriteBytes - amount, pendingWriteCost := st.pendingWriteCost - amount,
                           receiveWindow := st.receiveWindow + amount);
        QueueFrame(Release(WithStream(s, id, drained), amount, 0), Frame(WINDOW, id, WindowPayload(amount)), granted)
  }

  /** `backendWriteFinished`. */
  function WriteFinished(s: State, id: nat): (State, bool) {
    if s.closed || id !in s.streams then (s, false)
    else
      var st := s.streams[id];
      if st.pendingWriteItems == 0 || st.pendingWriteCost < QUEUE_ITEM_COST then (s, false)
      else
        var finished :=
          st.(pendingWriteItems := st.pendingWriteItems - 1, pendingWriteCost := st.pendingWriteCost - QUEUE_ITEM_COST);
        (Release(WithStream(s, id, finished), QUEUE_ITEM_COST, 1), true)
  }

  /** `nextReadAllowance`, when it grants one; 0 means the reader has to wait. */
  function ReadAllowance(s: State, id: nat): nat {
    if s.closed || id !in s.streams || s.streams[id].sendCredit == 0 then 0
    else
      var wanted := if s.streams[id].sendCredit > DATA_CHUNK then DATA_CHUNK else s.streams[id].sendCredit;
      var limit := ClassLimit(s.limits, PendingDownlink);
      var available := limit.cost - s.pendingCost - QUEUE_ITEM_COST - HEADER_SIZE;
      if s.pendingItems >= limit.items || available <= 0 then 0
      else if wanted > available then available else wanted
  }

  /** `backendData`. */
  function BackendData(s: State, id: nat, data: Bytes, granted: bool): (State, bool) {
    if s.closed || id !in s.streams || |data| == 0 || |data| > s.streams[id].sendCredit then (s, false)
    else
      var st := s.streams[id];
      QueueFrame(WithStream(s, id, st.(sendCredit := st.sendCredit - |data|)), Frame(DATA, id, data), granted)
  }

  /** `backendClosed`. */
  function BackendClosed(s: State, id: nat, backend: nat, granted: bool): State {
    if s.closed || id !in s.streams || s.streams[id].backend != backend then s
    else
      var (queued, ok) := QueueFrame(RememberClosed(DropStream(s, id), id), Frame(CLOSE, id, []), granted);
      if ok then queued else CloseSession(queued)
  }

  // ---------------------------------------------------------------------------- polls

  /** What a poll waiting on lane object `r`, polled as `laneID`, sees of the session. */
  function ConditionOf(s: State, r: LaneRef, laneID: nat): Condition {
    if r == MAIN then Condition(s.closed, false, false)
    else Condition(s.closed,
                   laneID != 0 && laneID !in s.streams && laneID in s.tombstones.closed,
                   laneID !in s.carrierLanes || s.carrierLanes[laneID] != r)
  }

  /** How the first section of a poll ends: at once, or in the waiting loop. */
  datatype Entry = PollRefused | PollGone | PollReplays(body: Bytes, next: nat) | PollFails | PollEnters(lane: LaneRef,
      outcome: Outcome)

  function PollLaneOf(s: State, laneID: nat): Option<LaneRef> {
    if !UsesLanes(s) then Some(MAIN)
    else if laneID in s.carrierLanes then Some(s.carrierLanes[laneID])
    else None
  }

  /** `Poll` and `PollLane` up to the first time they wait. */
  function PollEnter(s: State, laneID: nat, me: nat, cursor: nat): (State, Entry) {
    if UsesLanes(s) && laneID > MAX_STREAM_ID then (s, PollRefused)
    else if s.closed then (s, PollGone)
    else
      match PollLaneOf(s, laneID)
      case None => (s, PollRefused)
      case Some(r) =>
        match Present(LaneAt(s, r), cursor)
        case Replayed(body, next) => (s, PollReplays(body, next))
        case BadCursor => (s, PollFails)
        case Accepted(l, cost, items) =>
          var released := Release(s, cost, items);
          var t := Loop(TakeOver(l, me), me, cursor, s.limits.carrierBatchBytes, ConditionOf(released, r, laneID));
          (WithLane(released, r, t.lane), PollEnters(r, t.outcome))
  }

  /** A poll runs again with the token it took. */
  function PollWoken(s: State, r: LaneRef, laneID: nat, me: nat, cursor: nat): (State, Outcome) {
    var t := AfterToken(LaneAt(s, r), me, cursor, s.limits.carrierBatchBytes, ConditionOf(s, r, laneID));
    (WithLane(s, r, t.lane), t.outcome)
  }

  function PollDeadline(s: State, r: LaneRef, laneID: nat, me: nat, cursor: nat): (State, Outcome) {
    var t := Deadline(LaneAt(s, r), me, cursor, s.limits.carrierBatchBytes, ConditionOf(s, r, laneID));
    (WithLane(s, r, t.lane), t.outcome)
  }

  /** A cancelled poll leaves, and so does one that sees the session done. */
  function PollQuits(s: State, r: LaneRef, me: nat): State {
    WithLane(s, r, Quit(LaneAt(s, r), me))
  }

  function PollDisplaced(s: State, r: LaneRef): State {
    WithLane(s, r, Signal(LaneAt(s, r)))
  }

  function PollTakesToken(s: State, r: LaneRef): State {
    WithLane(s, r, LaneAt(s, r).(notify := false))
  }
}
