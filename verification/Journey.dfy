/** From the page to a stream's backend: the bridge's queue (`internal/bridge/page.go`), the uplink, the
    batches applied and the backend's writer (`internal/session/session.go`) in one run. While the
    stream is live, the bytes that have reached its backend are the first DATA bytes the page has queued
    for it since its OPEN, and all others are in one known place. */
module Journey {
  import opened Options
  import opened Frames
  import opened Budget
  import opened Bridges
  import opened Lanes
  import opened Tombstones
  import opened SessionState
  import opened SessionInv
  import opened SessionSteps
  import opened Application
  import opened Validation
  import opened LaneLink
  import opened LaneRegister
  import opened Uplink
  import opened Delivery
  import opened Flow
  import SessionRuns

  // ------------------------------------------------------------------- bytes of a stream

  /** The DATA bytes since the last OPEN of the id, when more frames come. */
  function SinceFrom(base: Bytes, frames: seq<Frame>, id: nat): Bytes
    decreases |frames|
  {
    if frames == [] then base else SinceFrom(SinceFrame(base, frames[0], id), frames[1..], id)
  }

  /** All DATA bytes for the id. */
  function Payloads(frames: seq<Frame>, id: nat): Bytes {
    if frames == [] then []
    else
      var here := if frames[0].typeCode == DATA && frames[0].streamID == id then frames[0].payload else [];
      here + Payloads(frames[1..], id)
  }

  predicate Opens(frames: seq<Frame>, id: nat) {
    exists i :: 0 <= i < |frames| && frames[i].typeCode == OPEN && frames[i].streamID == id
  }

  lemma {:induction false} SinceConcat(base: Bytes, a: seq<Frame>, b: seq<Frame>, id: nat)
    ensures SinceFrom(base, a + b, id) == SinceFrom(SinceFrom(base, a, id), b, id)
    decreases |a|
  {
    if a == [] {
      assert a + b == b;
    } else {
      assert (a + b)[0] == a[0] && (a + b)[1..] == a[1..] + b;
      SinceConcat(SinceFrame(base, a[0], id), a[1..], b, id);
    }
  }

  lemma {:induction false} SinceWithoutOpen(base: Bytes, frames: seq<Frame>, id: nat)
    requires !Opens(frames, id)
    ensures SinceFrom(base, frames, id) == base + Payloads(frames, id)
    decreases |frames|
  {
    if frames != [] {
      var f, rest := frames[0], frames[1..];
      assert !(f.typeCode == OPEN && f.streamID == id);
      SinceWithoutOpen(SinceFrame(base, f, id), rest, id);
      var head := if f.typeCode == DATA && f.streamID == id then f.payload else [];
      assert SinceFrame(base, f, id) == base + head;
      assert (base + head) + Payloads(rest, id) == base + (head + Payloads(rest, id));
    }
  }

  // ------------------------------------------------------------------- batches and bodies

  /** A batch applied as a whole is in the stream's history frame by frame. */
  lemma {:induction false} AppliedCarries(log: StreamLog, x: Applying, frames: seq<Frame>, answers: seq<Answer>,
      id: nat, backend: nat)
    requires var y := ApplyAll(x, frames, answers); y.ok && y.state.panic.None?
    ensures LoggedAll(log, x, frames, answers, id, backend).carried == SinceFrom(log.carried, frames, id)
    decreases |frames|
  {
    hide ApplyFrame;
    if frames != [] && x.ok && x.state.panic.None? {
      AppliedCarries(Logged(log, x.state, frames[0], id, backend), ApplyFrame(x, frames[0], First(answers)),
          frames[1..], Others(answers), id, backend);
    }
  }

  lemma {:induction false} OthersNotLogged(log: StreamLog, x: Applying, frames: seq<Frame>, answers: seq<Answer>,
      id: nat, backend: nat)
    requires forall i :: 0 <= i < |frames| ==> frames[i].streamID != id
    ensures LoggedAll(log, x, frames, answers, id, backend) == log
    decreases |frames|
  {
    hide ApplyFrame;
    if frames != [] && x.ok && x.state.panic.None? {
      assert log.(carried := log.carried) == log;
      OthersNotLogged(log, ApplyFrame(x, frames[0], First(answers)), frames[1..], Others(answers), id, backend);
    }
  }

  /** What a body's request does to the bytes of the stream, by its outcome. */
  predicate Carries(log: StreamLog, after: StreamLog, o: UpOutcome, frames: seq<Frame>, id: nat) {
    && (o == Applied ==> after.carried == SinceFrom(log.carried, frames, id))
    && (o != Applied && o != NotApplied ==> after.carried == log.carried)
  }

  lemma CommitCarries(s: State, r: LaneRef, sequence: nat, body: Bytes, frames: seq<Frame>, a: Answers,
      log: StreamLog, id: nat, backend: nat)
    ensures Carries(log, CommitLog(log, s, frames, a, id, backend), CommitBatch(s, r, sequence, body, frames, a).1,
                    frames, id)
  {
    hide ValidateBatch, ApplyAll, LoggedAll, Release, Committed, CommitBatch, SessionRuns.ReservationGranted,
      SessionRuns.Unreserved, SessionRuns.Reserved, SinceFrom;
    SessionRuns.CommitCases(s, r, sequence, body, frames, a);
    if ValidateBatch(s, frames) && SessionRuns.ReservationGranted(s, frames, a) {
      var y := SessionRuns.AppliedTo(s, frames, a);
      if y.ok && y.state.panic.None? {
        AppliedCarries(log, Begin(SessionRuns.Reserved(s, frames), frames), frames, a.frames, id, backend);
      }
    }
  }

  lemma FinishCarries(s: State, sequence: nat, body: Bytes, a: Answers, log: StreamLog, id: nat, backend: nat)
    requires !UsesLanes(s)
    ensures Carries(log, OpLog(log, s, SessionRuns.OpUpFinish(sequence, body, a), id, backend),
                    UpFinish(s, sequence, body, a).1, BodyFrames(body), id)
  {
    hide ClientFrames, CommitBatch, CommitLog, BodyFrames, SinceFrom;
    if !s.closed && ClientFrames(s, body, None).Some? {
      RelayReadsTheSame(s, body, None);
      CommitCarries(SetUpActive(s, MAIN, false), MAIN, sequence, body, BodyFrames(body), a, log, id, backend);
    }
  }

  lemma LaneBodyCarries(s: State, laneID: nat, sequence: nat, body: Bytes, a: Answers, log: StreamLog, id: nat,
      backend: nat)
    requires UsesLanes(s)
    ensures Carries(log, OpLog(log, s, SessionRuns.OpUpLane(laneID, sequence, body, a), id, backend),
                    UpLane(s, laneID, sequence, body, a).1, BodyFrames(body), id)
  {
    hide ClientFrames, CommitBatch, CommitLog, BodyFrames, OnlyLateFrames, CheckUp, SinceFrom, AddLane, SetUpActive;
    if laneID <= MAX_STREAM_ID && !s.closed && ClientFrames(s, body, Some(laneID)).Some? {
      RelayReadsTheSame(s, body, Some(laneID));
      if laneID !in s.carrierLanes && BodyFrames(body) != [] && BodyFrames(body)[0].typeCode == OPEN {
        SessionRuns.OpensIsNotLate(BodyFrames(body));
      }
      var before, r := Registering(s, laneID), ServedBy(s, laneID);
      CommitCarries(SetUpActive(before, r, true), r, sequence, body, BodyFrames(body), a, log, id, backend);
    }
  }

  /** The bodies of other lanes hold no frame of the stream. */
  lemma OtherLaneNotLogged(s: State, laneID: nat, sequence: nat, body: Bytes, a: Answers, log: StreamLog, id: nat,
      backend: nat)
    requires laneID != id
    ensures OpLog(log, s, SessionRuns.OpUpLane(laneID, sequence, body, a), id, backend) == log
  {
    hide LoggedAll, ParseBody, ValidateBatch, CheckUp, SessionRuns.ReservationGranted, SessionRuns.Reserved, AddLane,
      ClientShape;
    if ClientFrames(s, body, Some(laneID)).Some? {
      var frames := ClientFrames(s, body, Some(laneID)).value;
      assert forall i :: 0 <= i < |frames| ==> frames[i].streamID == laneID;
      forall x
        ensures LoggedAll(log, x, frames, a.frames, id, backend) == log
      {
        OthersNotLogged(log, x, frames, a.frames, id, backend);
      }
    }
  }

  // ----------------------------------------------------------------------------- the run

  /** A queue of the page, the uplink it feeds, and the writer and history of one stream. `torn` is set
      when a body of this link has been applied only in part. */
  datatype Journey = Journey(link: Link, writer: Writer, log: StreamLog, torn: bool)

  datatype JourneyEvent = OnLink(event: LinkEvent) | ByWriter(call: FlowEvent)

  function FlowOf(j: Journey): FlowRun { FlowRun(j.link.up.s, j.writer, j.log) }

  /** The event applies a body of this link in part. */
  predicate Tears(x: UpRun, e: UpEvent) {
    var op := SectionOf(x, e);
    op.Some? && !e.Elsewhere? &&
    match op.value
    case OpUpLane(laneID, sequence, body, a) => UpLane(x.s, laneID, sequence, body, a).1 == NotApplied
    case OpUpFinish(sequence, body, a) => UpFinish(x.s, sequence, body, a).1 == NotApplied
    case _ => false
  }

  function OnUplinkStep(j: Journey, e: UpEvent, id: nat, backend: nat, batchLimit: nat): Journey {
    var op := SectionOf(j.link.up, e);
    var link := LinkStep(j.link, OnUplink(e), batchLimit);
    if op.None? then j.(link := link)
    else if WriterCall(op.value, id) && Live(j.link.up.s, id, backend) then j
    else Journey(link, j.writer, OpLog(j.log, j.link.up.s, op.value, id, backend), j.torn || Tears(j.link.up, e))
  }

  /** An event changes the run if it is possible in it, and otherwise nothing. Only the stream's own
      writer makes its calls while the stream is live. */
  function JourneyStep(j: Journey, e: JourneyEvent, id: nat, backend: nat, batchLimit: nat): Journey {
    match e
    case OnLink(event) =>
      if event.OnUplink? then OnUplinkStep(j, event.event, id, backend, batchLimit)
      else j.(link := LinkStep(j.link, event, batchLimit))
    case ByWriter(event) =>
      if event.Section? then j
      else
        var y := FlowStep(FlowOf(j), event, id, backend);
        Journey(j.link.(up := Moved(j.link.up, y.s)), y.writer, y.log, j.torn)
  }

  /** The run, event by event. It is in three parts so that proofs look at a step only where they ask to,
      by `JourneyUnfolds`. */
  function JourneyFrom(j: Journey, events: seq<JourneyEvent>, id: nat, backend: nat, batchLimit: nat): Journey
    decreases |events|, 2
  {
    JourneyEvents(j, events, id, backend, batchLimit)
  }

  function JourneyEvents(j: Journey, events: seq<JourneyEvent>, id: nat, backend: nat, batchLimit: nat): Journey
    decreases |events|, 1
  {
    if events == [] then j else JourneyLastEvent(j, events, id, backend, batchLimit)
  }

  function JourneyLastEvent(j: Journey, events: seq<JourneyEvent>, id: nat, backend: nat, batchLimit: nat): Journey
    requires events != []
    decreases |events|, 0
  {
    JourneyStep(JourneyFrom(j, events[..|events| - 1], id, backend, batchLimit), events[|events| - 1], id, backend,
        batchLimit)
  }

  lemma JourneyUnfolds(j: Journey, events: seq<JourneyEvent>, id: nat, backend: nat, batchLimit: nat)
    ensures events == [] ==> JourneyFrom(j, events, id, backend, batchLimit) == j
    ensures events != [] ==>
      JourneyFrom(j, events, id, backend, batchLimit)
        == JourneyStep(JourneyFrom(j, events[..|events| - 1], id, backend, batchLimit), events[|events| - 1], id,
                       backend, batchLimit)
  {
    hide JourneyStep;
    assert JourneyFrom(j, events, id, backend, batchLimit) == JourneyEvents(j, events, id, backend, batchLimit);
    if events != [] {
      assert JourneyEvents(j, events, id, backend, batchLimit) == JourneyLastEvent(j, events, id, backend, batchLimit);
    }
  }

  /** The link has carried nothing yet, and the stream's backend is still to come. On a carrier lane the
      stream is the lane's. */
  ghost predicate Starts(j: Journey, id: nat, backend: nat) {
    var s := j.link.up.s;
    && FreshLink(j.link) && j.writer == Idling && j.log == NO_LOG && !j.torn
    && (UsesLanes(s) ==> j.link.up.laneID == id)
    && (forall i :: i in s.streams ==> s.streams[i].backend < s.nextBackend) && s.nextBackend <= backend
  }

  /** The bytes in the stream's history are those of the bodies committed on this link. */
  predicate CarriesCommitted(j: Journey, id: nat) {
    && (UsesLanes(j.link.up.s) ==> j.link.up.laneID == id)
    && (!j.torn && !j.link.up.strayed && j.link.up.s.panic.None? ==>
          j.log.carried == SinceFrom([], Bridges.Delivered(j.link.up.committed), id))
  }

  ghost predicate JourneyInv(j: Journey, id: nat, backend: nat, batchLimit: nat) {
    LinkInv(j.link, batchLimit) && FlowInv(FlowOf(j), id, backend) && CarriesCommitted(j, id)
  }

  // ------------------------------------------------------------------------- step by step

  lemma {:induction false} CommittedGrows(base: Bytes, committed: seq<Bytes>, body: Bytes, id: nat)
    ensures SinceFrom(base, Bridges.Delivered(committed + [body]), id)
      == SinceFrom(SinceFrom(base, Bridges.Delivered(committed), id), BodyFrames(body), id)
  {
    hide SinceFrom, BodyFrames;
    assert (committed + [body])[..|committed|] == committed;
    SinceConcat(base, Bridges.Delivered(committed), BodyFrames(body), id);
  }

  /** What the uplink's event adds to the committed bodies is what it adds to the stream's bytes. */
  lemma SectionCarries(x: UpRun, e: UpEvent, log: StreamLog, id: nat, backend: nat)
    requires UpInv(x) && !x.strayed && x.s.panic.None? && (UsesLanes(x.s) ==> x.laneID == id)
    requires log.carried == SinceFrom([], Bridges.Delivered(x.committed), id)
    requires SectionOf(x, e).Some? && !Tears(x, e)
    ensures OpLog(log, x.s, SectionOf(x, e).value, id, backend).carried
      == SinceFrom([], Bridges.Delivered(UpStep(x, e).committed), id)
  {
    hide InvWith, Owns, BridgePart, UpLane, UpFinish, CommitLog, UpLaneLog, SinceFrom, Bridges.Delivered,
        SessionRuns.Step, Younger, Strays;
    match e {
      case Elsewhere(op) => ElsewhereCarries(x, op, log, id, backend);
      case RequestArrives(q, a) =>
        if UsesLanes(x.s) {
          LaneBodyCarries(x.s, x.laneID, q.sequence, q.body, a, log, id, backend);
          CommittedGrows([], x.committed, q.body, id);
        }
      case HolderFinishes(a) =>
        var q := x.holder.value;
        FinishCarries(x.s, q.sequence, q.body, a, log, id, backend);
        CommittedGrows([], x.committed, q.body, id);
      case _ =>
    }
  }

  lemma ElsewhereCarries(x: UpRun, op: SessionRuns.Op, log: StreamLog, id: nat, backend: nat)
    requires !OnThisLane(x, op) && (UsesLanes(x.s) ==> x.laneID == id)
    ensures OpLog(log, x.s, op, id, backend).carried == log.carried
  {
    hide CommitLog, BackendData, ClientFrames, UpLaneLog;
    if op.OpUpLane? && UsesLanes(x.s) {
      OtherLaneNotLogged(x.s, op.laneID, op.sequence, op.body, op.answers, log, id, backend);
    }
  }

  lemma OnUplinkKeepsInv(j: Journey, e: UpEvent, id: nat, backend: nat, batchLimit: nat)
    requires JourneyInv(j, id, backend, batchLimit)
    ensures JourneyInv(OnUplinkStep(j, e, id, backend, batchLimit), id, backend, batchLimit)
  {
    hide UpInv, UpStep, FlowInv, Tracks, SectionOf, Tears, OpLog, SessionRuns.Step, SinceFrom, Bridges.Delivered,
        WriterCall, Live;
    var x := j.link.up;
    var op := SectionOf(x, e);
    LinkStepKeepsInv(j.link, OnUplink(e), batchLimit);
    StrayingStep(x, e);
    MovesBySection(x, e);
    SameCarrier(x, e);
    if e.BridgeTakes? {
      TakesIsNoSection(x, e);
    } else if op.None? {
      NoSectionCommits(x, e);
    } else if !(WriterCall(op.value, id) && Live(x.s, id, backend)) {
      SectionMeans(x, e);
      SectionKeepsFlow(FlowOf(j), op.value, id, backend);
      if !j.torn && !Tears(x, e) && !x.strayed {
        SectionCarries(x, e, j.log, id, backend);
      }
    }
  }

  lemma TakesIsNoSection(x: UpRun, e: UpEvent)
    requires e.BridgeTakes?
    ensures SectionOf(x, e).None?
  {
  }

  lemma NoSectionCommits(x: UpRun, e: UpEvent)
    requires SectionOf(x, e).None?
    ensures UpStep(x, e).committed == x.committed
  {
    hide UpLane, UpBegin, UpFinish, SessionRuns.Step, OnThisLane;
  }

  /** The writer's calls are sections that are no requests of the link. */
  lemma WriterSections(x: FlowRun, e: FlowEvent, id: nat, backend: nat)
    requires !e.Section?
    ensures var y := FlowStep(x, e, id, backend);
      && y.log.carried == x.log.carried
      && (y.s == x.s || exists op: SessionRuns.Op :: WriterCall(op, id) && y.s == SessionRuns.Step(x.s, op))
  {
    hide NextWrite, Drained, WriteFinished, Live;
    var y := FlowStep(x, e, id, backend);
    match e
    case TakeWrite => if y.s != x.s { assert y.s == SessionRuns.Step(x.s, SessionRuns.OpNextWrite(id)); }
    case WritePiece(amount, granted) =>
      if y.s != x.s { assert y.s == SessionRuns.Step(x.s, SessionRuns.OpDrained(id, amount, granted)); }
    case FinishWrite => if y.s != x.s { assert y.s == SessionRuns.Step(x.s, SessionRuns.OpWriteFinished(id)); }
  }

  lemma ByWriterKeepsInv(j: Journey, e: FlowEvent, id: nat, backend: nat, batchLimit: nat)
    requires JourneyInv(j, id, backend, batchLimit) && !e.Section?
    ensures JourneyInv(JourneyStep(j, ByWriter(e), id, backend, batchLimit), id, backend, batchLimit)
  {
    hide UpInv, FlowInv, FlowStep, Tracks, SessionRuns.Step, SinceFrom, Bridges.Delivered, InvWith;
    var x := j.link.up;
    var y := FlowStep(FlowOf(j), e, id, backend);
    FlowStepKeepsInv(FlowOf(j), e, id, backend);
    WriterSections(FlowOf(j), e, id, backend);
    PanicStays(FlowOf(j), e, id, backend);
    if y.s == x.s {
      SameIsNotYounger(x.s, x.laneID);
      assert Moved(x, y.s) == x;
      assert j.link.(up := x) == j.link;
    } else {
      var op :| WriterCall(op, id) && y.s == SessionRuns.Step(x.s, op);
      WriterElsewhere(x, op, id);
      UpStepKeepsInv(x, Elsewhere(op));
      SameCarrier(x, Elsewhere(op));
    }
  }

  lemma PanicStays(x: FlowRun, e: FlowEvent, id: nat, backend: nat)
    ensures x.s.panic.Some? ==> FlowStep(x, e, id, backend) == x
  {
  }

  lemma JourneyStepKeepsInv(j: Journey, e: JourneyEvent, id: nat, backend: nat, batchLimit: nat)
    requires JourneyInv(j, id, backend, batchLimit)
    ensures JourneyInv(JourneyStep(j, e, id, backend, batchLimit), id, backend, batchLimit)
  {
    hide JourneyInv, OnUplinkStep, LinkStep, FlowStep;
    match e
    case OnLink(event) =>
      if event.OnUplink? {
        OnUplinkKeepsInv(j, event.event, id, backend, batchLimit);
      } else {
        PageKeepsInv(j, event, id, backend, batchLimit);
      }
    case ByWriter(call) =>
      if !call.Section? {
        ByWriterKeepsInv(j, call, id, backend, batchLimit);
      }
  }

  lemma PageKeepsInv(j: Journey, e: LinkEvent, id: nat, backend: nat, batchLimit: nat)
    requires JourneyInv(j, id, backend, batchLimit) && !e.OnUplink?
    ensures JourneyInv(j.(link := LinkStep(j.link, e, batchLimit)), id, backend, batchLimit)
  {
    hide UpInv, FlowInv, Tracks, SinceFrom, Bridges.Delivered, CanJoin, Delivery.Idle;
    LinkStepKeepsInv(j.link, e, batchLimit);
    PageLeavesSession(j.link, e, batchLimit);
  }

  lemma PageLeavesSession(k: Link, e: LinkEvent, batchLimit: nat)
    requires !e.OnUplink?
    ensures var m := LinkStep(k, e, batchLimit);
      m.up.s == k.up.s && m.up.committed == k.up.committed && m.up.laneID == k.up.laneID
  {
    hide CanJoin;
  }

  lemma {:induction false} JourneyReachable(j: Journey, events: seq<JourneyEvent>, id: nat, backend: nat,
      batchLimit: nat)
    requires Starts(j, id, backend)
    ensures JourneyInv(JourneyFrom(j, events, id, backend, batchLimit), id, backend, batchLimit)
  {
    hide Starts, JourneyInv, JourneyStep;
    JourneyUnfolds(j, events, id, backend, batchLimit);
    if events == [] {
      StartsInv(j, id, backend, batchLimit);
    } else {
      var n := |events| - 1;
      JourneyReachable(j, events[..n], id, backend, batchLimit);
      JourneyStepKeepsInv(JourneyFrom(j, events[..n], id, backend, batchLimit), events[n], id, backend, batchLimit);
    }
  }

  lemma StartsInv(j: Journey, id: nat, backend: nat, batchLimit: nat)
    requires Starts(j, id, backend)
    ensures JourneyInv(j, id, backend, batchLimit)
  {
    hide UpInv, Fresh, InvWith, StreamFlows;
    FreshInv(j.link.up);
    TracksNothing(batchLimit);
    FreshSent(j.link.up);
    FreshMeans(j.link.up);
  }

  lemma FreshMeans(x: UpRun)
    requires Fresh(x)
    ensures x.committed == [] && (x.s.panic.None? ==> Inv(x.s))
  {
    hide InvWith;
  }

  // ------------------------------------------------------------------------- the theorem

  /** In every run, while the stream is live, no request has strayed and no body of the link has been
      applied in part: what has
      reached the backend, the rest of the write in flight and the queued writes are the DATA bytes of
      the committed bodies since the stream's OPEN, and the committed bodies are the first frames the
      page has queued. So, as long as the page has not opened the stream anew, all DATA bytes it has
      queued for the stream are, in this order, with the backend, in the writer's hands, queued for it,
      in the body under way, and in the page's queue. */
  lemma PageBytesReachBackend(j: Journey, events: seq<JourneyEvent>, id: nat, backend: nat, batchLimit: nat)
    requires Starts(j, id, backend)
    ensures var y := JourneyFrom(j, events, id, backend, batchLimit);
      var s, n := y.link.up.s, |y.link.up.committed|;
      s.panic.None? && !y.torn && !y.link.up.strayed && Live(s, id, backend) && y.link.queued.good ==>
        && n <= |y.link.up.sent| <= n + 1
        && var bytes := y.log.written + RestOf(y.writer) + Flattened(s.streams[id].writes);
           var ahead := Bridges.Delivered(y.link.up.sent[n..]) + AllIn(y.link.pending);
           && bytes == SinceFrom([], Bridges.Delivered(y.link.up.committed), id)
           && y.link.queued.frames == Bridges.Delivered(y.link.up.committed) + ahead
           && (!Opens(ahead, id) ==> SinceFrom([], y.link.queued.frames, id) == bytes + Payloads(ahead, id))
  {
    hide Starts, JourneyStep, UpInv, InvWith, Tracks, SinceFrom, Bridges.Delivered, AllIn, Flattened, Payloads,
      Opens;
    JourneyReachable(j, events, id, backend, batchLimit);
    var y := JourneyFrom(j, events, id, backend, batchLimit);
    var s, n := y.link.up.s, |y.link.up.committed|;
    if s.panic.None? && !y.torn && !y.link.up.strayed && Live(s, id, backend) && y.link.queued.good {
      InvDelivers(y.link, batchLimit);
      var done := Bridges.Delivered(y.link.up.committed);
      var ahead := Bridges.Delivered(y.link.up.sent[n..]) + AllIn(y.link.pending);
      assert y.link.queued.frames == done + ahead;
      SinceConcat([], done, ahead, id);
      if !Opens(ahead, id) {
        SinceWithoutOpen(SinceFrom([], done, id), ahead, id);
      }
    }
  }

  /** None strays on a multiplexed carrier; and on HTTPS lanes none does while fewer streams than the ring
      holds have been closed after the lane's own. */
  lemma NoneStraysOnTheWay(j: Journey, events: seq<JourneyEvent>, id: nat, backend: nat, batchLimit: nat)
    requires Starts(j, id, backend)
    ensures !UsesLanes(j.link.up.s) ==> !JourneyFrom(j, events, id, backend, batchLimit).link.up.strayed
    ensures j.link.up.s.carrier == HttpsLanes && j.link.up.laneID !in j.link.up.s.tombstones.closed ==>
      var y := JourneyFrom(j, events, id, backend, batchLimit).link.up;
      y.others < y.s.limits.maxClosedStreamIDs ==> !y.strayed
  {
    hide Starts, UpInv, Tracks, StaysKnown, FlowInv, CarriesCommitted;
    JourneyReachable(j, events, id, backend, batchLimit);
    JourneyStaysKnown(j, events, id, backend, batchLimit);
    KnownDoesNotStray(j.link.up, JourneyFrom(j, events, id, backend, batchLimit).link.up);
  }

  lemma JourneyStepIsUpStep(j: Journey, e: JourneyEvent, id: nat, backend: nat, batchLimit: nat)
    ensures var m := JourneyStep(j, e, id, backend, batchLimit);
      m.link.up == j.link.up || exists f :: m.link.up == UpStep(j.link.up, f)
  {
    hide UpStep, LinkStep, FlowStep, SectionOf, OpLog, WriterCall, SessionRuns.Step, Younger;
    match e
    case OnLink(event) => LinkStepIsUpStep(j.link, event, batchLimit);
    case ByWriter(call) =>
      if !call.Section? {
        var x := j.link.up;
        var y := FlowStep(FlowOf(j), call, id, backend);
        WriterSections(FlowOf(j), call, id, backend);
        SameIsNotYounger(x.s, x.laneID);
        if y.s == x.s {
          assert Moved(x, y.s) == x;
        } else {
          var op :| WriterCall(op, id) && y.s == SessionRuns.Step(x.s, op);
          WriterElsewhere(x, op, id);
        }
      }
  }

  lemma WriterElsewhere(x: UpRun, op: SessionRuns.Op, id: nat)
    requires WriterCall(op, id)
    ensures UpStep(x, Elsewhere(op)) == Moved(x, SessionRuns.Step(x.s, op))
  {
    hide SessionRuns.Step;
  }

  lemma {:induction false} JourneyStaysKnown(j: Journey, events: seq<JourneyEvent>, id: nat, backend: nat,
      batchLimit: nat)
    requires Starts(j, id, backend)
    ensures StaysKnown(j.link.up, JourneyFrom(j, events, id, backend, batchLimit).link.up)
  {
    hide UpInv, JourneyStep, Tracks, Fresh, UpStep, StaysKnown, FlowInv, CarriesCommitted;
    JourneyUnfolds(j, events, id, backend, batchLimit);
    if events == [] {
      FreshIsKnown(j.link.up);
    } else {
      var past, e := events[..|events| - 1], events[|events| - 1];
      JourneyStaysKnown(j, past, id, backend, batchLimit);
      JourneyReachable(j, past, id, backend, batchLimit);
      var w := JourneyFrom(j, past, id, backend, batchLimit);
      JourneyStepIsUpStep(w, e, id, backend, batchLimit);
      if JourneyStep(w, e, id, backend, batchLimit).link.up != w.link.up {
        var f :| JourneyStep(w, e, id, backend, batchLimit).link.up == UpStep(w.link.up, f);
        StepStaysKnown(j.link.up, w.link.up, f);
      }
    }
  }

  // ------------------------------------------------------------------------- where runs start

  /** Backends are numbered as they come, in every run of a session. */
  lemma {:induction false} ReachableBackends(carrier: Carrier, limits: Limits, ops: seq<SessionRuns.Op>)
    requires ValidLimits(limits)
    ensures var s := SessionRuns.RunFrom(NewSession(carrier, limits), ops);
      s.panic.None? ==> forall i :: i in s.streams ==> s.streams[i].backend < s.nextBackend
  {
    hide SessionRuns.Step, NewSession, InvWith;
    SessionRuns.RunUnfolds(NewSession(carrier, limits), ops);
    if ops == [] {
      NewSessionStreams(carrier, limits);
    } else {
      var n := |ops| - 1;
      var s := SessionRuns.RunFrom(NewSession(carrier, limits), ops[..n]);
      ReachableBackends(carrier, limits, ops[..n]);
      SessionRuns.ReachableInv(carrier, limits, ops[..n]);
      if s.panic.None? {
        NumberedStays(s, ops[n]);
      } else {
        SessionRuns.PanickedStays(s, ops[n]);
      }
    }
  }

  lemma NumberedStays(s: State, op: SessionRuns.Op)
    requires Inv(s) && s.panic.None? && forall i :: i in s.streams ==> s.streams[i].backend < s.nextBackend
    ensures var t := SessionRuns.Step(s, op); forall i :: i in t.streams ==> t.streams[i].backend < t.nextBackend
  {
    hide SessionRuns.Step, OpLog, StreamFlows, InvWith;
    NoStreamZero(s);
    SectionFlows(s, op, Idling, NO_LOG, 0, 0);
  }

  lemma NoStreamZero(s: State)
    requires Inv(s)
    ensures 0 !in s.streams
  {
    hide LanesInv, Accounts;
  }

  /** A multiplexed session's one link starts with the session, for any stream. */
  lemma MultiplexedStarts(carrier: Carrier, limits: Limits, laneID: nat, id: nat, backend: nat)
    requires ValidLimits(limits) && !UsesLanes(NewSession(carrier, limits))
    ensures Starts(Journey(Link(Unused(NewSession(carrier, limits), MAIN, laneID),
        NOTHING_QUEUED, []), Idling, NO_LOG, false), id, backend)
  {
    hide InvWith;
    SessionRuns.NewSessionInv(carrier, limits);
  }

  /** A lane's link starts with the lane, in any run, for the stream that the lane is for and the backend
      that stream will have. */
  lemma LaneStarts(carrier: Carrier, limits: Limits, ops: seq<SessionRuns.Op>, laneID: nat, backend: nat)
    requires ValidLimits(limits)
    requires var s := SessionRuns.RunFrom(NewSession(carrier, limits), ops);
      s.panic.None? && !s.closed && UsesLanes(s) && laneID <= MAX_STREAM_ID && laneID !in s.carrierLanes
        && s.nextBackend <= backend
    ensures var s := SessionRuns.RunFrom(NewSession(carrier, limits), ops);
      Starts(Journey(Link(Unused(AddLane(s, laneID), s.nextLane, laneID), NOTHING_QUEUED, []),
                     Idling, NO_LOG, false), laneID, backend)
  {
    hide InvWith, NewSession, SessionRuns.Step;
    ReachableBackends(carrier, limits, ops);
    SessionRuns.ReachableInv(carrier, limits, ops);
    var s := SessionRuns.RunFrom(NewSession(carrier, limits), ops);
    AddLaneKeepsInv(s, laneID, 0, 0);
    AddedLaneIsFresh(s, laneID);
    AddLaneStreams(s, laneID);
  }

  lemma AddedLaneIsFresh(s: State, laneID: nat)
    requires Inv(s) && UsesLanes(s) && laneID !in s.carrierLanes
    ensures var t := AddLane(s, laneID);
      && s.nextLane in t.lanes && t.lanes[s.nextLane].lastUpSequence == 0 && !t.lanes[s.nextLane].upActive
      && Owns(t, s.nextLane, laneID) && s.nextLane != MAIN && UsesLanes(t) && t.panic == s.panic
  {
    hide StreamsInv, LaneInv, Placement, Accounts, ClosedInv;
  }

  // ------------------------------------------------------------------------- torn bodies

  predicate ReopensClosed(closed: set<nat>, frames: seq<Frame>) {
    exists k ::
      0 <= k < |frames| && frames[k].typeCode == OPEN && frames[k].streamID != 0 && frames[k].streamID in closed
  }

  /** A body is applied in part only up to a refused OPEN, whose id is then a tombstone. */
  lemma {:induction false} TornAtRefusal(x: Applying, sim: Sim, tombstones: set<nat>, past: seq<nat>,
      counted: set<nat>, frames: seq<Frame>, laneID: nat, answers: seq<Answer>)
    requires InStep(x, sim, tombstones, past, counted, frames, laneID)
    requires var y := ApplyAll(x, frames, answers); !y.ok && y.state.panic.None?
    ensures ReopensClosed(ApplyAll(x, frames, answers).state.tombstones.closed, frames)
    decreases |frames|
  {
    hide InvWith, Linked, ApplyFrame, CoreStep, Simulate, PastAfter, Validate, OnWire, CountedAfter, Covered,
      Unknown, Applicable, OnOneLane;
    var f, a := frames[0], First(answers);
    var y := ApplyFrame(x, f, a);
    if Unknown(CoreOf(x.state), f) {
      UnknownPanics(x, f, a);
      StoppedLog(NO_LOG, y, frames[1..], Others(answers), 0, 0);
    } else {
      KnownIsApplicable(x, sim, tombstones, past, counted, frames, laneID);
      if y.ok {
        KnownStaysInStep(x, sim, tombstones, past, counted, frames, laneID, a);
        TornAtRefusal(y, Simulate(sim, tombstones, f), tombstones,
            PastAfter(CoreOf(x.state), past, f, a, x.state.limits),
                      CountedAfter(counted, f), frames[1..], laneID, Others(answers));
        var closed := ApplyAll(x, frames, answers).state.tombstones.closed;
        var k :| 0 <= k < |frames[1..]| && frames[1..][k].typeCode == OPEN && frames[1..][k].streamID != 0
          && frames[1..][k].streamID in closed;
        assert frames[k + 1] == frames[1..][k];
      } else {
        RefusalIsRemembered(x, f, a);
        StoppedLog(NO_LOG, y, frames[1..], Others(answers), 0, 0);
      }
    }
  }

  lemma RefusalIsRemembered(x: Applying, f: Frame, a: Answer)
    requires InvWith(x.state, x.cost, x.items) && !x.state.closed && x.ok && Applicable(x.state, f, x.cost, x.items)
    requires !ApplyFrame(x, f, a).ok
    ensures f.typeCode == OPEN && f.streamID != 0 && f.streamID in ApplyFrame(x, f, a).state.tombstones.closed
  {
    RingOf(x.state, x.cost, x.items);
    hide InvWith;
    ApplyFrameCore(x, f, a);
    RefusedIsOpen(x, f, a);
    RememberAdds(x.state.tombstones, f.streamID, x.state.limits.maxClosedStreamIDs);
  }

  lemma RememberAdds(r: Ring, id: nat, capacity: nat)
    requires RingInv(r, capacity) && capacity > 0
    ensures id in Remember(r, id, capacity).closed
  {
  }

  lemma RefusedIsOpen(x: Applying, f: Frame, a: Answer)
    requires x.ok && !ApplyFrame(x, f, a).ok
    ensures f.typeCode == OPEN && f.streamID != 0 && !AdmittedIn(CoreOf(x.state), a, x.state.limits)
  {
    hide QueueFrame, RememberClosed, DropStream, AskTicket;
  }

  lemma RingOf(s: State, cost: int, items: int)
    requires InvWith(s, cost, items)
    ensures RingInv(s.tombstones, s.limits.maxClosedStreamIDs) && s.limits.maxClosedStreamIDs > 0
  {
    hide LanesInv, Accounts;
  }

  lemma {:induction false} ReopeningIsRejected(sim: Sim, tombstones: set<nat>, frames: seq<Frame>)
    requires ReopensClosed(tombstones, frames)
    ensures !Validate(sim, tombstones, frames)
    decreases |frames|
  {
    var k :| 0 <= k < |frames| && frames[k].typeCode == OPEN && frames[k].streamID != 0
        && frames[k].streamID in tombstones;
    if k > 0 {
      assert frames[1..][k - 1] == frames[k];
      ReopeningIsRejected(Simulate(sim, tombstones, frames[0]), tombstones, frames[1..]);
    }
  }

  /** A body applied in part is followed by the end of the session; should a retry of it come first, it
      fails validation as long as the refused id is remembered, so that no DATA is applied twice. */
  lemma TornBodyIsRejected(s: State, r: LaneRef, sequence: nat, body: Bytes, frames: seq<Frame>, a: Answers,
      laneID: nat, u: State)
    requires Inv(s) && !s.closed && r in s.lanes && OnWire(frames) && OnOneLane(s, frames, laneID)
    requires var (t, o) := CommitBatch(s, r, sequence, body, frames, a); o == NotApplied && t.panic.None?
    ensures var t := CommitBatch(s, r, sequence, body, frames, a).0;
      && ReopensClosed(t.tombstones.closed, frames) && !ValidateBatch(t, frames)
      && (ReopensClosed(u.tombstones.closed, frames) ==> !ValidateBatch(u, frames))
  {
    hide InvWith, ValidateBatch, Reservation, ApplyAll, SessionRuns.ReservationGranted, OnOneLane, InStep, Fifo,
      OnWire, Release, Committed, CommitBatch, SessionRuns.Unreserved, ReopensClosed;
    SessionRuns.CommitCases(s, r, sequence, body, frames, a);
    var reserved := SessionRuns.Reserved(s, frames);
    var x := Begin(reserved, frames);
    SessionRuns.ReservedKeepsInv(s, frames, a);
    SessionRuns.ReservedSame(s, frames, laneID);
    BatchStartsInStep(reserved, frames, laneID);
    var y := SessionRuns.AppliedTo(s, frames, a);
    ReleaseKeepsTombstones(y.state, y.cost, y.items);
    TornAtRefusal(x, Sim(Snapshots(s.streams), {}), s.tombstones.closed, Fifo(s.tombstones), s.streams.Keys, frames,
        laneID, a.frames);
    var t := CommitBatch(s, r, sequence, body, frames, a).0;
    StillRejected(t, frames);
    if ReopensClosed(u.tombstones.closed, frames) {
      StillRejected(u, frames);
    }
  }

  lemma ReleaseKeepsTombstones(s: State, cost: int, items: int)
    ensures Release(s, cost, items).tombstones == s.tombstones
    ensures Release(s, cost, items).panic.None? ==> s.panic.None?
  {
  }

  lemma StillRejected(u: State, frames: seq<Frame>)
    requires ReopensClosed(u.tombstones.closed, frames)
    ensures !ValidateBatch(u, frames)
  {
    hide ReopensClosed, Validate;
    ReopeningIsRejected(Sim(Snapshots(u.streams), {}), u.tombstones.closed, frames);
  }
}
