/** Whole sessions as one of their downlinks sees them: every section of the session
    (`internal/session/session.go`), the polls of one lane, the network behind them and the client.
    What `LaneRuns` proves of a lane's runs holds of the lane of any session; and the DATA bytes that
    reach the client are those read from the backends. */
module DownlinkRuns {
  import opened Options
  import opened Frames
  import opened Budget
  import opened DownQueue
  import opened Lanes
  import opened SessionState
  import opened SessionInv
  import opened SessionSteps
  import opened LaneLink
  import opened Flow
  import opened Credits
  import opened Validation
  import opened Application
  import SessionRuns
  import Runs = LaneRuns

  /** A session and the run one of its lanes is in, with the polls, the network and the client. `fed` is
      the history of the frames queued on the lane for data read from backends and for credit given back,
      `taken` that of the frames of all batches the session has taken from the client. */
  datatype Joint = Joint(s: State, x: Runs.Run, fed: seq<Frame>, taken: seq<Frame>)

  datatype JointEvent =
    | Elsewhere(op: SessionRuns.Op)
    | PollSection(op: SessionRuns.Op, event: Runs.Event)
    | OfClient(event: Runs.Event)

  /** What the lane's run becomes when the rest of the session acts: it goes through events from outside. */
  ghost function Outside(x: Runs.Run, t: State, r: LaneRef, laneID: nat): Runs.Run {
    if Reaches(x, t, r, laneID) then
      var events :| AllFromOutside(events) && Follows(Runs.RunFrom(x, events, ConfigOf(t)), t, r, laneID);
      Runs.RunFrom(x, events, ConfigOf(t))
    else x
  }

  /** An event changes something if it is possible. */
  ghost function JointStep(j: Joint, e: JointEvent, r: LaneRef, laneID: nat): Joint {
    match e
    case Elsewhere(op) =>
      if PollsLane(j.s, op, r) || j.s.panic.Some? then j
      else if FeedsLane(j.s, op, r) then
        var f := FedFrame(op);
        j.(s := SessionRuns.Step(j.s, op), x := Runs.Step(j.x, Runs.FramePushed(f), ConfigOf(j.s)), fed := j.fed + [f])
      else
        j.(s := SessionRuns.Step(j.s, op), x := Outside(j.x, SessionRuns.Step(j.s, op), r, laneID),
           taken := j.taken + TakenBy(j.s, op))
    case PollSection(op, event) =>
      if !PollsLane(j.s, op, r) || !Matches(j.x, op, event, r, laneID) || j.s.panic.Some? then j
      else j.(s := SessionRuns.Step(j.s, op), x := Runs.Step(j.x, event, ConfigOf(j.s)))
    case OfClient(event) =>
      if event.ClientPolls? || event.ReplyArrives? then j.(x := Runs.Step(j.x, event, ConfigOf(j.s))) else j
  }

  /** The run, event by event. It is in three parts so that proofs look at a step only where they ask to,
      by `JointUnfolds`. */
  ghost function JointRun(j: Joint, events: seq<JointEvent>, r: LaneRef, laneID: nat): Joint
    decreases |events|, 2
  {
    JointEvents(j, events, r, laneID)
  }

  ghost function JointEvents(j: Joint, events: seq<JointEvent>, r: LaneRef, laneID: nat): Joint
    decreases |events|, 1
  {
    if events == [] then j else JointLastEvent(j, events, r, laneID)
  }

  ghost function JointLastEvent(j: Joint, events: seq<JointEvent>, r: LaneRef, laneID: nat): Joint
    requires events != []
    decreases |events|, 0
  {
    JointStep(JointRun(j, events[..|events| - 1], r, laneID), events[|events| - 1], r, laneID)
  }

  lemma JointUnfolds(j: Joint, events: seq<JointEvent>, r: LaneRef, laneID: nat)
    ensures events == [] ==> JointRun(j, events, r, laneID) == j
    ensures events != [] ==>
      JointRun(j, events, r, laneID)
        == JointStep(JointRun(j, events[..|events| - 1], r, laneID), events[|events| - 1], r, laneID)
  {
    hide JointStep;
    assert JointRun(j, events, r, laneID) == JointEvents(j, events, r, laneID);
    if events != [] {
      assert JointEvents(j, events, r, laneID) == JointLastEvent(j, events, r, laneID);
    }
  }

  /** The streams whose frames go through the lane. */
  predicate MayUse(r: LaneRef, laneID: nat, id: nat) { r != MAIN ==> id == laneID }

  /** The lane has just been made, and its streams are yet to open. */
  ghost predicate JustMade(j: Joint, r: LaneRef, laneID: nat) {
    && Inv(j.s) && j.x == Runs.START && j.fed == [] && j.taken == [] && Follows(j.x, j.s, r, laneID)
    && laneID <= MAX_STREAM_ID
    && forall id :: MayUse(r, laneID, id) ==> id !in j.s.streams
  }

  ghost predicate JointInv(j: Joint, r: LaneRef, laneID: nat) {
    && Runs.RunInv(j.x) && (j.s.panic.None? ==> Inv(j.s) && Follows(j.x, j.s, r, laneID))
    && (forall id :: BytesInv(j.x, j.fed, id))
    && (j.s.panic.None? ==> forall id :: CreditInv(j, r, laneID, id))
  }

  /** Credit given back and bytes that wait for the backend are no more than the bytes taken. */
  ghost predicate CreditInv(j: Joint, r: LaneRef, laneID: nat, id: nat) {
    MayUse(r, laneID, id) ==> Credit(j.fed, id) + Waiting(j.s, id) <= DataBytes(j.taken, id)
  }

  /** A trace without the marks of the CLOSE frames: the bytes alone. */
  function OnlyBytes(trace: seq<int>): seq<int> {
    if trace == [] then []
    else (if trace[0] == CLOSE_MARK then [] else [trace[0]]) + OnlyBytes(trace[1..])
  }

  /** What was pushed holds the bytes and the credit that were fed, and what was batched is the first part
      of it. */
  ghost predicate BytesInv(x: Runs.Run, fed: seq<Frame>, id: nat) {
    && OnlyBytes(Trace(x.pushed, id)) == Trace(fed, id) && Credit(x.pushed, id) == Credit(fed, id)
    && Trace(Runs.AllFrames(x.batches), id) <= Trace(x.pushed, id)
  }

  lemma {:induction false} BytesConcat(a: seq<int>, b: seq<int>)
    ensures OnlyBytes(a + b) == OnlyBytes(a) + OnlyBytes(b)
  {
    if a == [] {
      assert a + b == b;
    } else {
      assert (a + b)[1..] == a[1..] + b;
      BytesConcat(a[1..], b);
    }
  }

  lemma PrefixBytes(a: seq<int>, b: seq<int>)
    requires a <= b
    ensures OnlyBytes(a) <= OnlyBytes(b)
  {
    BytesConcat(a, b[|a|..]);
    assert b == a + b[|a|..];
  }

  /** A frame is added to what was pushed. */
  lemma PushedBytes(frames: seq<Frame>, f: Frame, id: nat)
    ensures Trace(frames + [f], id) == Trace(frames, id) + TraceOf(f, id)
    ensures OnlyBytes(Trace(frames + [f], id)) == OnlyBytes(Trace(frames, id)) + OnlyBytes(TraceOf(f, id))
    ensures OnlyBytes(TraceOf(f, id)) == if f.typeCode == CLOSE then [] else TraceOf(f, id)
    ensures Credit(frames + [f], id) == Credit(frames, id) + CreditOf(f, id)
    ensures f.typeCode == CLOSE ==> CreditOf(f, id) == 0
  {
    ViewSnoc(frames, f, id);
    BytesConcat(Trace(frames, id), TraceOf(f, id));
    if f.typeCode == CLOSE && f.streamID == id {
      MarkOnly(TraceOf(f, id));
    } else if f.streamID == id && f.typeCode == DATA {
      NoMark(f.payload);
    }
  }

  lemma {:induction false} NoMark(payload: Bytes)
    ensures OnlyBytes(payload) == payload
  {
    if payload != [] {
      NoMark(payload[1..]);
    }
  }

  lemma MarkOnly(t: seq<int>)
    requires |t| == 1 && t[0] == CLOSE_MARK
    ensures OnlyBytes(t) == []
  {
    assert t[1..] == [];
  }

  // --------------------------------------------------------------- it holds throughout

  /** Where a run's history goes: batches are formed of what is queued, and only a push adds to what was
      pushed. */
  lemma PushedByStep(x: Runs.Run, e: Runs.Event, c: Runs.Config)
    requires Runs.RunInv(x)
    ensures Runs.Step(x, e, c).pushed ==
      if e.FramePushed? && Pushable(e.frame, c.maxFramePayload) && !Runs.Dropped(x) then x.pushed + [e.frame]
      else x.pushed
    ensures Runs.Dropped(Runs.Step(x, e, c)) ==>
      Runs.Step(x, e, c).batches == x.batches && Runs.Step(x, e, c).pushed == x.pushed
  {
    hide TakeBatch, AfterBatch, Enqueue, LaneInv, Pushable, Emptied, Runs.FormedBatch, Runs.OrderInv;
  }

  lemma BatchedIsPushed(x: Runs.Run, id: nat)
    requires Runs.RunInv(x) && !Runs.Dropped(x)
    ensures Trace(Runs.AllFrames(x.batches), id) <= Trace(x.pushed, id)
  {
    assert Runs.OrderInv(x, id);
    hide Runs.BatchesInv, Runs.OwnerInv, Runs.WakeInv, Runs.NetworkInv;
    ViewConcat(Runs.AllFrames(x.batches), AsFrames(x.lane.queue.frames), id);
  }

  lemma StepKeepsBytes(x: Runs.Run, e: Runs.Event, c: Runs.Config, fed: seq<Frame>, id: nat)
    requires Runs.RunInv(x) && BytesInv(x, fed, id)
    ensures var fed1 := if e.FramePushed? && e.frame.typeCode != CLOSE && Pushable(e.frame, c.maxFramePayload)
        && !Runs.Dropped(x)
        then fed + [e.frame] else fed;
      BytesInv(Runs.Step(x, e, c), fed1, id)
  {
    hide Runs.RunInv, Runs.Step, OnlyBytes, Trace, TraceOf, Credit, CreditOf, Runs.AllFrames, Pushable, Runs.Dropped;
    var y := Runs.Step(x, e, c);
    Runs.StepKeepsInv(x, e, c);
    PushedByStep(x, e, c);
    if e.FramePushed? {
      PushedBytes(x.pushed, e.frame, id);
      PushedBytes(fed, e.frame, id);
    }
    if !Runs.Dropped(y) {
      BatchedIsPushed(y, id);
    }
  }

  lemma {:induction false} OutsideKeepsAll(x: Runs.Run, events: seq<Runs.Event>, c: Runs.Config, fed: seq<Frame>)
    requires Runs.RunInv(x) && AllFromOutside(events) && forall id :: BytesInv(x, fed, id)
    ensures var y := Runs.RunFrom(x, events, c); Runs.RunInv(y) && forall id :: BytesInv(y, fed, id)
  {
    hide Runs.RunInv, Runs.Step, BytesInv;
    Runs.RunUnfolds(x, events, c);
    if events != [] {
      var n := |events| - 1;
      OutsideKeepsAll(x, events[..n], c, fed);
      var y := Runs.RunFrom(x, events[..n], c);
      Runs.StepKeepsInv(y, events[n], c);
      forall id
        ensures BytesInv(Runs.Step(y, events[n], c), fed, id)
      {
        StepKeepsBytes(y, events[n], c, fed, id);
      }
    }
  }

  lemma OutsideKeepsInv(x: Runs.Run, t: State, r: LaneRef, laneID: nat, fed: seq<Frame>)
    requires Runs.RunInv(x) && forall id :: BytesInv(x, fed, id)
    ensures var y := Outside(x, t, r, laneID); Runs.RunInv(y) && forall id :: BytesInv(y, fed, id)
    ensures Reaches(x, t, r, laneID) ==> Follows(Outside(x, t, r, laneID), t, r, laneID)
  {
    hide Runs.RunInv, Follows, Runs.RunFrom, BytesInv, AllFromOutside;
    if Reaches(x, t, r, laneID) {
      var events :| AllFromOutside(events) && Follows(Runs.RunFrom(x, events, ConfigOf(t)), t, r, laneID)
        && Outside(x, t, r, laneID) == Runs.RunFrom(x, events, ConfigOf(t));
      OutsideKeepsAll(x, events, ConfigOf(t), fed);
    }
  }

  lemma ClientFollows(x: Runs.Run, e: Runs.Event, s: State, r: LaneRef, laneID: nat)
    requires Follows(x, s, r, laneID) && (e.ClientPolls? || e.ReplyArrives?)
    ensures Follows(Runs.Step(x, e, ConfigOf(s)), s, r, laneID)
  {
    hide ConditionOf, Owns, SameDown;
  }

  lemma EventKeepsAll(x: Runs.Run, e: Runs.Event, c: Runs.Config, fed: seq<Frame>)
    requires Runs.RunInv(x) && (forall id :: BytesInv(x, fed, id)) && !e.FramePushed?
    ensures var y := Runs.Step(x, e, c); Runs.RunInv(y) && forall id :: BytesInv(y, fed, id)
  {
    hide Runs.RunInv, Runs.Step, BytesInv;
    Runs.StepKeepsInv(x, e, c);
    forall id
      ensures BytesInv(Runs.Step(x, e, c), fed, id)
    {
      StepKeepsBytes(x, e, c, fed, id);
    }
  }

  lemma FeedKeepsAll(x: Runs.Run, f: Frame, c: Runs.Config, fed: seq<Frame>)
    requires Runs.RunInv(x) && forall id :: BytesInv(x, fed, id)
    requires f.typeCode != CLOSE && Pushable(f, c.maxFramePayload) && !Runs.Dropped(x)
    ensures var y := Runs.Step(x, Runs.FramePushed(f), c); Runs.RunInv(y) && forall id :: BytesInv(y, fed + [f], id)
  {
    hide Runs.RunInv, Runs.Step, BytesInv, Pushable, Runs.Dropped;
    Runs.StepKeepsInv(x, Runs.FramePushed(f), c);
    forall id
      ensures BytesInv(Runs.Step(x, Runs.FramePushed(f), c), fed + [f], id)
    {
      StepKeepsBytes(x, Runs.FramePushed(f), c, fed, id);
    }
  }

  lemma ElsewhereKeepsInv(j: Joint, op: SessionRuns.Op, r: LaneRef, laneID: nat)
    requires JointInv(j, r, laneID) && !PollsLane(j.s, op, r) && j.s.panic.None?
    ensures JointInv(JointStep(j, Elsewhere(op), r, laneID), r, laneID)
  {
    hide InvWith, Runs.RunInv, Follows, SessionRuns.Step, Runs.Step, Matches, PollsLane, BackendData, Route, Outside,
      ClientFrames, ValidateBatch,
      ConditionOf, BytesInv, CreditInv, Pushable, Runs.Dropped, Drained, TakenBy;
    var t := SessionRuns.Step(j.s, op);
    SessionRuns.StepKeepsInv(j.s, op);
    if t.panic.None? {
      forall id
        ensures CreditInv(JointStep(j, Elsewhere(op), r, laneID), r, laneID, id)
      {
        ElsewhereKeepsCredit(j, op, r, laneID, id);
      }
    }
    if FeedsLane(j.s, op, r) {
      FeedingIsPush(j.x, j.s, op, r, laneID);
      FeedKeepsAll(j.x, FedFrame(op), ConfigOf(j.s), j.fed);
    } else {
      SectionIsLaneEvents(j.s, op, r, laneID);
      OutsideKeepsInv(j.x, t, r, laneID, j.fed);
    }
  }

  lemma {:induction false} DataConcat(a: seq<Frame>, b: seq<Frame>, id: nat)
    ensures DataBytes(a + b, id) == DataBytes(a, id) + DataBytes(b, id)
  {
    if a == [] {
      assert a + b == b;
    } else {
      assert (a + b)[1..] == a[1..] + b && (a + b)[0] == a[0];
      DataConcat(a[1..], b, id);
    }
  }

  /** A frame fed is credit given back, or DATA. */
  lemma FedCredit(s: State, op: SessionRuns.Op, r: LaneRef, id: nat)
    requires FeedsLane(s, op, r)
    ensures CreditOf(FedFrame(op), id) == Returned(s, op, id) && TakenBy(s, op) == []
  {
    hide QueueFrame, BackendData, Release;
    if op.OpDrained? {
      WindowRoundTrip(op.amount);
    }
  }

  lemma ElsewhereKeepsCredit(j: Joint, op: SessionRuns.Op, r: LaneRef, laneID: nat, id: nat)
    requires JointInv(j, r, laneID) && !PollsLane(j.s, op, r) && j.s.panic.None?
    requires SessionRuns.Step(j.s, op).panic.None?
    ensures CreditInv(JointStep(j, Elsewhere(op), r, laneID), r, laneID, id)
  {
    hide InvWith, Runs.RunInv, Follows, SessionRuns.Step, Runs.Step, PollsLane, FeedsLane, Outside, ConditionOf,
        BytesInv, Waiting, Returned, TakenBy, DataBytes, Credit;
    assert CreditInv(j, r, laneID, id);
    var t := SessionRuns.Step(j.s, op);
    SectionWaits(j.s, op, id);
    if FeedsLane(j.s, op, r) {
      FedIsFed(j.s, op, r);
      FedCredit(j.s, op, r, id);
      NoData(TakenBy(j.s, op), id);
      PushedBytes(j.fed, FedFrame(op), id);
    } else {
      ReturnedNonNegative(j.s, op, id);
      DataConcat(j.taken, TakenBy(j.s, op), id);
    }
  }

  lemma FedIsFed(s: State, op: SessionRuns.Op, r: LaneRef)
    requires FeedsLane(s, op, r)
    ensures op.OpBackendData? || op.OpDrained?
  {
    hide BackendData, Drained;
  }

  lemma ReturnedNonNegative(s: State, op: SessionRuns.Op, id: nat)
    ensures Returned(s, op, id) >= 0
  {
    hide QueueFrame, Release;
  }

  /** The polls of the lane leave streams alone. */
  lemma PollKeepsCredit(j: Joint, op: SessionRuns.Op, e: Runs.Event, r: LaneRef, laneID: nat, id: nat)
    requires JointInv(j, r, laneID) && PollsLane(j.s, op, r) && j.s.panic.None?
    ensures CreditInv(j.(s := SessionRuns.Step(j.s, op), x := Runs.Step(j.x, e, ConfigOf(j.s))), r, laneID, id)
  {
    hide InvWith, Runs.RunInv, Follows, SessionRuns.Step, Runs.Step, ConditionOf, BytesInv, Waiting, DataBytes, Credit,
        OnlyEnds, PollLaneOf;
    assert CreditInv(j, r, laneID, id);
    PollEnds(j.s, op);
    EndsWait(j.s, SessionRuns.Step(j.s, op), id);
  }

  lemma JointStepKeepsInv(j: Joint, e: JointEvent, r: LaneRef, laneID: nat)
    requires JointInv(j, r, laneID) && laneID <= MAX_STREAM_ID
    ensures JointInv(JointStep(j, e, r, laneID), r, laneID)
  {
    hide InvWith, Runs.RunInv, Follows, SessionRuns.Step, Runs.Step, PollsLane, Outside, SessionRuns.Unretained,
      ConditionOf, BytesInv;
    match e
    case Elsewhere(op) =>
      if !PollsLane(j.s, op, r) && j.s.panic.None? {
        ElsewhereKeepsInv(j, op, r, laneID);
      }
    case PollSection(op, event) =>
      if PollsLane(j.s, op, r) && Matches(j.x, op, event, r, laneID) && j.s.panic.None? {
        SessionRuns.StepKeepsInv(j.s, op);
        PollSectionIsEvent(j.x, j.s, op, event, r, laneID);
        EventKeepsAll(j.x, event, ConfigOf(j.s), j.fed);
        forall id
          ensures CreditInv(JointStep(j, e, r, laneID), r, laneID, id)
        {
          PollKeepsCredit(j, op, event, r, laneID, id);
        }
      }
    case OfClient(event) =>
      if event.ClientPolls? || event.ReplyArrives? {
        EventKeepsAll(j.x, event, ConfigOf(j.s), j.fed);
        if j.s.panic.None? {
          ClientFollows(j.x, event, j.s, r, laneID);
        }
        forall id | j.s.panic.None?
          ensures CreditInv(JointStep(j, e, r, laneID), r, laneID, id)
        {
          assert CreditInv(j, r, laneID, id);
        }
      }
  }

  lemma {:induction false} JointReachable(j: Joint, events: seq<JointEvent>, r: LaneRef, laneID: nat)
    requires JustMade(j, r, laneID)
    ensures JointInv(JointRun(j, events, r, laneID), r, laneID)
  {
    hide Runs.RunInv, Follows, InvWith, JointStep, BytesInv;
    JointUnfolds(j, events, r, laneID);
    if events == [] {
      StartInv(j.s, j.fed);
      forall id
        ensures CreditInv(j, r, laneID, id)
      {
        StartCredit(j, r, laneID, id);
      }
    } else {
      var n := |events| - 1;
      JointReachable(j, events[..n], r, laneID);
      JointStepKeepsInv(JointRun(j, events[..n], r, laneID), events[n], r, laneID);
    }
  }

  lemma StartCredit(j: Joint, r: LaneRef, laneID: nat, id: nat)
    requires JustMade(j, r, laneID)
    ensures CreditInv(j, r, laneID, id)
  {
    hide InvWith, Follows;
  }

  lemma StartInv(s: State, nothing: seq<Frame>)
    requires nothing == []
    ensures Runs.RunInv(Runs.START) && forall id :: BytesInv(Runs.START, nothing, id)
  {
    hide Runs.RunInv;
    Runs.ReachableInv([], ConfigOf(s));
    assert Runs.RunFrom(Runs.START, [], ConfigOf(s)) == Runs.START;
    assert Runs.START.pushed == nothing && Runs.AllFrames(Runs.START.batches) == nothing;
  }

  // ------------------------------------------------------------------------- theorems

  /** In every run of every session, whatever its other lanes, streams, requests and polls do, and
      however the network treats this lane's polls: the client holds exactly the first batches of the
      lane, each once and in order; the lane's cursor counts the batches formed; and while the session
      keeps the lane, at most the last one is missing, which is then still there to be replayed. */
  lemma SessionDownlinkExactlyOnce(j: Joint, events: seq<JointEvent>, r: LaneRef, laneID: nat)
    requires JustMade(j, r, laneID)
    ensures var y := JointRun(j, events, r, laneID);
      && y.x.clientCursor <= |y.x.batches| && y.x.received == y.x.batches[..y.x.clientCursor]
      && (y.s.panic.None? ==>
          && r in y.s.lanes && y.s.lanes[r].downCursor == |y.x.batches|
          && (!Runs.Dropped(y.x) ==>
              && |y.x.batches| - 1 <= y.x.clientCursor
              && (y.x.clientCursor < |y.x.batches| ==> y.s.lanes[r].unacked == y.x.batches[y.x.clientCursor])))
  {
    hide InvWith, ConditionOf, JointStep, BytesInv;
    JointReachable(j, events, r, laneID);
  }

  /** The bytes the client has of each stream are the first bytes read from its backend and queued, in
      order and each once; and while the session keeps the lane, the rest of them is what it still holds. */
  lemma SessionDownlinkIntegrity(j: Joint, events: seq<JointEvent>, r: LaneRef, laneID: nat, id: nat)
    requires JustMade(j, r, laneID)
    ensures var y := JointRun(j, events, r, laneID);
      var client := Trace(Runs.AllFrames(y.x.received), id);
      && OnlyBytes(client) <= Trace(y.fed, id)
      && (!Runs.Dropped(y.x) ==>
            OnlyBytes(client) + OnlyBytes(Trace(Runs.Outstanding(y.x), id)) == Trace(y.fed, id))
  {
    hide InvWith, ConditionOf, JointStep, Follows, Runs.Dropped, Runs.Outstanding, OnlyBytes;
    JointReachable(j, events, r, laneID);
    var y := JointRun(j, events, r, laneID);
    assert BytesInv(y.x, y.fed, id);
    ReceivedIsFirst(y.x, id);
    PrefixBytes(Trace(Runs.AllFrames(y.x.received), id), Trace(y.x.pushed, id));
    if !Runs.Dropped(y.x) {
      Runs.HeldIsReceivedAndOutstanding(y.x, id);
      ViewConcat(Runs.AllFrames(y.x.received), Runs.Outstanding(y.x), id);
      BytesConcat(Trace(Runs.AllFrames(y.x.received), id), Trace(Runs.Outstanding(y.x), id));
    }
  }

  lemma {:induction false} AllFramesConcat(a: seq<Bytes>, b: seq<Bytes>)
    ensures Runs.AllFrames(a + b) == Runs.AllFrames(a) + Runs.AllFrames(b)
    decreases |b|
  {
    hide Runs.FramesOf;
    if b == [] {
      assert a + b == a;
    } else {
      var n := |b| - 1;
      assert (a + b)[..|a + b| - 1] == a + b[..n];
      AllFramesConcat(a, b[..n]);
    }
  }

  lemma ReceivedIsFirst(x: Runs.Run, id: nat)
    requires Runs.RunInv(x)
    ensures Trace(Runs.AllFrames(x.received), id) <= Trace(Runs.AllFrames(x.batches), id)
  {
    hide Runs.BatchesInv, Runs.OwnerInv, Runs.WakeInv, Runs.OrderInv;
    var rest := x.batches[x.clientCursor..];
    assert x.batches == x.received + rest;
    AllFramesConcat(x.received, rest);
    ViewConcat(Runs.AllFrames(x.received), Runs.AllFrames(rest), id);
  }

  // ------------------------------------------------------------------ where runs begin

  /** A lane that has just been registered is the start of such a run. */
  lemma AddedLaneStarts(s: State, laneID: nat)
    requires Inv(s) && !s.closed && UsesLanes(s) && laneID <= MAX_STREAM_ID
    requires laneID !in s.carrierLanes && laneID !in s.tombstones.closed
    ensures JustMade(Joint(AddLane(s, laneID), Runs.START, [], []), s.nextLane, laneID)
  {
    hide InvWith, Follows, ConditionOf;
    AddLaneKeepsInv(s, laneID, 0, 0);
    NewLaneStarts(s, laneID);
    NoStreamYet(s, laneID);
    OwnsLane(AddLane(s, laneID), s.nextLane, laneID);
    hide AddLane;
  }

  lemma NoStreamYet(s: State, laneID: nat)
    requires Inv(s) && UsesLanes(s) && laneID !in s.carrierLanes
    ensures laneID !in s.streams && AddLane(s, laneID).streams == s.streams
  {
    hide LanesInv, Accounts, ClosedInv;
  }

  lemma OwnsLane(s: State, r: LaneRef, laneID: nat)
    requires Follows(Runs.START, s, r, laneID) && UsesLanes(s)
    ensures r != MAIN
  {
    hide ConditionOf, SameDown;
  }

  /** So does the lane an OPEN registers: the section is the one the same request would be with the lane
      already there. */
  lemma RegisteredLaneStarts(s: State, laneID: nat, sequence: nat, body: Bytes, a: Answers)
    requires Inv(s) && s.panic.None? && laneID !in s.carrierLanes && laneID !in s.tombstones.closed
    requires laneID in UpLane(s, laneID, sequence, body, a).0.carrierLanes
    ensures UpLane(s, laneID, sequence, body, a) == UpLane(AddLane(s, laneID), laneID, sequence, body, a)
    ensures JustMade(Joint(AddLane(s, laneID), Runs.START, [], []), s.nextLane, laneID)
  {
    hide InvWith, UpOnLane, OnlyLateFrames, JustMade;
    SameBodies(s, laneID, body);
    SessionRuns.AddedLane(s, laneID);
    AddedLaneStarts(s, laneID);
    hide AddLane;
  }

  /** And the lane a WebSocket registers. */
  lemma AcquiredLaneStarts(s: State, laneID: nat)
    requires Inv(s) && laneID !in s.carrierLanes && laneID in AcquireWebSocketLane(s, laneID).0.carrierLanes
    ensures AcquireWebSocketLane(s, laneID) == AcquireWebSocketLane(AddLane(s, laneID), laneID)
    ensures JustMade(Joint(AddLane(s, laneID), Runs.START, [], []), s.nextLane, laneID)
  {
    hide InvWith, JustMade;
    AddedLaneStarts(s, laneID);
  }

  /** And, in a new session, the one lane of a multiplexed carrier and lane 0 of HTTPS lanes. */
  lemma NewSessionsLaneStarts(carrier: Carrier, limits: Limits)
    requires ValidLimits(limits)
    ensures carrier == Https || carrier == WebSocket ==>
      JustMade(Joint(NewSession(carrier, limits), Runs.START, [], []), MAIN, 0)
    ensures carrier == HttpsLanes ==> JustMade(Joint(NewSession(carrier, limits), Runs.START, [], []), 1, 0)
  {
    hide InvWith, NewSession, ValidLimits, Follows;
    SessionRuns.NewSessionInv(carrier, limits);
    NewSessionStreams(carrier, limits);
    if carrier == Https || carrier == WebSocket {
      NewSessionStarts(carrier, limits);
    } else if carrier == HttpsLanes {
      LaneZeroStarts(limits);
    }
  }

  lemma LaneZeroStarts(limits: Limits)
    requires ValidLimits(limits)
    ensures Follows(Runs.START, NewSession(HttpsLanes, limits), 1, 0)
  {
    hide InvWith, AddLane, Follows;
    var s := SessionRuns.BeforeLaneZero(limits);
    NewLaneStarts(s, 0);
  }

  lemma SameBodies(s: State, laneID: nat, body: Bytes)
    ensures ClientFrames(AddLane(s, laneID), body, Some(laneID)) == ClientFrames(s, body, Some(laneID))
  {
    hide ParseBody, ClientShape;
  }

  // --------------------------------------------------------------------- the client's credit

  lemma CreditInTransit(x: Runs.Run, id: nat)
    requires Runs.RunInv(x) && !Runs.Dropped(x)
    ensures Credit(Runs.AllFrames(x.received), id) + Credit(Runs.Outstanding(x), id) == Credit(x.pushed, id)
  {
    Runs.HeldIsReceivedAndOutstanding(x, id);
    hide Runs.RunInv, Runs.Outstanding, Runs.AllFrames;
    ViewConcat(Runs.AllFrames(x.received), Runs.Outstanding(x), id);
  }

  lemma WindowAndWaiting(s: State, id: nat)
    requires Inv(s) && id in s.streams
    ensures s.streams[id].receiveWindow + Waiting(s, id) == INITIAL_STREAM_WINDOW
  {
    hide InvWith;
    InvStream(s, id, 0, 0);
  }

  /** Conservation of credit, in every run of every session: the bytes of a stream that wait for its
      backend, the credit queued for the client or on its way, and the credit the client has are together
      no more than the bytes taken from it. */
  lemma CreditIsConserved(j: Joint, events: seq<JointEvent>, r: LaneRef, laneID: nat, id: nat)
    requires JustMade(j, r, laneID) && MayUse(r, laneID, id)
    ensures var y := JointRun(j, events, r, laneID);
      y.s.panic.None? && !Runs.Dropped(y.x) ==>
        Waiting(y.s, id) + Credit(Runs.Outstanding(y.x), id) + Credit(Runs.AllFrames(y.x.received), id)
          <= DataBytes(y.taken, id)
  {
    hide InvWith, ConditionOf, JointStep, Follows, Runs.Dropped, Runs.Outstanding, Runs.RunInv, Runs.AllFrames, Waiting,
        DataBytes, Credit, JustMade, Trace, OnlyBytes;
    JointReachable(j, events, r, laneID);
    var y := JointRun(j, events, r, laneID);
    assert BytesInv(y.x, y.fed, id);
    if y.s.panic.None? && !Runs.Dropped(y.x) {
      assert CreditInv(y, r, laneID, id);
      CreditInTransit(y.x, id);
    }
  }

  /** Hence the receive window of a live stream is at least what the client may still send, what it has
      sent that has not been taken, and the WINDOW credit queued, unacknowledged or on its way. */
  lemma ReceiveWindowCoversCredit(j: Joint, events: seq<JointEvent>, r: LaneRef, laneID: nat, id: nat, inFlight: nat)
    requires JustMade(j, r, laneID) && MayUse(r, laneID, id)
    ensures var y := JointRun(j, events, r, laneID);
      var mayStillSend := INITIAL_STREAM_WINDOW
        + Credit(Runs.AllFrames(y.x.received), id) - (DataBytes(y.taken, id) + inFlight);
      y.s.panic.None? && !Runs.Dropped(y.x) && id in y.s.streams ==>
        y.s.streams[id].receiveWindow >= mayStillSend + inFlight + Credit(Runs.Outstanding(y.x), id)
  {
    hide InvWith, ConditionOf, JointStep, Follows, Runs.Dropped, Runs.Outstanding, Runs.RunInv, Runs.AllFrames, Waiting,
        DataBytes, Credit, JustMade, BytesInv, CreditInv;
    JointReachable(j, events, r, laneID);
    CreditIsConserved(j, events, r, laneID, id);
    var y := JointRun(j, events, r, laneID);
    if y.s.panic.None? && !Runs.Dropped(y.x) && id in y.s.streams {
      WindowAndWaiting(y.s, id);
    }
  }

  /** The bytes of the stream taken, those in flight and those of the batch are together within the initial
      window and the credit received. */
  predicate WithinCredit(j: Joint, id: nat, inFlight: nat, frames: seq<Frame>) {
    && j.s.panic.None? && !Runs.Dropped(j.x)
    && DataBytes(j.taken, id) + inFlight + DataBytes(frames, id)
      <= INITIAL_STREAM_WINDOW + Credit(Runs.AllFrames(j.x.received), id)
  }

  /** There is such a stream, or was one. */
  predicate Known(sim: Sim, tombstones: set<nat>, id: nat) { id in sim.live || WasClosed(sim, tombstones, id) }

  /** A client that stays within its credit never fails the overrun check: if the bytes taken, those in
      flight and those of a batch are together within the initial window and the credit received, every
      DATA frame of the batch is accepted when validation comes to it, unless there is no such stream. */
  lemma ClientWithinCreditFits(j: Joint, events: seq<JointEvent>, r: LaneRef, laneID: nat, id: nat, inFlight: nat,
      frames: seq<Frame>, at: nat)
    requires JustMade(j, r, laneID) && MayUse(r, laneID, id)
    requires id != 0 && at < |frames| && OnWire(frames) && frames[at].typeCode == DATA && frames[at].streamID == id
    ensures var y := JointRun(j, events, r, laneID);
      var sim, tombstones := Sim(Snapshots(y.s.streams), {}), y.s.tombstones.closed;
      var there := SimulateAll(sim, tombstones, frames[..at]);
      WithinCredit(y, id, inFlight, frames) && Validate(sim, tombstones, frames[..at])
      && Known(there, tombstones, id) ==>
        Accepts(there, tombstones, frames[at])
  {
    hide InvWith, ConditionOf, JointStep, Follows, Runs.Dropped, Runs.Outstanding, Runs.RunInv, Runs.AllFrames,
        DataBytes, Credit, JustMade, BytesInv, CreditInv, Validate, SimulateAll, Accepts, WasClosed, OnWire;
    JointReachable(j, events, r, laneID);
    CreditIsConserved(j, events, r, laneID, id);
    var y := JointRun(j, events, r, laneID);
    var sim, tombstones := Sim(Snapshots(y.s.streams), {}), y.s.tombstones.closed;
    if WithinCredit(y, id, inFlight, frames) && Validate(sim, tombstones, frames[..at]) {
      WaitingNonNegative(y.s, id, 0, 0);
      if id in y.s.streams {
        WindowAndWaiting(y.s, id);
      }
      NoOverrun(sim, tombstones, frames, id, at);
    }
  }

  /** There is nothing more to come on the lane: it has left the register, or its stream has ended. The
      one lane of a multiplexed session ends only with the session. */
  predicate NothingToCome(s: State, r: LaneRef, laneID: nat) {
    || s.closed
    || (r != MAIN && laneID !in s.carrierLanes)
    || (r != MAIN && s.carrierLanes[laneID] != r)
    || (r != MAIN && laneID != 0 && laneID !in s.streams && laneID in s.tombstones.closed)
  }

  /** The poll that owns the lane is parked although there is something for it: frames, or the end. */
  predicate Sleeps(j: Joint, r: LaneRef, laneID: nat) {
    && r in j.s.lanes && j.s.lanes[r].superseded.Some? && Runs.Waiting(j.x, j.s.lanes[r].superseded.value)
    && (j.s.lanes[r].queue.frames != [] || NothingToCome(j.s, r, laneID))
  }

  lemma NothingToComeIsOver(s: State, r: LaneRef, laneID: nat)
    ensures NothingToCome(s, r, laneID) <==> Over(ConditionOf(s, r, laneID))
  {
  }

  /** In every run of every session, no poll of the lane sleeps through frames or an end meant for it:
      the token is there for it, or a woken poll is about to run. */
  lemma SessionNeverLosesWakeup(j: Joint, events: seq<JointEvent>, r: LaneRef, laneID: nat)
    requires JustMade(j, r, laneID)
    ensures var y := JointRun(j, events, r, laneID);
      y.s.panic.None? && Sleeps(y, r, laneID) ==>
        y.s.lanes[r].notify || exists w :: w in y.x.polls && y.x.polls[w].woken
  {
    JointReachable(j, events, r, laneID);
    NothingToComeIsOver(JointRun(j, events, r, laneID).s, r, laneID);
    hide InvWith, ConditionOf, JointStep, BytesInv, NothingToCome;
  }

  // ------------------------------------------------------------------ what a poll answers

  /** How a section of a poll of lane object `r` ends, in all cases: exactly by whether the poll still owns
      the lane, whether frames are pending, and whether anything is to come. */
  predicate AnswersBy(s: State, r: LaneRef, laneID: nat, owner: bool, o: Outcome) {
    var pending := r in s.lanes && s.lanes[r].queue.frames != [];
    && (o == Empty <==> !owner)
    && (o.Delivered? <==> owner && pending)
    && (o == SessionOver <==> owner && !pending && s.closed)
    && (o == LaneOver <==> owner && !pending && !s.closed && NothingToCome(s, r, laneID))
    && (o == Parked <==> owner && !pending && !NothingToCome(s, r, laneID))
  }

  /** A poll woken by the token; one that no longer owns the lane passes it on. */
  lemma WokenAnswers(s: State, r: LaneRef, laneID: nat, me: nat, cursor: nat)
    requires r in s.lanes
    ensures var (t, o) := PollWoken(s, r, laneID, me, cursor);
      && AnswersBy(s, r, laneID, s.lanes[r].superseded == Some(me), o)
      && (s.lanes[r].superseded != Some(me) ==> t == WithLane(s, r, Signal(s.lanes[r])))
      && (o == Parked ==> t == s)
  {
    hide TakeBatch, AfterBatch;
    assert s.lanes[r := s.lanes[r]] == s.lanes;
  }

  /** A poll on its arrival, once its cursor is accepted: it owns the lane. */
  lemma EnterAnswers(s: State, laneID: nat, me: nat, cursor: nat)
    requires var e := PollEnter(s, laneID, me, cursor).1; e.PollEnters? && e.lane in s.lanes
    ensures var e := PollEnter(s, laneID, me, cursor).1;
      AnswersBy(s, e.lane, laneID, true, e.outcome) && PollLaneOf(s, laneID) == Some(e.lane)
  {
    hide TakeBatch, AfterBatch, Release;
    var r := PollLaneOf(s, laneID).value;
    var p := Present(s.lanes[r], cursor);
    ReleaseLeaves(s, p.cost, p.items);
  }

  /** The entry of a poll, by the batches formed; of a lane object that is no longer the registered one,
      nothing is said. */
  predicate BeginsBy(y: Joint, r: LaneRef, laneID: nat, cursor: nat, e: Entry) {
    var n := |y.x.batches|;
    if y.s.closed then e == PollGone
    else if UsesLanes(y.s) && laneID !in y.s.carrierLanes then e == PollRefused
    else if PollLaneOf(y.s, laneID) != Some(r) then true
    else if LaneAt(y.s, r).unacked != [] && cursor + 1 == n then e == PollReplays(y.x.batches[cursor], n)
    else if cursor == n then e.PollEnters? && e.lane == r && AnswersBy(y.s, r, laneID, true, e.outcome)
    else e == PollFails
  }

  /** How any poll at all begins, in every run, given the batches formed so far: with the cursor behind them it
      takes the lane over, with the cursor of the last batch it gets that batch again if the lane still has it,
      with any other it fails; and it is turned away if the session is closed or the lane is gone. */
  lemma PollBegins(j: Joint, events: seq<JointEvent>, r: LaneRef, laneID: nat, me: nat, cursor: nat)
    requires JustMade(j, r, laneID) && JointRun(j, events, r, laneID).s.panic.None?
    ensures var y := JointRun(j, events, r, laneID);
      var (t, e) := PollEnter(y.s, laneID, me, cursor);
      BeginsBy(y, r, laneID, cursor, e) && (e.PollEnters? || t == y.s)
  {
    hide JointInv, JointStep, JointRun, AnswersBy, PollEnter, Present, Follows, InvWith;
    JointReachable(j, events, r, laneID);
    var y := JointRun(j, events, r, laneID);
    CursorMeaning(y, r, laneID, cursor);
    EntryCases(y.s, laneID, me, cursor);
    if PollEnter(y.s, laneID, me, cursor).1.PollEnters? && PollLaneOf(y.s, laneID) == Some(r) {
      EnterAnswers(y.s, laneID, me, cursor);
    }
  }

  lemma EntryCases(s: State, laneID: nat, me: nat, cursor: nat)
    requires laneID <= MAX_STREAM_ID
    ensures var (t, e) := PollEnter(s, laneID, me, cursor);
      if s.closed then t == s && e == PollGone
      else
        match PollLaneOf(s, laneID)
        case None => t == s && e == PollRefused
        case Some(r) =>
          match Present(LaneAt(s, r), cursor)
          case Replayed(body, next) => t == s && e == PollReplays(body, next)
          case BadCursor => t == s && e == PollFails
          case Accepted(_, _, _) => e.PollEnters? && e.lane == r
  {
    hide Present, Release, Loop, ConditionOf, TakeOver;
  }

  lemma CursorMeaning(y: Joint, r: LaneRef, laneID: nat, cursor: nat)
    requires JointInv(y, r, laneID) && y.s.panic.None?
    ensures r in y.s.lanes
    ensures var n, p := |y.x.batches|, Present(y.s.lanes[r], cursor);
      if y.s.lanes[r].unacked != [] && cursor == n - 1 then p == Replayed(y.x.batches[cursor], n)
      else if cursor == n then p.Accepted? else p == BadCursor
  {
    hide InvWith, ConditionOf, BytesInv, LaneInv;
  }

  lemma ReleaseLeaves(s: State, cost: int, items: int)
    ensures var t := Release(s, cost, items);
      && t.closed == s.closed && t.streams == s.streams && t.tombstones == s.tombstones
      && t.carrierLanes == s.carrierLanes
      && t.lanes == s.lanes
  {
  }
}
