/** Runs of one lane's downlink: any number of concurrent, retried, cancelled, timed-out and superseded
    polls, the network between them and the client, and everything else the session does to the lane.

    Every section `Poll` and `PollLane` execute under the session lock is one event; so is the receive
    from the `notify` channel, which happens before the lock is taken again. Requests may be delivered
    late or more than once, and replies late, more than once or never. */
module LaneRuns {
  import opened Options
  import opened Frames
  import opened DownQueue
  import opened Charges
  import opened Lanes

  /** A poll waiting on its channels. `woken` means it has taken the token and not yet the lock;
      `displaced` means its own channel has been closed by a newer poll. */
  datatype Poll = Poll(cursor: nat, woken: bool, displaced: bool)

  /** A nonempty reply in the network. */
  datatype Reply = Reply(cursor: nat, body: Bytes, next: nat)

  datatype Config = Config(maxFramePayload: int, batchLimit: int)

  /** The lane, the polls waiting on it, the network and the client. `batches` and `pushed` are the
      history: every batch ever formed and every frame ever queued. */
  datatype Run = Run(
    lane: Lane, condition: Condition, polls: map<nat, Poll>, nextPoll: nat,
    batches: seq<Bytes>, pushed: seq<Frame>,
    requests: set<nat>, replies: set<Reply>, clientCursor: nat, received: seq<Bytes>)

  const START := Run(NEW_LANE, Condition(false, false, false), map[], 0, [], [], {}, {}, 0, [])

  datatype Event =
    | ClientPolls
    | RequestArrives(cursor: nat)
    | ReplyArrives(reply: Reply)
    | FramePushed(frame: Frame)
    | TokenTaken(poll: nat)
    | WokenRuns(poll: nat)
    | ContextDone(poll: nat)
    | DisplacedReturns(poll: nat)
    | SessionDone(poll: nat)
    | DeadlineFires(poll: nat)
    | StreamEnds
    | LaneDetached
    | SessionCloses
    | Signalled

  /** The lane no longer accepts frames, and what it held has been dropped. */
  predicate Dropped(r: Run) { r.condition.closed || r.condition.detached }

  predicate Waiting(r: Run, p: nat) { p in r.polls && !r.polls[p].woken }

  /** The end of a poll's section. */
  function Settle(r: Run, p: nat, cursor: nat, t: Turn): Run {
    match t.outcome
    case Parked => r.(lane := t.lane, polls := r.polls[p := Poll(cursor, false, false)])
    case Delivered(body, next) =>
      r.(lane := t.lane, polls := r.polls - {p}, batches := r.batches + [body],
         replies := r.replies + {Reply(cursor, body, next)})
    case _ => r.(lane := t.lane, polls := r.polls - {p})
  }

  /** The polls after the one that owned the lane has been told to give way. */
  function GiveWay(polls: map<nat, Poll>, displaced: Option<nat>): map<nat, Poll> {
    if displaced.Some? && displaced.value in polls
    then polls[displaced.value := polls[displaced.value].(displaced := true)]
    else polls
  }

  /** The first section of a poll. */
  function Enter(r: Run, cursor: nat, c: Config): Run {
    match Present(r.lane, cursor)
    case Replayed(body, next) => r.(replies := r.replies + {Reply(cursor, body, next)})
    case BadCursor => r
    case Accepted(lane, _, _) =>
      var me := r.nextPoll;
      var entered := r.(lane := TakeOver(lane, me), nextPoll := me + 1,
                        polls := GiveWay(r.polls, Displaced(lane)));
      Settle(entered, me, cursor, Loop(entered.lane, me, cursor, c.batchLimit, r.condition))
  }

  /** An event changes the run if it is possible in it, and otherwise nothing. */
  function Step(r: Run, e: Event, c: Config): Run {
    match e
    case ClientPolls => r.(requests := r.requests + {r.clientCursor})
    case RequestArrives(cursor) =>
      if cursor in r.requests && !Dropped(r) then Enter(r, cursor, c) else r
    case ReplyArrives(reply) =>
      if reply in r.replies && reply.cursor == r.clientCursor
      then r.(received := r.received + [reply.body], clientCursor := reply.next) else r
    case FramePushed(f) =>
      if Pushable(f, c.maxFramePayload) && !Dropped(r)
      then r.(lane := Enqueue(r.lane, f, c.maxFramePayload), pushed := r.pushed + [f]) else r
    case TokenTaken(p) =>
      if Waiting(r, p) && r.lane.notify
      then r.(lane := r.lane.(notify := false), polls := r.polls[p := r.polls[p].(woken := true)]) else r
    case WokenRuns(p) =>
      if p in r.polls && r.polls[p].woken
      then Settle(r, p, r.polls[p].cursor, AfterToken(r.lane, p, r.polls[p].cursor, c.batchLimit, r.condition)) else r
    case ContextDone(p) => if Waiting(r, p) then r.(lane := Quit(r.lane, p), polls := r.polls - {p}) else r
    case DisplacedReturns(p) =>
      if Waiting(r, p) && r.polls[p].displaced then r.(lane := Signal(r.lane), polls := r.polls - {p}) else r
    case SessionDone(p) =>
      if Waiting(r, p) && r.condition.closed then r.(lane := Quit(r.lane, p), polls := r.polls - {p}) else r
    case DeadlineFires(p) =>
      if Waiting(r, p)
      then Settle(r, p, r.polls[p].cursor, Deadline(r.lane, p, r.polls[p].cursor, c.batchLimit, r.condition)) else r
    case StreamEnds => r.(condition := r.condition.(ended := true), lane := Signal(r.lane))
    case LaneDetached => r.(condition := r.condition.(detached := true), lane := Emptied(r.lane))
    case SessionCloses =>
      r.(condition := r.condition.(closed := true),
         lane := if r.condition.closed || r.condition.detached then r.lane else Emptied(r.lane))
    case Signalled => r.(lane := Signal(r.lane))
  }

  /** The run, event by event. It is in three parts so that proofs look at a step only where they ask to,
      by `RunUnfolds`. */
  function RunFrom(r: Run, events: seq<Event>, c: Config): Run
    decreases |events|, 2
  {
    RunEvents(r, events, c)
  }

  function RunEvents(r: Run, events: seq<Event>, c: Config): Run
    decreases |events|, 1
  {
    if events == [] then r else RunLastEvent(r, events, c)
  }

  function RunLastEvent(r: Run, events: seq<Event>, c: Config): Run
    requires events != []
    decreases |events|, 0
  {
    Step(RunFrom(r, events[..|events| - 1], c), events[|events| - 1], c)
  }

  lemma RunUnfolds(r: Run, events: seq<Event>, c: Config)
    ensures events == [] ==> RunFrom(r, events, c) == r
    ensures events != [] ==>
      RunFrom(r, events, c) == Step(RunFrom(r, events[..|events| - 1], c), events[|events| - 1], c)
  {
    hide Step;
    assert RunFrom(r, events, c) == RunEvents(r, events, c);
    if events != [] {
      assert RunEvents(r, events, c) == RunLastEvent(r, events, c);
    }
  }

  // ------------------------------------------------------------------- the invariant

  predicate FormedBatch(body: Bytes) {
    body != [] && ParseBody(body, MAX_PAYLOAD).Parsed?
  }

  /** The cursor counts the batches, and what is unacknowledged is the last of them. */
  ghost predicate BatchesInv(r: Run) {
    && LaneInv(r.lane)
    && r.lane.downCursor == |r.batches|
    && (forall i :: 0 <= i < |r.batches| ==> FormedBatch(r.batches[i]))
    && (r.lane.unacked != [] ==>
        && r.batches != []
        && r.lane.unacked == r.batches[|r.batches| - 1]
        && r.lane.unackedBase + 1 == r.lane.downCursor)
  }

  /** At most one poll owns the lane; it holds the newest cursor, and every other has been told. */
  ghost predicate OwnerInv(r: Run) {
    && (forall p :: p in r.polls ==> p < r.nextPoll)
    && (forall p :: p in r.polls && r.lane.superseded != Some(p) ==> r.polls[p].displaced)
    && (r.lane.superseded.Some? ==>
        && r.lane.superseded.value in r.polls
        && !r.polls[r.lane.superseded.value].displaced
        && r.polls[r.lane.superseded.value].cursor == r.lane.downCursor)
  }

  /** A poll that is parked although there is something for it. */
  predicate Owed(r: Run) {
    && r.lane.superseded.Some? && Waiting(r, r.lane.superseded.value)
    && (r.lane.queue.frames != [] || Over(r.condition))
  }

  /** No lost wake-up: the token is there, or a poll that took it has yet to run. */
  ghost predicate WakeInv(r: Run) {
    Owed(r) ==> r.lane.notify || exists w :: w in r.polls && r.polls[w].woken
  }

  /** Every nonempty reply carries the batch its cursor names; the client holds the batches up to its
      cursor; nothing has left the relay's memory that the client does not hold. */
  ghost predicate NetworkInv(r: Run) {
    && (forall x :: x in r.replies ==>
          x.cursor < |r.batches| && x.body == r.batches[x.cursor] && x.next == x.cursor + 1)
    && (forall q :: q in r.requests ==> q <= r.clientCursor)
    && (forall p :: p in r.polls ==> r.polls[p].cursor <= r.clientCursor)
    && r.clientCursor <= |r.batches|
    && r.received == r.batches[..r.clientCursor]
    && (!Dropped(r) ==> r.clientCursor >= |r.batches| - (if r.lane.unacked != [] then 1 else 0))
    && (Dropped(r) ==> r.lane.queue.frames == [] && r.lane.unacked == [])
  }

  function FramesOf(body: Bytes): seq<Frame> {
    var r := ParseBody(body, MAX_PAYLOAD);
    if r.Parsed? then r.frames else []
  }

  function AllFrames(bodies: seq<Bytes>): seq<Frame> {
    if bodies == [] then [] else AllFrames(bodies[..|bodies| - 1]) + FramesOf(bodies[|bodies| - 1])
  }

  /** What has been batched and what is queued look, to every stream, like everything pushed. */
  ghost predicate OrderInv(r: Run, id: nat) {
    !Dropped(r) ==>
      var held := AllFrames(r.batches) + AsFrames(r.lane.queue.frames);
      Trace(held, id) == Trace(r.pushed, id) && Credit(held, id) == Credit(r.pushed, id)
  }

  ghost predicate RunInv(r: Run) {
    BatchesInv(r) && OwnerInv(r) && WakeInv(r) && NetworkInv(r) && forall id :: OrderInv(r, id)
  }

  // --------------------------------------------------------------- it holds throughout

  lemma FreshRun(r: Run)
    requires r.lane.queue.frames == [] && r.lane.queue.windows == map[] && r.lane.unacked == []
    requires r.lane.unackedCost == 0 && r.lane.unackedItems == 0 && !r.lane.downActive && r.lane.superseded == None
    requires r.lane.downCursor == 0 && r.polls == map[] && r.batches == [] && r.pushed == []
    requires r.requests == {} && r.replies == {} && r.clientCursor == 0 && r.received == []
    ensures RunInv(r)
  {
    IdleLane(r.lane);
    forall id
      ensures OrderInv(r, id)
    {
      NothingHeld(r, id);
    }
  }

  lemma NothingHeld(r: Run, id: nat)
    requires r.batches == [] && r.lane.queue.frames == [] && r.pushed == []
    ensures OrderInv(r, id)
  {
    assert AllFrames(r.batches) + AsFrames(r.lane.queue.frames) == [];
  }

  /** What the waiting loop does, in the terms of the invariant. */
  lemma LoopFacts(l: Lane, me: nat, cursor: nat, c: Config, condition: Condition)
    requires LaneInv(l)
    ensures var t := Loop(l, me, cursor, c.batchLimit, condition);
      && LaneInv(t.lane)
      && t.lane.notify == l.notify
      && t.outcome != Cancelled
      && (l.superseded != Some(me) ==> t == Turn(l, Empty))
      && (t.outcome.Parked? ==> t.lane == l && l.superseded == Some(me) && l.queue.frames == [] && !Over(condition))
      && (l.superseded == Some(me) && !t.outcome.Parked? ==> t.lane.superseded == None)
      && (!t.outcome.Delivered? ==>
            t.lane.queue == l.queue && t.lane.unacked == l.unacked && t.lane.downCursor == l.downCursor
                                    && t.lane.unackedBase == l.unackedBase)
      && (t.outcome.Delivered? ==>
          && l.superseded == Some(me)
          && FormedBatch(t.outcome.body) && t.lane.unacked == t.outcome.body
          && t.outcome.next == l.downCursor + 1 == t.lane.downCursor && t.lane.unackedBase == cursor
          && AsFrames(l.queue.frames) == FramesOf(t.outcome.body) + AsFrames(t.lane.queue.frames))
      && (t.outcome == LaneOver ==>
            l.queue.frames == [] && !condition.closed && (condition.ended || condition.detached))
  {
    LoopKeepsLaneInv(l, me, cursor, c.batchLimit, condition, UpCost);
    if l.superseded == Some(me) && |l.queue.frames| != 0 {
      BatchIsPrefix(l.queue, c.batchLimit);
      LoopMovesBatch(l, me, cursor, c.batchLimit, condition);
    }
  }

  /** The run while poll `p` executes a section with cursor `cursor`: everything holds but what is said
      of `p` itself, which is neither parked nor woken now. */
  ghost predicate Running(r: Run, p: nat, cursor: nat) {
    && BatchesInv(r) && NetworkInv(r) && (forall id :: OrderInv(r, id))
    && p < r.nextPoll && cursor <= r.clientCursor
    && (r.lane.superseded == Some(p) ==> cursor == r.lane.downCursor)
    && RunningOwner(r, p) && RunningWake(r, p)
  }

  ghost predicate RunningOwner(r: Run, p: nat) {
    && (forall q :: q in r.polls ==> q < r.nextPoll)
    && (forall q :: q in r.polls && q != p && r.lane.superseded != Some(q) ==> r.polls[q].displaced)
    && (r.lane.superseded.Some? && r.lane.superseded.value != p ==>
        && r.lane.superseded.value in r.polls
        && !r.polls[r.lane.superseded.value].displaced
        && r.polls[r.lane.superseded.value].cursor == r.lane.downCursor)
  }

  ghost predicate RunningWake(r: Run, p: nat) {
    Owed(r) && r.lane.superseded != Some(p) ==>
      r.lane.notify || exists w :: w in r.polls && w != p && r.polls[w].woken
  }

  lemma SettleKeepsBatches(r: Run, p: nat, cursor: nat, c: Config)
    requires Running(r, p, cursor)
    ensures BatchesInv(Settle(r, p, cursor, Loop(r.lane, p, cursor, c.batchLimit, r.condition)))
  {
    LoopFacts(r.lane, p, cursor, c, r.condition);
    SettledBatches(r, p, cursor, Loop(r.lane, p, cursor, c.batchLimit, r.condition));
  }

  lemma SettledBatches(r: Run, p: nat, cursor: nat, t: Turn)
    requires BatchesInv(r) && LaneInv(t.lane)
    requires t.outcome.Delivered? ==>
      && FormedBatch(t.outcome.body) && t.lane.unacked == t.outcome.body
      && t.lane.downCursor == r.lane.downCursor + 1 && t.lane.unackedBase == cursor == r.lane.downCursor
    requires !t.outcome.Delivered? ==>
      t.lane.unacked == r.lane.unacked && t.lane.downCursor == r.lane.downCursor
      && t.lane.unackedBase == r.lane.unackedBase
    ensures BatchesInv(Settle(r, p, cursor, t))
  {
  }

  lemma SettleKeepsOwner(r: Run, p: nat, cursor: nat, c: Config)
    requires Running(r, p, cursor)
    ensures OwnerInv(Settle(r, p, cursor, Loop(r.lane, p, cursor, c.batchLimit, r.condition)))
  {
    LoopFacts(r.lane, p, cursor, c, r.condition);
    SettledOwner(r, p, cursor, Loop(r.lane, p, cursor, c.batchLimit, r.condition));
  }

  lemma SettledOwner(r: Run, p: nat, cursor: nat, t: Turn)
    requires RunningOwner(r, p) && p < r.nextPoll && (r.lane.superseded == Some(p) ==> cursor == r.lane.downCursor)
    requires r.lane.superseded != Some(p) ==> t.lane == r.lane && !t.outcome.Parked?
    requires t.outcome.Parked? ==> t.lane == r.lane
    requires r.lane.superseded == Some(p) && !t.outcome.Parked? ==> t.lane.superseded == None
    ensures OwnerInv(Settle(r, p, cursor, t))
  {
  }

  lemma SettleKeepsWake(r: Run, p: nat, cursor: nat, c: Config)
    requires Running(r, p, cursor)
    ensures WakeInv(Settle(r, p, cursor, Loop(r.lane, p, cursor, c.batchLimit, r.condition)))
  {
    LoopFacts(r.lane, p, cursor, c, r.condition);
    var s := Settle(r, p, cursor, Loop(r.lane, p, cursor, c.batchLimit, r.condition));
    if Owed(s) && !s.lane.notify {
      assert Owed(r);
      var w :| w in r.polls && w != p && r.polls[w].woken;
      assert w in s.polls && s.polls[w].woken;
    }
  }

  lemma SettleKeepsNetwork(r: Run, p: nat, cursor: nat, c: Config)
    requires Running(r, p, cursor)
    ensures NetworkInv(Settle(r, p, cursor, Loop(r.lane, p, cursor, c.batchLimit, r.condition)))
  {
    LoopFacts(r.lane, p, cursor, c, r.condition);
    SettledNetwork(r, p, cursor, Loop(r.lane, p, cursor, c.batchLimit, r.condition));
  }

  lemma SettledNetwork(r: Run, p: nat, cursor: nat, t: Turn)
    requires NetworkInv(r) && cursor <= r.clientCursor
    requires t.outcome.Delivered? ==>
      && !Dropped(r) && r.lane.unacked == [] && cursor == |r.batches|
      && t.outcome.next == |r.batches| + 1 && t.lane.unacked == t.outcome.body && t.outcome.body != []
    requires !t.outcome.Delivered? ==> t.lane.queue == r.lane.queue && t.lane.unacked == r.lane.unacked
    ensures NetworkInv(Settle(r, p, cursor, t))
  {
  }

  lemma Regroup(a: seq<Frame>, b: seq<Frame>, c: seq<Frame>)
    ensures (a + b) + c == a + (b + c)
  {
  }

  /** A batch formed moves frames from the queue to the batches. */
  lemma SettleKeepsFrames(r: Run, p: nat, cursor: nat, c: Config)
    requires LaneInv(r.lane)
    ensures var s := Settle(r, p, cursor, Loop(r.lane, p, cursor, c.batchLimit, r.condition));
      && s.pushed == r.pushed && s.condition == r.condition
      && AllFrames(s.batches) + AsFrames(s.lane.queue.frames) == AllFrames(r.batches) + AsFrames(r.lane.queue.frames)
  {
    LoopFacts(r.lane, p, cursor, c, r.condition);
    hide LaneInv, Loop, FramesOf, AsFrames, FormedBatch;
    var s := Settle(r, p, cursor, Loop(r.lane, p, cursor, c.batchLimit, r.condition));
    if s.batches != r.batches {
      var body := s.batches[|r.batches|];
      assert s.batches[..|s.batches| - 1] == r.batches;
      Regroup(AllFrames(r.batches), FramesOf(body), AsFrames(s.lane.queue.frames));
    }
  }

  lemma SettleKeepsOrder(r: Run, p: nat, cursor: nat, c: Config, id: nat)
    requires Running(r, p, cursor)
    ensures OrderInv(Settle(r, p, cursor, Loop(r.lane, p, cursor, c.batchLimit, r.condition)), id)
  {
    hide NetworkInv, RunningOwner, RunningWake, Settle, Loop, AllFrames, AsFrames, Trace, Credit, LaneInv;
    SettleKeepsFrames(r, p, cursor, c);
    assert OrderInv(r, id);
  }

  lemma SettleKeepsInv(r: Run, p: nat, cursor: nat, c: Config)
    requires Running(r, p, cursor)
    ensures RunInv(Settle(r, p, cursor, Loop(r.lane, p, cursor, c.batchLimit, r.condition)))
  {
    SettleKeepsBatches(r, p, cursor, c);
    SettleKeepsOwner(r, p, cursor, c);
    SettleKeepsWake(r, p, cursor, c);
    SettleKeepsNetwork(r, p, cursor, c);
    forall id
      ensures OrderInv(Settle(r, p, cursor, Loop(r.lane, p, cursor, c.batchLimit, r.condition)), id)
    {
      SettleKeepsOrder(r, p, cursor, c, id);
    }
  }

  /** Changes of the lane that leave its queue and its downlink fields alone. */
  predicate SameDownlink(a: Lane, b: Lane) {
    && a.queue == b.queue && a.unacked == b.unacked && a.unackedCost == b.unackedCost
    && a.unackedItems == b.unackedItems
    && a.unackedBase == b.unackedBase && a.downCursor == b.downCursor
  }

  lemma SameOrder(a: Run, b: Run)
    requires a.batches == b.batches && a.lane.queue == b.lane.queue && a.pushed == b.pushed
    requires Dropped(a) ==> Dropped(b)
    ensures (forall id :: OrderInv(a, id)) ==> forall id :: OrderInv(b, id)
  {
    if forall id :: OrderInv(a, id) {
      forall id
        ensures OrderInv(b, id)
      {
        assert OrderInv(a, id);
      }
    }
  }

  lemma ReplayKeepsInv(r: Run, cursor: nat, c: Config)
    requires RunInv(r) && cursor in r.requests && !Dropped(r) && Present(r.lane, cursor).Replayed?
    ensures RunInv(Enter(r, cursor, c))
  {
    ReplayedBatch(r, cursor);
    hide RunInv, Loop, Present, TakeOver;
    var p := Present(r.lane, cursor);
    OneMoreReply(r, Reply(cursor, p.body, p.next));
  }

  lemma OneMoreReply(r: Run, x: Reply)
    requires RunInv(r) && x.cursor < |r.batches| && x.body == r.batches[x.cursor] && x.next == x.cursor + 1
    ensures RunInv(r.(replies := r.replies + {x}))
  {
    SameOrder(r, r.(replies := r.replies + {x}));
    hide OrderInv, LaneInv, FormedBatch;
  }

  /** A replay is the last batch again. */
  lemma ReplayedBatch(r: Run, cursor: nat)
    requires BatchesInv(r) && Present(r.lane, cursor).Replayed?
    ensures var p := Present(r.lane, cursor);
      cursor < |r.batches| && p.body == r.batches[cursor] && p.next == cursor + 1
  {
  }

  /** The run once a poll has presented an acceptable cursor and taken the lane over. */
  function Accept(r: Run, cursor: nat): Run
    requires Present(r.lane, cursor).Accepted?
  {
    var lane := Present(r.lane, cursor).lane;
    r.(lane := TakeOver(lane, r.nextPoll), nextPoll := r.nextPoll + 1, polls := GiveWay(r.polls, Displaced(lane)))
  }

  lemma AcceptedBatches(r: Run, cursor: nat)
    requires RunInv(r) && Present(r.lane, cursor).Accepted?
    ensures BatchesInv(Accept(r, cursor)) && cursor == r.lane.downCursor == Accept(r, cursor).lane.downCursor
  {
    PresentKeepsLaneInv(r.lane, cursor, UpCost);
    var lane := Present(r.lane, cursor).lane;
    assert UnackedFrames(Accept(r, cursor).lane) == UnackedFrames(lane);
  }

  lemma AcceptedOwner(r: Run, cursor: nat)
    requires OwnerInv(r) && BatchesInv(r) && Present(r.lane, cursor).Accepted?
    ensures RunningOwner(Accept(r, cursor), r.nextPoll)
  {
  }

  /** Whoever polls with the newest cursor has every batch, so nothing is lost with the acknowledged one. */
  lemma AcceptedNetwork(r: Run, cursor: nat)
    requires NetworkInv(r) && BatchesInv(r) && Present(r.lane, cursor).Accepted? && cursor in r.requests
        && !Dropped(r)
    ensures NetworkInv(Accept(r, cursor)) && cursor <= r.clientCursor
  {
  }

  lemma EnterKeepsInv(r: Run, cursor: nat, c: Config)
    requires RunInv(r) && cursor in r.requests && !Dropped(r)
    ensures RunInv(Enter(r, cursor, c))
  {
    match Present(r.lane, cursor)
    case BadCursor =>
    case Replayed(_, _) =>
      ReplayKeepsInv(r, cursor, c);
    case Accepted(_, _, _) =>
      AcceptedBatches(r, cursor);
      AcceptedOwner(r, cursor);
      AcceptedNetwork(r, cursor);
      SameOrder(r, Accept(r, cursor));
      SettleKeepsInv(Accept(r, cursor), r.nextPoll, cursor, c);
  }

  lemma Associate(a: seq<int>, b: seq<int>, c: seq<int>)
    ensures a + (b + c) == (a + b) + c
  {
  }

  lemma AppendKeepsTrace(batched: seq<Frame>, queued: seq<Frame>, after: seq<Frame>, pushed: seq<Frame>, f: Frame,
      id: nat)
    requires Trace(batched + queued, id) == Trace(pushed, id)
    requires Trace(after, id) == Trace(queued + [f], id)
    ensures Trace(batched + after, id) == Trace(pushed + [f], id)
  {
    ViewConcat(batched, queued, id);
    ViewConcat(batched, after, id);
    ViewSnoc(queued, f, id);
    ViewSnoc(pushed, f, id);
    Associate(Trace(batched, id), Trace(queued, id), TraceOf(f, id));
  }

  lemma AppendKeepsCredit(batched: seq<Frame>, queued: seq<Frame>, after: seq<Frame>, pushed: seq<Frame>, f: Frame,
      id: nat)
    requires Credit(batched + queued, id) == Credit(pushed, id)
    requires Credit(after, id) == Credit(queued + [f], id)
    ensures Credit(batched + after, id) == Credit(pushed + [f], id)
  {
    ViewConcat(batched, queued, id);
    ViewConcat(batched, after, id);
    ViewSnoc(queued, f, id);
    ViewSnoc(pushed, f, id);
  }

  lemma PushStep(r: Run, f: Frame, c: Config)
    requires Pushable(f, c.maxFramePayload) && !Dropped(r)
    ensures var s := Step(r, FramePushed(f), c);
      && s.lane.queue == Push(r.lane.queue, f, c.maxFramePayload)
      && s.batches == r.batches && s.pushed == r.pushed + [f]
  {
  }

  lemma PushKeepsOrder(r: Run, f: Frame, c: Config, id: nat)
    requires QueueInv(r.lane.queue) && OrderInv(r, id) && Pushable(f, c.maxFramePayload) && !Dropped(r)
    ensures OrderInv(Step(r, FramePushed(f), c), id)
  {
    var q, batched := r.lane.queue, AllFrames(r.batches);
    var after := AsFrames(Push(q, f, c.maxFramePayload).frames);
    PushRefinesAppend(q, f, c.maxFramePayload, id);
    AppendKeepsTrace(batched, AsFrames(q.frames), after, r.pushed, f, id);
    AppendKeepsCredit(batched, AsFrames(q.frames), after, r.pushed, f, id);
    PushStep(r, f, c);
  }

  lemma PushKeepsBatches(r: Run, f: Frame, c: Config)
    requires BatchesInv(r) && Pushable(f, c.maxFramePayload) && !Dropped(r)
    ensures BatchesInv(Step(r, FramePushed(f), c))
  {
    hide LaneInv, Pushable, FormedBatch, LaneCharge, Admit, Enqueue, Step;
    EnqueueKeepsLaneInv(r.lane, f, c.maxFramePayload, UpCost);
    PushedLane(r, f, c);
  }

  lemma PushedLane(r: Run, f: Frame, c: Config)
    requires Pushable(f, c.maxFramePayload) && !Dropped(r)
    ensures var s, l := Step(r, FramePushed(f), c), Enqueue(r.lane, f, c.maxFramePayload);
      && s.lane == l && s.batches == r.batches
      && l.unacked == r.lane.unacked && l.unackedBase == r.lane.unackedBase && l.downCursor == r.lane.downCursor
  {
    hide Push, Pushable;
  }

  lemma PushKeepsRest(r: Run, f: Frame, c: Config)
    requires OwnerInv(r) && NetworkInv(r) && Pushable(f, c.maxFramePayload) && !Dropped(r)
    ensures var s := Step(r, FramePushed(f), c);
      OwnerInv(s) && WakeInv(s) && NetworkInv(s)
  {
  }

  lemma PushKeepsRunInv(r: Run, f: Frame, c: Config)
    requires RunInv(r) && Pushable(f, c.maxFramePayload) && !Dropped(r)
    ensures RunInv(Step(r, FramePushed(f), c))
  {
    PushKeepsBatches(r, f, c);
    PushKeepsRest(r, f, c);
    forall id
      ensures OrderInv(Step(r, FramePushed(f), c), id)
    {
      assert OrderInv(r, id);
      PushKeepsOrder(r, f, c, id);
    }
  }

  lemma WokenKeepsInv(r: Run, p: nat, c: Config)
    requires RunInv(r) && p in r.polls && r.polls[p].woken
    ensures RunInv(Step(r, WokenRuns(p), c))
  {
    var cursor := r.polls[p].cursor;
    var signalled := r.(lane := if r.lane.superseded != Some(p) then Signal(r.lane) else r.lane);
    PassedOnRuns(r, p);
    WokenStep(r, p, c);
    hide RunInv, Running, Settle, Loop, Step;
    SettleKeepsInv(signalled, p, cursor, c);
  }

  lemma PassedOnRuns(r: Run, p: nat)
    requires RunInv(r) && p in r.polls && r.polls[p].woken
    ensures Running(r.(lane := if r.lane.superseded != Some(p) then Signal(r.lane) else r.lane), p, r.polls[p].cursor)
  {
    var signalled := r.(lane := if r.lane.superseded != Some(p) then Signal(r.lane) else r.lane);
    SameOrder(r, signalled);
    hide OrderInv;
    assert UnackedFrames(signalled.lane) == UnackedFrames(r.lane);
    assert LaneInv(signalled.lane);
  }

  lemma WokenStep(r: Run, p: nat, c: Config)
    requires p in r.polls && r.polls[p].woken
    ensures var signalled := r.(lane := if r.lane.superseded != Some(p) then Signal(r.lane) else r.lane);
      var cursor := r.polls[p].cursor;
      Step(r, WokenRuns(p), c)
        == Settle(signalled, p, cursor, Loop(signalled.lane, p, cursor, c.batchLimit, r.condition))
  {
    hide Loop;
  }

  /** A waiting poll leaves, resigning the lane if it owns it or passing a token on. */
  lemma LeaveKeepsInv(r: Run, s: Run, p: nat)
    requires RunInv(r) && Waiting(r, p)
    requires s == r.(lane := s.lane, polls := r.polls - {p}) && SameDownlink(r.lane, s.lane)
    requires s.lane.notify || s.lane.notify == r.lane.notify
    requires r.lane.superseded == Some(p) ==> s.lane.superseded == None && !s.lane.downActive
    requires r.lane.superseded != Some(p) ==>
      s.lane.superseded == r.lane.superseded && s.lane.downActive == r.lane.downActive
    ensures RunInv(s)
  {
    assert UnackedFrames(s.lane) == UnackedFrames(r.lane);
    LeaveKeepsWake(r, s, p);
    SameOrder(r, s);
  }

  lemma LeaveKeepsWake(r: Run, s: Run, p: nat)
    requires WakeInv(r) && Waiting(r, p)
    requires s == r.(lane := s.lane, polls := r.polls - {p}) && SameDownlink(r.lane, s.lane)
    requires s.lane.notify || s.lane.notify == r.lane.notify
    requires r.lane.superseded == Some(p) ==> s.lane.superseded == None
    requires r.lane.superseded != Some(p) ==> s.lane.superseded == r.lane.superseded
    ensures WakeInv(s)
  {
    if Owed(s) && !s.lane.notify {
      assert Owed(r);
      var w :| w in r.polls && r.polls[w].woken;
      assert w in s.polls && s.polls[w].woken;
    }
  }

  lemma DeadlineStep(r: Run, p: nat, c: Config)
    requires Waiting(r, p)
    ensures var cursor := r.polls[p].cursor;
      var lane := Deadline(r.lane, p, cursor, c.batchLimit, r.condition).lane;
      Step(r, DeadlineFires(p), c)
      == if r.lane.superseded == Some(p) && r.lane.queue.frames != []
         then Settle(r, p, cursor, Loop(r.lane, p, cursor, c.batchLimit, r.condition))
         else r.(lane := lane, polls := r.polls - {p})
  {
  }

  lemma DeadlineKeepsInv(r: Run, p: nat, c: Config)
    requires RunInv(r) && Waiting(r, p)
    ensures RunInv(Step(r, DeadlineFires(p), c))
  {
    var cursor := r.polls[p].cursor;
    DeadlineStep(r, p, c);
    if r.lane.superseded == Some(p) && r.lane.queue.frames != [] {
      SettleKeepsInv(r, p, cursor, c);
    } else {
      var lane := Deadline(r.lane, p, cursor, c.batchLimit, r.condition).lane;
      LeaveKeepsInv(r, r.(lane := lane, polls := r.polls - {p}), p);
    }
  }

  /** The lane is signalled, and perhaps emptied or told that it is over. */
  lemma OverKeepsInv(r: Run, s: Run)
    requires RunInv(r)
    requires s == r.(lane := s.lane, condition := s.condition)
    requires s.lane == Signal(r.lane) || (s.lane == Emptied(r.lane) && Dropped(s))
        || (s.lane == r.lane && (Over(s.condition) ==> Over(r.condition)))
    requires Dropped(r) ==> Dropped(s)
    requires Dropped(s) ==> Dropped(r) || s.lane == Emptied(r.lane)
    ensures RunInv(s)
  {
    if s.lane == Emptied(r.lane) && Dropped(s) {
      EmptiedKeepsLaneInv(r.lane);
    } else {
      assert UnackedFrames(s.lane) == UnackedFrames(r.lane);
      SameOrder(r, s);
    }
  }

  lemma TokenKeepsInv(r: Run, p: nat, c: Config)
    requires RunInv(r) && Waiting(r, p) && r.lane.notify
    ensures RunInv(Step(r, TokenTaken(p), c))
  {
    var s := Step(r, TokenTaken(p), c);
    assert UnackedFrames(s.lane) == UnackedFrames(r.lane);
    SameOrder(r, s);
    assert p in s.polls && s.polls[p].woken;
  }

  /** The client accepts the batch its cursor names, once. */
  lemma ClientKeepsNetwork(r: Run, e: Event, c: Config)
    requires NetworkInv(r) && (e.ClientPolls? || e.ReplyArrives?)
    ensures NetworkInv(Step(r, e, c))
  {
    if e.ReplyArrives? && e.reply in r.replies && e.reply.cursor == r.clientCursor {
      assert r.batches[..r.clientCursor] + [r.batches[r.clientCursor]] == r.batches[..r.clientCursor + 1];
    }
  }

  lemma ClientKeepsInv(r: Run, e: Event, c: Config)
    requires RunInv(r) && (e.ClientPolls? || e.ReplyArrives?)
    ensures RunInv(Step(r, e, c))
  {
    ClientKeepsNetwork(r, e, c);
    ClientLeavesRelay(r, Step(r, e, c));
    SameOrder(r, Step(r, e, c));
  }

  lemma ClientLeavesRelay(r: Run, s: Run)
    requires s.lane == r.lane && s.polls == r.polls && s.nextPoll == r.nextPoll
    requires s.batches == r.batches && s.condition == r.condition
    ensures BatchesInv(r) ==> BatchesInv(s)
    ensures OwnerInv(r) ==> OwnerInv(s)
    ensures WakeInv(r) ==> WakeInv(s)
  {
  }

  /** Every event keeps the invariant. */
  lemma StepKeepsInv(r: Run, e: Event, c: Config)
    requires RunInv(r)
    ensures RunInv(Step(r, e, c))
  {
    match e
    case ClientPolls => ClientKeepsInv(r, e, c);
    case ReplyArrives(_) => ClientKeepsInv(r, e, c);
    case RequestArrives(cursor) => if cursor in r.requests && !Dropped(r) { EnterKeepsInv(r, cursor, c); }
    case FramePushed(f) => if Pushable(f, c.maxFramePayload) && !Dropped(r) { PushKeepsRunInv(r, f, c); }
    case TokenTaken(p) => if Waiting(r, p) && r.lane.notify { TokenKeepsInv(r, p, c); }
    case WokenRuns(p) => if p in r.polls && r.polls[p].woken { WokenKeepsInv(r, p, c); }
    case ContextDone(p) => if Waiting(r, p) { LeaveKeepsInv(r, Step(r, e, c), p); }
    case DisplacedReturns(p) => if Waiting(r, p) && r.polls[p].displaced { LeaveKeepsInv(r, Step(r, e, c), p); }
    case SessionDone(p) => if Waiting(r, p) && r.condition.closed { LeaveKeepsInv(r, Step(r, e, c), p); }
    case DeadlineFires(p) => if Waiting(r, p) { DeadlineKeepsInv(r, p, c); }
    case StreamEnds => OverKeepsInv(r, Step(r, e, c));
    case LaneDetached => OverKeepsInv(r, Step(r, e, c));
    case SessionCloses => OverKeepsInv(r, Step(r, e, c));
    case Signalled => OverKeepsInv(r, Step(r, e, c));
  }

  lemma {:induction false} ReachableInv(events: seq<Event>, c: Config)
    ensures RunInv(RunFrom(START, events, c))
  {
    RunUnfolds(START, events, c);
    hide Step, RunInv;
    if events == [] {
      FreshRun(START);
    } else {
      ReachableInv(events[..|events| - 1], c);
      StepKeepsInv(RunFrom(START, events[..|events| - 1], c), events[|events| - 1], c);
    }
  }

  // ------------------------------------------------------------------ what it means

  /** Exactly once: in every run the client holds precisely the batches up to its cursor, in order, and
      until the session drops the lane at most the last batch formed is missing. */
  lemma DownlinkExactlyOnce(events: seq<Event>, c: Config)
    ensures var r := RunFrom(START, events, c);
      && r.clientCursor <= |r.batches| && r.received == r.batches[..r.clientCursor]
      && (!Dropped(r) ==> |r.batches| - 1 <= r.clientCursor)
      && (forall x :: x in r.replies ==>
            x.cursor < |r.batches| && x.body == r.batches[x.cursor] && x.next == x.cursor + 1)
  {
    ReachableInv(events, c);
  }

  /** What of the batches and the queue the client does not hold yet. */
  function Outstanding(r: Run): seq<Frame> {
    (if r.clientCursor < |r.batches| then FramesOf(r.lane.unacked) else []) + AsFrames(r.lane.queue.frames)
  }

  /** Complete and in order: until the lane is dropped, what the client holds followed by what the relay
      still keeps is, to every stream, exactly what was pushed: its DATA bytes, the place of its CLOSE
      among them, and its WINDOW credit. */
  lemma DownlinkComplete(events: seq<Event>, c: Config, id: nat)
    requires !Dropped(RunFrom(START, events, c))
    ensures var r := RunFrom(START, events, c);
      var all := AllFrames(r.received) + Outstanding(r);
      Trace(all, id) == Trace(r.pushed, id) && Credit(all, id) == Credit(r.pushed, id)
  {
    ReachableInv(events, c);
    HeldIsReceivedAndOutstanding(RunFrom(START, events, c), id);
  }

  lemma HeldIsReceivedAndOutstanding(r: Run, id: nat)
    requires RunInv(r) && !Dropped(r)
    ensures AllFrames(r.batches) + AsFrames(r.lane.queue.frames) == AllFrames(r.received) + Outstanding(r)
    ensures var all := AllFrames(r.received) + Outstanding(r);
      Trace(all, id) == Trace(r.pushed, id) && Credit(all, id) == Credit(r.pushed, id)
  {
    hide RunInv, Trace, Credit, AllFrames, AsFrames, Outstanding, Dropped;
    OrderMeans(r, id);
    HeldFrames(r);
  }

  /** What the invariant says of one stream. */
  lemma OrderMeans(r: Run, id: nat)
    requires RunInv(r) && !Dropped(r)
    ensures var held := AllFrames(r.batches) + AsFrames(r.lane.queue.frames);
      Trace(held, id) == Trace(r.pushed, id) && Credit(held, id) == Credit(r.pushed, id)
  {
    hide OwnerInv, WakeInv, Trace, Credit, AllFrames, AsFrames, FramesOf, LaneInv;
    assert OrderInv(r, id);
  }

  lemma HeldFrames(r: Run)
    requires RunInv(r) && !Dropped(r)
    ensures AllFrames(r.batches) + AsFrames(r.lane.queue.frames) == AllFrames(r.received) + Outstanding(r)
  {
    hide OrderInv, OwnerInv, WakeInv, Trace, Credit, AsFrames, FramesOf, LaneInv;
    var n, queued := |r.batches|, AsFrames(r.lane.queue.frames);
    if r.clientCursor == n {
      assert r.received == r.batches && Outstanding(r) == queued;
    } else {
      assert r.received == r.batches[..n - 1];
      assert AllFrames(r.batches) == AllFrames(r.received) + FramesOf(r.batches[n - 1]);
      Regroup(AllFrames(r.received), FramesOf(r.lane.unacked), queued);
    }
  }

  /** What a poll with the client's own cursor leads to, from `r` to `s`: the batch the client misses is
      replayed; if it misses none, it gets the next batch, or the end of the lane, and otherwise waits as
      the lane's owner. */
  predicate Served(r: Run, s: Run) {
    var q, me := r.clientCursor, r.nextPoll;
    if q < |r.batches| then q == |r.batches| - 1 && s == r.(replies := r.replies + {Reply(q, r.batches[q], q + 1)})
    else if r.lane.queue.frames != [] then
      && |s.batches| == q + 1 && s.batches[..q] == r.batches && me !in s.polls
      && s.replies == r.replies + {Reply(q, s.batches[q], q + 1)}
    else
      && s.batches == r.batches && s.replies == r.replies
      && (if Over(r.condition) then s.lane.superseded == None && me !in s.polls
          else s.lane.superseded == Some(me) && Waiting(s, me))
  }

  /** A poll with the client's own cursor is never turned away. */
  lemma ClientIsServed(events: seq<Event>, c: Config)
    requires var r := RunFrom(START, events, c); r.clientCursor in r.requests && !Dropped(r)
    ensures var r := RunFrom(START, events, c); Served(r, Step(r, RequestArrives(r.clientCursor), c))
  {
    ReachableInv(events, c);
    hide Served;
    ServedIn(RunFrom(START, events, c), c);
  }

  lemma ServedIn(r: Run, c: Config)
    requires BatchesInv(r) && OwnerInv(r) && NetworkInv(r) && r.clientCursor in r.requests && !Dropped(r)
    ensures Served(r, Step(r, RequestArrives(r.clientCursor), c))
  {
    hide LaneInv, FormedBatch, TakeBatch, AfterBatch;
  }

  /** At the deadline the lane's owner gets what is pending, or an empty reply and gives the lane up; a poll
      that no longer owns it passes the token on. */
  lemma DeadlineAnswers(events: seq<Event>, c: Config, p: nat)
    requires Waiting(RunFrom(START, events, c), p)
    ensures var r := RunFrom(START, events, c);
      var s := Step(r, DeadlineFires(p), c);
      && p !in s.polls
      && (r.lane.superseded != Some(p) ==> s.lane == Signal(r.lane) && s.batches == r.batches)
      && (r.lane.superseded == Some(p) ==>
            s.lane.superseded == None && |s.batches| == |r.batches| + (if r.lane.queue.frames != [] then 1 else 0))
  {
    hide LaneInv, FormedBatch, TakeBatch, AfterBatch;
  }

  /** No lost wake-up: whenever the owning poll is parked and there is something for it, the token is
      there for it to take, or some woken poll is about to run. */
  lemma NoLostWakeup(events: seq<Event>, c: Config)
    requires Owed(RunFrom(START, events, c))
    ensures var r := RunFrom(START, events, c);
      || r.lane.notify
      || exists w :: w in r.polls && r.polls[w].woken
  {
    ReachableInv(events, c);
  }

  /** What an event does to the queue: a push, a batch taken from the front, or everything dropped. */
  predicate QueueMoves(a: Queue, b: Queue, e: Event, c: Config) {
    || b == a
    || b == EMPTY_QUEUE
    || (e.FramePushed? && Pushable(e.frame, c.maxFramePayload) && b == Push(a, e.frame, c.maxFramePayload))
    || b == AfterBatch(a, c.batchLimit)
  }

  lemma LoopMoves(l: Lane, me: nat, cursor: nat, c: Config, condition: Condition, e: Event)
    ensures QueueMoves(l.queue, Loop(l, me, cursor, c.batchLimit, condition).lane.queue, e, c)
    ensures QueueMoves(l.queue, AfterToken(l, me, cursor, c.batchLimit, condition).lane.queue, e, c)
    ensures QueueMoves(l.queue, Deadline(l, me, cursor, c.batchLimit, condition).lane.queue, e, c)
  {
    hide Push, TakeBatch, AfterBatch;
  }

  lemma SettledQueue(r: Run, p: nat, cursor: nat, t: Turn)
    ensures Settle(r, p, cursor, t).lane == t.lane
  {
  }

  lemma StepMovesQueue(r: Run, e: Event, c: Config)
    ensures QueueMoves(r.lane.queue, Step(r, e, c).lane.queue, e, c)
  {
    hide Push, AfterBatch, TakeBatch, Loop, AfterToken, Deadline, Settle, QueueMoves;
    QueueMovesMeans(r.lane.queue, e, c);
    match e
    case RequestArrives(cursor) =>
      if Present(r.lane, cursor).Accepted? {
        var entered := Accept(r, cursor);
        LoopMoves(entered.lane, r.nextPoll, cursor, c, r.condition, e);
        SettledQueue(entered, r.nextPoll, cursor,
            Loop(entered.lane, r.nextPoll, cursor, c.batchLimit, r.condition));
      }
    case WokenRuns(p) =>
      if p in r.polls {
        LoopMoves(r.lane, p, r.polls[p].cursor, c, r.condition, e);
        SettledQueue(r, p, r.polls[p].cursor, AfterToken(r.lane, p, r.polls[p].cursor, c.batchLimit, r.condition));
      }
    case DeadlineFires(p) =>
      if p in r.polls {
        LoopMoves(r.lane, p, r.polls[p].cursor, c, r.condition, e);
        SettledQueue(r, p, r.polls[p].cursor, Deadline(r.lane, p, r.polls[p].cursor, c.batchLimit, r.condition));
      }
    case _ =>
  }

  lemma QueueMovesMeans(a: Queue, e: Event, c: Config)
    ensures QueueMoves(a, a, e, c) && QueueMoves(a, EMPTY_QUEUE, e, c)
    ensures e.FramePushed? && Pushable(e.frame, c.maxFramePayload) ==>
      QueueMoves(a, Push(a, e.frame, c.maxFramePayload), e, c)
  {
  }

  lemma MovesKeepCompact(a: Queue, b: Queue, e: Event, c: Config)
    requires QueueInv(a) && Compact(AsFrames(a.frames), c.maxFramePayload) && QueueMoves(a, b, e, c)
    ensures Compact(AsFrames(b.frames), c.maxFramePayload)
  {
    hide Push, Compact, QueueInv, Pushable;
    if e.FramePushed? && Pushable(e.frame, c.maxFramePayload) {
      PushKeepsCompact(a, e.frame, c.maxFramePayload);
    }
    var n := TakeCount(a.frames, c.batchLimit, 0, 0);
    RestIsCompact(AsFrames(a.frames), n, c.maxFramePayload);
    assert AsFrames(AfterBatch(a, c.batchLimit).frames) == AsFrames(a.frames)[n..];
    NothingIsCompact(c.maxFramePayload);
  }

  lemma NothingIsCompact(maxFramePayload: int)
    ensures Compact(AsFrames(EMPTY_QUEUE.frames), maxFramePayload)
  {
  }

  /** Merging never falls behind: whatever the lane goes through, no two neighbours in its queue are DATA of
      one stream that one frame could carry, and no two successive grants of a stream fit into one. */
  lemma {:induction false} QueueStaysCompact(events: seq<Event>, c: Config)
    ensures Compact(AsFrames(RunFrom(START, events, c).lane.queue.frames), c.maxFramePayload)
    decreases |events|
  {
    hide Step, RunInv, Compact, RunFrom;
    RunUnfolds(START, events, c);
    if events == [] {
      NothingIsCompact(c.maxFramePayload);
    } else {
      var before := events[..|events| - 1];
      var r := RunFrom(START, before, c);
      QueueStaysCompact(before, c);
      ReachableInv(before, c);
      InvMeansQueue(r);
      StepMovesQueue(r, events[|events| - 1], c);
      MovesKeepCompact(r.lane.queue, Step(r, events[|events| - 1], c).lane.queue, events[|events| - 1], c);
    }
  }

  lemma InvMeansQueue(r: Run)
    requires RunInv(r)
    ensures QueueInv(r.lane.queue)
  {
  }

  /** A woken poll does not waste its token: it takes what is pending if the lane is its own, and
      passes the token on otherwise. */
  lemma WokenPollActs(events: seq<Event>, c: Config, w: nat)
    requires w in RunFrom(START, events, c).polls && RunFrom(START, events, c).polls[w].woken
    ensures var r := RunFrom(START, events, c);
      var s := Step(r, WokenRuns(w), c);
      if r.lane.superseded != Some(w) then s.lane.notify
      else if r.lane.queue.frames != [] then |s.batches| == |r.batches| + 1 && w !in s.polls
      else if Over(r.condition) then w !in s.polls && s.lane.superseded == None
      else Waiting(s, w)
  {
  }

  /** So the wake-up that is owed is used: the token is there, or some woken poll will pass it on, take the
      batch or report the end. */
  lemma WakeupIsUsed(events: seq<Event>, c: Config)
    requires Owed(RunFrom(START, events, c))
    ensures var r := RunFrom(START, events, c);
      || r.lane.notify
      || exists w :: w in r.polls && r.polls[w].woken
           && var s := Step(r, WokenRuns(w), c);
              s.lane.notify || |s.batches| == |r.batches| + 1 || (Over(r.condition) && w !in s.polls)
  {
    hide Step;
    NoLostWakeup(events, c);
    var r := RunFrom(START, events, c);
    if !r.lane.notify {
      var w :| w in r.polls && r.polls[w].woken;
      WokenPollActs(events, c, w);
    }
  }

  /** The poll that an event makes report the lane as closed, if any. */
  predicate ReportsLaneOver(r: Run, e: Event, c: Config) {
    match e
    case WokenRuns(p) =>
      && p in r.polls && r.polls[p].woken
      && AfterToken(r.lane, p, r.polls[p].cursor, c.batchLimit, r.condition).outcome == LaneOver
    case RequestArrives(cursor) =>
      && cursor in r.requests && !Dropped(r) && Present(r.lane, cursor).Accepted?
      && Loop(Accept(r, cursor).lane, r.nextPoll, cursor, c.batchLimit, r.condition).outcome == LaneOver
    case _ => false
  }

  lemma OverMeansIdle(r: Run, e: Event, c: Config)
    requires RunInv(r) && ReportsLaneOver(r, e, c)
    ensures r.lane.queue.frames == [] && (r.condition.ended || r.condition.detached)
    ensures Step(r, e, c).lane.unacked == []
    ensures !Dropped(r) ==> r.clientCursor == |r.batches|
  {
    match e
    case WokenRuns(p) => LoopFacts(r.lane, p, r.polls[p].cursor, c, r.condition);
    case RequestArrives(cursor) =>
      AcceptedBatches(r, cursor);
      AcceptedNetwork(r, cursor);
      LoopFacts(Accept(r, cursor).lane, r.nextPoll, cursor, c, r.condition);
  }

  lemma IdleMeansDelivered(r: Run, id: nat)
    requires RunInv(r) && !Dropped(r) && r.lane.queue.frames == [] && r.clientCursor == |r.batches|
    ensures r.received == r.batches
    ensures Trace(AllFrames(r.received), id) == Trace(r.pushed, id)
    ensures Credit(AllFrames(r.received), id) == Credit(r.pushed, id)
  {
    HeldIsReceivedAndOutstanding(r, id);
    assert AsFrames(r.lane.queue.frames) == [];
    assert AllFrames(r.received) + [] == AllFrames(r.received);
  }

  /** Clean close: a poll reports the lane as closed only when nothing is queued or unacknowledged and
      the stream is over or the lane is gone; unless the lane was dropped, the client then holds every
      batch, and with them everything that was ever pushed. */
  lemma CleanClose(events: seq<Event>, e: Event, c: Config, id: nat)
    requires ReportsLaneOver(RunFrom(START, events, c), e, c)
    ensures var r := RunFrom(START, events, c);
      && r.lane.queue.frames == []
      && Step(r, e, c).lane.unacked == []
      && (r.condition.ended || r.condition.detached)
      && (!Dropped(r) ==>
          && r.received == r.batches
          && Trace(AllFrames(r.received), id) == Trace(r.pushed, id)
          && Credit(AllFrames(r.received), id) == Credit(r.pushed, id))
  {
    ReachableInv(events, c);
    OverMeansIdle(RunFrom(START, events, c), e, c);
    if !Dropped(RunFrom(START, events, c)) {
      IdleMeansDelivered(RunFrom(START, events, c), id);
    }
  }
}
