/** From the page to the streams: the bridge's packing (`internal/bridge/page.go`) over the
    stop-and-wait uplink (`internal/session/session.go`). What the relay parses out of the batches it
    has committed on a lane is, at any time, the first part of the frames the page has queued for it. */
module Delivery {
  import opened Options
  import opened Frames
  import opened Bridges
  import opened SessionState
  import opened Uplink
  import SessionRuns

  /** One queue of the bridge and the uplink it feeds. */
  datatype Link = Link(up: UpRun, queued: History, pending: seq<Bytes>)

  datatype LinkEvent =
    | Queues(data: Bytes)
    | Packs(joined: Joined, taken: seq<Frame>)
    | OnUplink(event: UpEvent)

  /** What `JoinPending` can answer for this queue. */
  predicate CanJoin(pending: seq<Bytes>, r: Joined, taken: seq<Frame>, batchLimit: nat) {
    && pending != [] && Conserves(pending, r)
    && (AllWellFormed(pending) ==>
          AllWellFormed(r.rest) && Acceptable(r.body, taken, batchLimit) && taken + AllIn(r.rest) == AllIn(pending))
  }

  /** The sending loop packs the next body when the one before has been acknowledged. */
  predicate Idle(x: UpRun) { x.acked == |x.sent| && |x.sent| < MAX_SAFE_INTEGER }

  /** An event changes the link if it is possible in it, and otherwise nothing. */
  function LinkStep(k: Link, e: LinkEvent, batchLimit: nat): Link {
    match e
    case Queues(data) => k.(queued := QueuedIn(k.queued, data), pending := k.pending + [data])
    case Packs(r, taken) =>
      if !Idle(k.up) || !CanJoin(k.pending, r, taken, batchLimit) then k
      else Link(UpStep(k.up, BridgeTakes(r.body)), k.queued.(sent := k.queued.sent + [r.body]), r.rest)
    case OnUplink(event) => if event.BridgeTakes? then k else k.(up := UpStep(k.up, event))
  }

  /** The run, event by event. It is in three parts so that proofs look at a step only where they ask to,
      by `LinkUnfolds`. */
  function LinkRun(k: Link, events: seq<LinkEvent>, batchLimit: nat): Link
    decreases |events|, 2
  {
    LinkEvents(k, events, batchLimit)
  }

  function LinkEvents(k: Link, events: seq<LinkEvent>, batchLimit: nat): Link
    decreases |events|, 1
  {
    if events == [] then k else LinkLastEvent(k, events, batchLimit)
  }

  function LinkLastEvent(k: Link, events: seq<LinkEvent>, batchLimit: nat): Link
    requires events != []
    decreases |events|, 0
  {
    LinkStep(LinkRun(k, events[..|events| - 1], batchLimit), events[|events| - 1], batchLimit)
  }

  lemma LinkUnfolds(k: Link, events: seq<LinkEvent>, batchLimit: nat)
    ensures events == [] ==> LinkRun(k, events, batchLimit) == k
    ensures events != [] ==>
      LinkRun(k, events, batchLimit)
        == LinkStep(LinkRun(k, events[..|events| - 1], batchLimit), events[|events| - 1], batchLimit)
  {
    hide LinkStep;
    assert LinkRun(k, events, batchLimit) == LinkEvents(k, events, batchLimit);
    if events != [] {
      assert LinkEvents(k, events, batchLimit) == LinkLastEvent(k, events, batchLimit);
    }
  }

  ghost predicate FreshLink(k: Link) { Fresh(k.up) && k.queued == NOTHING_QUEUED && k.pending == [] }

  ghost predicate LinkInv(k: Link, batchLimit: nat) {
    UpInv(k.up) && Tracks(k.queued, k.pending, batchLimit) && k.queued.sent == k.up.sent
  }

  lemma OnlyTakingSends(x: UpRun, e: UpEvent)
    requires !e.BridgeTakes?
    ensures UpStep(x, e).sent == x.sent
  {
    hide SessionRuns.Step, UpLane, UpBegin, UpFinish, OnThisLane;
  }

  lemma LinkStepKeepsInv(k: Link, e: LinkEvent, batchLimit: nat)
    requires LinkInv(k, batchLimit)
    ensures LinkInv(LinkStep(k, e, batchLimit), batchLimit)
  {
    hide UpInv, Tracks, CanJoin, Arrives, UpFinish, OnThisLane, SessionRuns.Step;
    match e
    case Queues(data) => TracksQueued(k.queued, k.pending, batchLimit, data);
    case Packs(r, taken) =>
      if Idle(k.up) && CanJoin(k.pending, r, taken, batchLimit) {
        JoinTracks(k, r, taken, batchLimit);
        UpStepKeepsInv(k.up, BridgeTakes(r.body));
      }
    case OnUplink(event) =>
      if !event.BridgeTakes? {
        UpStepKeepsInv(k.up, event);
        OnlyTakingSends(k.up, event);
      }
  }

  lemma JoinTracks(k: Link, r: Joined, taken: seq<Frame>, batchLimit: nat)
    requires Tracks(k.queued, k.pending, batchLimit) && CanJoin(k.pending, r, taken, batchLimit)
    ensures Tracks(k.queued.(sent := k.queued.sent + [r.body]), r.rest, batchLimit)
  {
    TracksSent(k.queued, k.pending, batchLimit, r, taken);
  }

  lemma {:induction false} LinkReachable(k: Link, events: seq<LinkEvent>, batchLimit: nat)
    requires FreshLink(k)
    ensures LinkInv(LinkRun(k, events, batchLimit), batchLimit)
  {
    hide UpInv, LinkStep, Tracks, Fresh;
    LinkUnfolds(k, events, batchLimit);
    if events == [] {
      FreshInv(k.up);
      TracksNothing(batchLimit);
      FreshSent(k.up);
    } else {
      var n := |events| - 1;
      LinkReachable(k, events[..n], batchLimit);
      LinkStepKeepsInv(LinkRun(k, events[..n], batchLimit), events[n], batchLimit);
    }
  }

  lemma FreshSent(x: UpRun)
    requires Fresh(x)
    ensures x.sent == []
  {
    hide SessionPart;
  }

  // ------------------------------------------------------------------------- the theorem

  lemma {:induction false} DeliveredConcat(a: seq<Bytes>, b: seq<Bytes>)
    ensures Delivered(a + b) == Delivered(a) + Delivered(b)
    decreases |b|
  {
    hide BodyFrames;
    if b == [] {
      assert a + b == a;
    } else {
      var n := |b| - 1;
      assert (a + b)[..|a + b| - 1] == a + b[..n];
      DeliveredConcat(a, b[..n]);
      assert (Delivered(a) + Delivered(b[..n])) + BodyFrames(b[n])
        == Delivered(a) + (Delivered(b[..n]) + BodyFrames(b[n]));
    }
  }

  /** In every run of a page that queues well-formed items, a network that delays, repeats and loses,
      and a relay with anything else going on, as long as no request strays: the frames of the committed
      batches are the first frames queued, in order and each once; the rest is in at most one body under
      way and in the queue. */
  lemma DeliveredInOrder(k: Link, events: seq<LinkEvent>, batchLimit: nat)
    requires FreshLink(k) && LinkRun(k, events, batchLimit).queued.good && !LinkRun(k, events, batchLimit).up.strayed
    ensures var y := LinkRun(k, events, batchLimit);
      var n := |y.up.committed|;
      && n <= |y.up.sent| <= n + 1
      && y.queued.frames == Delivered(y.up.committed) + Delivered(y.up.sent[n..]) + AllIn(y.pending)
      && Delivered(y.up.committed) <= y.queued.frames
      && (forall i :: 0 <= i < |y.up.sent| ==> Deliverable(y.up.sent[i], batchLimit))
  {
    LinkReachable(k, events, batchLimit);
    hide LinkInv;
    InvDelivers(LinkRun(k, events, batchLimit), batchLimit);
  }

  lemma InvDelivers(y: Link, batchLimit: nat)
    requires LinkInv(y, batchLimit) && y.queued.good && !y.up.strayed
    ensures var n := |y.up.committed|;
      && n <= |y.up.sent| <= n + 1
      && y.queued.frames == Delivered(y.up.committed) + Delivered(y.up.sent[n..]) + AllIn(y.pending)
      && Delivered(y.up.committed) <= y.queued.frames
      && (forall i :: 0 <= i < |y.up.sent| ==> Deliverable(y.up.sent[i], batchLimit))
  {
    hide UpInv, Delivered, AllIn, AllWellFormed, Deliverable;
    BridgeIsAhead(y.up);
    var n := |y.up.committed|;
    DeliveredConcat(y.up.sent[..n], y.up.sent[n..]);
    assert y.up.sent == y.up.sent[..n] + y.up.sent[n..];
  }

  lemma BridgeIsAhead(x: UpRun)
    requires UpInv(x) && !x.strayed
    ensures |x.committed| <= |x.sent| <= |x.committed| + 1 && x.committed == x.sent[..|x.committed|]
    ensures x.acked <= |x.committed|
  {
    hide SessionPart, GatePart;
  }

  /** Once the queue is empty and the last body acknowledged, everything queued has been delivered, again
      unless a request has strayed. */
  lemma DrainedIsDelivered(k: Link, events: seq<LinkEvent>, batchLimit: nat)
    requires FreshLink(k) && LinkRun(k, events, batchLimit).queued.good && !LinkRun(k, events, batchLimit).up.strayed
    requires var y := LinkRun(k, events, batchLimit); y.pending == [] && y.up.acked == |y.up.sent|
    ensures var y := LinkRun(k, events, batchLimit); Delivered(y.up.committed) == y.queued.frames
  {
    hide UpInv, Tracks, LinkStep;
    DeliveredInOrder(k, events, batchLimit);
    LinkReachable(k, events, batchLimit);
    var y := LinkRun(k, events, batchLimit);
    BridgeIsAhead(y.up);
    assert y.up.sent[|y.up.committed|..] == [];
  }

  /** None strays on a multiplexed carrier; and on HTTPS lanes none does while fewer streams than the ring
      holds have been closed after the lane's own. */
  lemma NoneStrays(k: Link, events: seq<LinkEvent>, batchLimit: nat)
    requires FreshLink(k)
    ensures !UsesLanes(k.up.s) ==> !LinkRun(k, events, batchLimit).up.strayed
    ensures k.up.s.carrier == HttpsLanes && k.up.laneID !in k.up.s.tombstones.closed ==>
      var y := LinkRun(k, events, batchLimit).up;
      y.others < y.s.limits.maxClosedStreamIDs ==> !y.strayed
  {
    hide UpInv, Fresh, Tracks, StaysKnown;
    LinkReachable(k, events, batchLimit);
    LinkStaysKnown(k, events, batchLimit);
    KnownDoesNotStray(k.up, LinkRun(k, events, batchLimit).up);
  }

  /** The bridge's own events leave the session alone; any other is one of the uplink's runs. */
  lemma LinkStepIsUpStep(k: Link, e: LinkEvent, batchLimit: nat)
    ensures var m := LinkStep(k, e, batchLimit);
      m.up == k.up || exists f :: m.up == UpStep(k.up, f)
  {
    hide UpStep, CanJoin;
    match e
    case Queues(_) =>
    case Packs(r, _) =>
      if Idle(k.up) && CanJoin(k.pending, r, e.taken, batchLimit) {
        assert LinkStep(k, e, batchLimit).up == UpStep(k.up, BridgeTakes(r.body));
      }
    case OnUplink(event) =>
      if !event.BridgeTakes? {
        assert LinkStep(k, e, batchLimit).up == UpStep(k.up, event);
      }
  }

  lemma {:induction false} LinkStaysKnown(k: Link, events: seq<LinkEvent>, batchLimit: nat)
    requires FreshLink(k)
    ensures StaysKnown(k.up, LinkRun(k, events, batchLimit).up)
  {
    hide UpInv, LinkStep, Tracks, Fresh, UpStep, StaysKnown;
    LinkUnfolds(k, events, batchLimit);
    if events == [] {
      FreshIsKnown(k.up);
    } else {
      var past, e := events[..|events| - 1], events[|events| - 1];
      LinkStaysKnown(k, past, batchLimit);
      LinkReachable(k, past, batchLimit);
      var w := LinkRun(k, past, batchLimit);
      LinkStepIsUpStep(w, e, batchLimit);
      if LinkStep(w, e, batchLimit).up != w.up {
        var f :| LinkStep(w, e, batchLimit).up == UpStep(w.up, f);
        StepStaysKnown(k.up, w.up, f);
      }
    }
  }

  /** The relay's own payload limit decides whether it takes a body, not what it reads in it. */
  lemma RelayReadsTheSame(s: State, body: Bytes, lane: Option<nat>)
    requires ClientFrames(s, body, lane).Some?
    ensures ClientFrames(s, body, lane).value == BodyFrames(body)
  {
    hide ParseBody, ClientShape;
    var frames := ClientFrames(s, body, lane).value;
    CodecRoundTrip(body, frames, s.limits.maxFramePayload);
    CodecRoundTrip(body, frames, MAX_PAYLOAD);
  }
}
