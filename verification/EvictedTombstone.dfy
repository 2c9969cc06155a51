/** A run that ends in the nil dereference: the one case in which validating a batch and applying it
    disagree (`internal/session/session.go`, lines 737 and 830), from a new session on, in the bytes of
    two requests. */
module EvictedTombstone {
  import opened Options
  import opened Frames
  import opened Charges
  import opened Budget
  import opened Lanes
  import opened Tombstones
  import opened SessionState
  import opened SessionInv
  import opened Application
  import opened Validation
  import opened Isolation
  import SessionRuns

  /** A stream that opens and closes at once. */
  function Brief(id: nat): seq<Frame> { [Frame(OPEN, id, []), Frame(CLOSE, id, [])] }

  /** Every ticket and every charge is granted. */
  const GRANTED := Answer(true, true)

  /** Both sections of a `ProcessUp`. */
  function Request(sequence: nat, frames: seq<Frame>, answers: seq<Answer>): seq<SessionRuns.Op> {
    [SessionRuns.OpUpBegin(sequence, EncodeAll(frames)),
        SessionRuns.OpUpFinish(sequence, EncodeAll(frames), Answers(true, answers))]
  }

  /** The session is ready for request `sequence`. */
  ghost predicate ReadyFor(s: State, sequence: nat) {
    && Inv(s) && s.panic.None? && !s.closed && !UsesLanes(s) && MAIN in s.lanes
    && !s.lanes[MAIN].upActive && s.lanes[MAIN].lastUpSequence == sequence - 1 && 0 < sequence < TWO64
  }

  lemma BodyIsRead(s: State, frames: seq<Frame>)
    requires 1 <= |frames| <= MAX_BATCH_FRAMES
    requires forall i :: 0 <= i < |frames| ==>
      ClientShape(frames[i]) && frames[i].streamID <= MAX_STREAM_ID && |frames[i].payload| <= 1
    ensures ClientFrames(s, EncodeAll(frames), None) == Some(frames)
  {
    hide ParseBody, ClientShape;
    CodecRoundTrip(EncodeAll(frames), frames, s.limits.maxFramePayload);
  }

  /** A request that is the next one runs its batch. */
  lemma RequestRuns(s: State, sequence: nat, frames: seq<Frame>, answers: seq<Answer>)
    requires ReadyFor(s, sequence) && ClientFrames(s, EncodeAll(frames), None) == Some(frames)
    ensures var body := EncodeAll(frames);
      var begun := SessionRuns.Step(s, SessionRuns.OpUpBegin(sequence, body));
      SessionRuns.Step(begun, SessionRuns.OpUpFinish(sequence, body, Answers(true, answers)))
        == CommitBatch(s, MAIN, sequence, body, frames, Answers(true, answers)).0
  {
    hide InvWith, CommitBatch, EncodeAll, ParseBody, ClientShape;
    var body := EncodeAll(frames);
    var active := SetUpActive(s, MAIN, true);
    assert SetUpActive(active, MAIN, false) == s by {
      var l := s.lanes[MAIN];
      assert l.(upActive := true).(upActive := false) == l;
      assert s.lanes[MAIN := l.(upActive := true)][MAIN := l] == s.lanes;
    }
    assert ClientFrames(active, body, None) == ClientFrames(s, body, None);
  }

  lemma BriefValidates(s: State, id: nat)
    requires s.streams == map[] && s.tombstones.closed == {} && 0 < id
    ensures ValidateBatch(s, Brief(id)) && Reservation(s.streams.Keys, Brief(id)) == Amount(0, 0)
  {
    var frames := Brief(id);
    var none: set<nat> := {};
    assert Snapshots(s.streams) == map[] && s.streams.Keys == none;
    var s0 := Sim(map[], {});
    var s1 := Simulate(s0, {}, frames[0]);
    var s2 := Simulate(s1, {}, frames[1]);
    assert frames[1..] == [frames[1]];
    assert Validate(s2, {}, frames[1..][1..]);
    assert Validate(s1, {}, frames[1..]);
    assert Validate(s0, {}, frames);
    assert none + {id} - {id} == none;
    assert Reservation(none, frames[1..][1..]) == Amount(0, 0);
    assert Reservation(none + {id}, frames[1..]) == Amount(0, 0);
  }

  lemma ApplyTwo(x: Applying, frames: seq<Frame>, answers: seq<Answer>)
    requires |frames| == 2 && |answers| == 2
    requires var y := ApplyFrame(x, frames[0], answers[0]); x.ok && x.state.panic.None? && y.ok && y.state.panic.None?
    ensures ApplyAll(x, frames, answers) == ApplyFrame(ApplyFrame(x, frames[0], answers[0]), frames[1], answers[1])
  {
    hide ApplyFrame;
    var y := ApplyFrame(x, frames[0], answers[0]);
    ApplyAllOne(x, frames, answers);
    ApplyAllOne(y, frames[1..], answers[1..]);
    assert frames[1..][1..] == [];
  }

  lemma BriefRing(r: Ring, id: nat)
    requires r.order == [] && r.start == 0 && r.closed == {}
    ensures Remember(r, id, 1).order == [id] && Remember(r, id, 1).closed == {id}
  {
  }

  /** The batch leaves nothing but a tombstone. */
  lemma BriefApplies(s: State, id: nat)
    requires Inv(s) && !s.closed && !UsesLanes(s) && s.streams == map[] && s.limits.maxClosedStreamIDs == 1
    requires s.tombstones.order == [] && s.tombstones.start == 0 && s.tombstones.closed == {} && 0 < id <= MAX_STREAM_ID
    ensures var y := ApplyAll(Begin(s, Brief(id)), Brief(id), [GRANTED, GRANTED]);
      && y.ok && y.state.panic.None? && y.state.streams == map[] && y.state.limits == s.limits && !y.state.closed
      && y.state.tombstones.order == [id] && y.state.tombstones.closed == {id}
      && InvWith(y.state, y.cost, y.items)
  {
    hide LanesInv, Accounts, ClosedInv, Validate, Reservation, Remember, ApplyFrame, NewStream;
    var frames := Brief(id);
    BriefValidates(s, id);
    var x0 := Begin(s, frames);
    assert s.streams.Keys == {};
    ApplyFrameKeepsInv(x0, frames[0], GRANTED);
    ApplyFrameCore(x0, frames[0], GRANTED);
    OpenIsAdmitted(x0, frames[0], GRANTED);
    var x1 := ApplyFrame(x0, frames[0], GRANTED);
    ApplyFrameKeepsInv(x1, frames[1], GRANTED);
    ApplyFrameCore(x1, frames[1], GRANTED);
    CloseIsApplied(x1, frames[1], GRANTED);
    BriefRing(s.tombstones, id);
    ApplyTwo(x0, frames, [GRANTED, GRANTED]);
    assert ApplyFrame(x1, frames[1], GRANTED).state.streams == map[];
  }

  /** After the first request the ring is full, and the session is ready for the next. */
  lemma BriefIsCommitted(s: State, id: nat, body: Bytes)
    requires ReadyFor(s, 1) && s.streams == map[] && s.limits.maxClosedStreamIDs == 1
    requires s.tombstones.order == [] && s.tombstones.start == 0 && s.tombstones.closed == {} && 0 < id <= MAX_STREAM_ID
    ensures var t := CommitBatch(s, MAIN, 1, body, Brief(id), Answers(true, [GRANTED, GRANTED])).0;
      && ReadyFor(t, 2) && t.streams == map[] && t.limits == s.limits && t.tombstones.order == [id]
  {
    hide InvWith, ApplyAll, Release, Reservation, ValidateBatch, OnWire;
    var frames, a := Brief(id), Answers(true, [GRANTED, GRANTED]);
    BriefValidates(s, id);
    BriefApplies(s, id);
    SessionRuns.CommitCases(s, MAIN, 1, body, frames, a);
    BriefOnWire(id);
    CommitSpares(s, MAIN, 1, body, frames, a, 0);
    var y := ApplyAll(Begin(s, frames), frames, a.frames);
    SessionRuns.SettleKeepsInv(y.state, y.cost, y.items);
    SessionRuns.CommitKeepsInv(s, MAIN, 1, body, frames, a, 0);
    hide CommitBatch;
  }

  lemma BriefOnWire(id: nat)
    requires id <= MAX_STREAM_ID
    ensures OnWire(Brief(id))
  {
  }

  lemma NewSessionReady(limits: Limits)
    requires ValidLimits(limits)
    ensures var s := NewSession(Https, limits);
      && ReadyFor(s, 1) && s.streams == map[] && s.limits == limits
      && s.tombstones.order == [] && s.tombstones.start == 0 && s.tombstones.closed == {}
  {
    SessionRuns.NewSessionInv(Https, limits);
    NewSessionFields(limits);
    SoundInv(NewSession(Https, limits));
    hide InvWith, ValidLimits, NewSession;
  }

  lemma SoundInv(s: State)
    requires Inv(s)
    ensures s.panic.None?
  {
    hide StreamsInv, LanesInv, Accounts, ClosedInv;
  }

  lemma NewSessionFields(limits: Limits)
    ensures var s := NewSession(Https, limits);
      && s.streams == map[] && s.limits == limits && !s.closed && !UsesLanes(s) && MAIN in s.lanes
      && !s.lanes[MAIN].upActive && s.lanes[MAIN].lastUpSequence == 0
      && s.tombstones.order == [] && s.tombstones.start == 0 && s.tombstones.closed == {}
  {
  }

  lemma RunFour(s: State, ops: seq<SessionRuns.Op>)
    requires |ops| == 4
    ensures SessionRuns.RunFrom(s, ops)
         == SessionRuns.Step(SessionRuns.Step(SessionRuns.Step(SessionRuns.Step(s, ops[0]), ops[1]), ops[2]), ops[3])
  {
    hide SessionRuns.Step;
    SessionRuns.RunUnfolds(s, ops);
    SessionRuns.RunUnfolds(s, ops[..3]);
    SessionRuns.RunUnfolds(s, ops[..2]);
    SessionRuns.RunUnfolds(s, ops[..1]);
    SessionRuns.RunUnfolds(s, ops[..0]);
    assert ops[..3][..2] == ops[..2] && ops[..2][..1] == ops[..1] && ops[..1][..0] == ops[..0];
  }

  /** With a ring of one tombstone: a request that opens and closes a stream, and a second one that opens
      and closes another and then carries DATA for the first, take every new multiplexed session to the
      nil dereference, whatever its other limits. */
  lemma EvictedTombstoneIsReached(limits: Limits, first: nat, second: nat)
    requires ValidLimits(limits) && limits.maxClosedStreamIDs == 1
    requires 0 < first <= MAX_STREAM_ID && 0 < second <= MAX_STREAM_ID && first != second
    ensures SessionRuns.RunFrom(NewSession(Https, limits),
              Request(1, Brief(first), [GRANTED, GRANTED])
                + Request(2, Evicting(second, first), [GRANTED, GRANTED, GRANTED])).panic
         == Some(NilStream)
  {
    hide InvWith, CommitBatch, SessionRuns.Step, NewSession, EncodeAll, ValidLimits, ReadyFor, ClientFrames;
    var s := NewSession(Https, limits);
    var one, two := Request(1, Brief(first), [GRANTED, GRANTED]),
        Request(2, Evicting(second, first), [GRANTED, GRANTED, GRANTED]);
    RunFour(s, one + two);
    NewSessionReady(limits);
    BodyIsRead(s, Brief(first));
    RequestRuns(s, 1, Brief(first), [GRANTED, GRANTED]);
    BriefIsCommitted(s, first, EncodeAll(Brief(first)));
    var t := CommitBatch(s, MAIN, 1, EncodeAll(Brief(first)), Brief(first), Answers(true, [GRANTED, GRANTED])).0;
    BodyIsRead(t, Evicting(second, first));
    RequestRuns(t, 2, Evicting(second, first), [GRANTED, GRANTED, GRANTED]);
    SecondPanics(t, first, second);
  }

  lemma SecondPanics(s: State, first: nat, second: nat)
    requires ReadyFor(s, 2) && s.streams == map[] && s.limits.maxClosedStreamIDs == 1 && s.tombstones.order == [first]
    requires 0 < first <= MAX_STREAM_ID && 0 < second <= MAX_STREAM_ID && first != second
    ensures var frames := Evicting(second, first);
      CommitBatch(s, MAIN, 2, EncodeAll(frames), frames, Answers(true, [GRANTED, GRANTED, GRANTED])).0.panic
        == Some(NilStream)
  {
    hide InvWith, ApplyAll, Validate, EncodeAll, Evicting, Release;
    var frames, a := Evicting(second, first), Answers(true, [GRANTED, GRANTED, GRANTED]);
    EvictedTombstonePanics(s, first, second, GRANTED);
    EvictingValidates(first, second);
    assert s.streams.Keys == {};
    hide Reservation, ValidateBatch;
    SessionRuns.CommitCases(s, MAIN, 2, EncodeAll(frames), frames, a);
  }
}
