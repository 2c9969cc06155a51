/** Which batches the relay accepts, said without its simulation: what `validateBatchLocked` in
    `internal/session/session.go` decides about each frame, from the session as it is and the frames
    before it in the batch. */
module Acceptance {
  import opened Frames
  import opened SessionState
  import opened SessionInv
  import opened Validation
  import opened Flow

  /** A frame of the type for the id is among these. */
  predicate Has(frames: seq<Frame>, id: nat, typeCode: byte) {
    exists i :: 0 <= i < |frames| && frames[i].typeCode == typeCode && frames[i].streamID == id
  }

  /** The stream is there, or the batch has opened it. */
  predicate HasOpened(s: State, past: seq<Frame>, id: nat) { id in s.streams || Has(past, id, OPEN) }

  /** The stream is remembered as closed, or the batch has closed it. */
  predicate HasClosed(s: State, past: seq<Frame>, id: nat) { id in s.tombstones.closed || Has(past, id, CLOSE) }

  /** What the relay can still take for the stream, before the batch. */
  function Room(s: State, id: nat): nat {
    if id in s.streams then s.streams[id].receiveWindow else INITIAL_STREAM_WINDOW
  }

  /** A frame is in order after the frames before it: on the session itself only PONG; an OPEN for an id
      that is neither live nor closed; for an id that has been closed anything but that; for a live stream
      DATA within its window, WINDOW and CLOSE. */
  predicate InOrder(s: State, past: seq<Frame>, f: Frame) {
    var id := f.streamID;
    if id == 0 then f.typeCode == PONG
    else if f.typeCode == OPEN then !HasOpened(s, past, id) && !HasClosed(s, past, id)
    else if f.typeCode == DATA then
      HasClosed(s, past, id)
      || (HasOpened(s, past, id) && DataBytes(past, id) + |f.payload| <= Room(s, id))
    else if f.typeCode == WINDOW || f.typeCode == CLOSE then HasClosed(s, past, id) || HasOpened(s, past, id)
    else false
  }

  ghost predicate AllInOrder(s: State, frames: seq<Frame>) {
    forall k :: 0 <= k < |frames| ==> InOrder(s, frames[..k], frames[k])
  }

  // ------------------------------------------------------------------- the simulation

  lemma {:induction false} ValidateSnoc(sim: Sim, tombstones: set<nat>, past: seq<Frame>, f: Frame)
    ensures Validate(sim, tombstones, past + [f])
      <==> Validate(sim, tombstones, past) && Accepts(SimulateAll(sim, tombstones, past), tombstones, f)
    ensures SimulateAll(sim, tombstones, past + [f]) == Simulate(SimulateAll(sim, tombstones, past), tombstones, f)
    decreases |past|
  {
    hide Accepts, Simulate;
    if past == [] {
      assert past + [f] == [f] && [f][1..] == [];
    } else {
      assert (past + [f])[0] == past[0] && (past + [f])[1..] == past[1..] + [f];
      ValidateSnoc(Simulate(sim, tombstones, past[0]), tombstones, past[1..], f);
    }
  }

  /** What the simulation knows of one stream is what the frames say. */
  predicate Knows(s: State, sim: Sim, past: seq<Frame>, id: nat) {
    && (WasClosed(sim, s.tombstones.closed, id) <==> HasClosed(s, past, id))
    && (!HasClosed(s, past, id) ==>
          && (id in sim.live <==> HasOpened(s, past, id))
          && (id in sim.live ==>
                sim.live[id].receiveWindow + DataBytes(past, id) == Room(s, id)
                && Room(s, id) <= INITIAL_STREAM_WINDOW))
    && (Has(past, id, DATA) && !HasClosed(s, past, id) ==> HasOpened(s, past, id))
  }

  lemma HasSnoc(past: seq<Frame>, f: Frame, id: nat, typeCode: byte)
    ensures Has(past + [f], id, typeCode) <==> Has(past, id, typeCode) || (f.typeCode == typeCode && f.streamID == id)
  {
    var all := past + [f];
    if Has(past, id, typeCode) {
      var i :| 0 <= i < |past| && past[i].typeCode == typeCode && past[i].streamID == id;
      assert all[i] == past[i];
    }
    assert all[|past|] == f;
  }

  lemma {:induction false} DataSnoc(past: seq<Frame>, f: Frame, id: nat)
    ensures DataBytes(past + [f], id)
      == DataBytes(past, id) + (if f.typeCode == DATA && f.streamID == id then |f.payload| else 0)
  {
    if past == [] {
      assert past + [f] == [f] && [f][1..] == [];
      assert DataBytes([f][1..], id) == 0;
    } else {
      assert (past + [f])[0] == past[0] && (past + [f])[1..] == past[1..] + [f];
      DataSnoc(past[1..], f, id);
    }
  }

  lemma {:induction false} NoDataBefore(past: seq<Frame>, id: nat)
    requires !Has(past, id, DATA)
    ensures DataBytes(past, id) == 0
  {
    if past != [] {
      assert !(past[0].typeCode == DATA && past[0].streamID == id);
      NoDataBefore(past[1..], id);
    }
  }

  /** A frame is accepted exactly if it is in order. */
  lemma AcceptsInOrder(s: State, sim: Sim, past: seq<Frame>, f: Frame)
    requires Knows(s, sim, past, f.streamID) && |f.payload| <= MAX_PAYLOAD
    ensures Accepts(sim, s.tombstones.closed, f) <==> InOrder(s, past, f)
  {
    assert |f.payload| % TWO32 == |f.payload|;
    hide Has, DataBytes;
  }

  lemma StillKnows(s: State, sim: Sim, past: seq<Frame>, f: Frame, id: nat)
    requires Knows(s, sim, past, id) && id != 0 && |f.payload| <= MAX_PAYLOAD
    requires Accepts(sim, s.tombstones.closed, f)
    ensures Knows(s, Simulate(sim, s.tombstones.closed, f), past + [f], id)
  {
    HasSnoc(past, f, id, OPEN);
    HasSnoc(past, f, id, CLOSE);
    HasSnoc(past, f, id, DATA);
    DataSnoc(past, f, id);
    if !Has(past, id, DATA) {
      NoDataBefore(past, id);
    }
    assert |f.payload| % TWO32 == |f.payload|;
    hide Has, DataBytes;
  }

  lemma StartKnows(s: State, past: seq<Frame>, id: nat)
    requires Inv(s) && past == []
    ensures Knows(s, Sim(Snapshots(s.streams), {}), past, id)
  {
    hide LanesInv, Accounts;
  }

  lemma {:induction false} PrefixInOrder(s: State, frames: seq<Frame>, k: nat)
    requires Inv(s) && OnWire(frames) && k <= |frames|
    ensures var sim := Sim(Snapshots(s.streams), {});
      Validate(sim, s.tombstones.closed, frames[..k]) <==> forall i :: 0 <= i < k ==> InOrder(s, frames[..i], frames[i])
    ensures var sim := Sim(Snapshots(s.streams), {});
      Validate(sim, s.tombstones.closed, frames[..k]) ==>
        forall id :: id != 0 ==> Knows(s, SimulateAll(sim, s.tombstones.closed, frames[..k]), frames[..k], id)
    decreases k
  {
    hide InvWith, Knows, Accepts, Simulate, InOrder;
    var sim, tombstones := Sim(Snapshots(s.streams), {}), s.tombstones.closed;
    if k == 0 {
      forall id | id != 0
        ensures Knows(s, sim, frames[..0], id)
      {
        StartKnows(s, frames[..0], id);
      }
    } else {
      var past, f := frames[..k - 1], frames[k - 1];
      var there := SimulateAll(sim, tombstones, past);
      PrefixInOrder(s, frames, k - 1);
      assert frames[..k] == past + [f];
      ValidateSnoc(sim, tombstones, past, f);
      hide Validate, SimulateAll;
      if Validate(sim, tombstones, past) {
        OneInOrder(s, there, past, f);
        if Accepts(there, tombstones, f) {
          forall id | id != 0
            ensures Knows(s, Simulate(there, tombstones, f), past + [f], id)
          {
            StillKnows(s, there, past, f, id);
          }
        }
      }
    }
  }

  lemma OneInOrder(s: State, sim: Sim, past: seq<Frame>, f: Frame)
    requires |f.payload| <= MAX_PAYLOAD && forall id :: id != 0 ==> Knows(s, sim, past, id)
    ensures Accepts(sim, s.tombstones.closed, f) <==> InOrder(s, past, f)
  {
    hide Knows;
    if f.streamID != 0 {
      hide Accepts, InOrder;
      AcceptsInOrder(s, sim, past, f);
    }
  }

  /** Exactly: a batch is accepted if and only if each of its frames is in order after those before it. */
  lemma AcceptedExactly(s: State, frames: seq<Frame>)
    requires Inv(s) && OnWire(frames)
    ensures ValidateBatch(s, frames) <==> AllInOrder(s, frames)
  {
    hide InvWith, InOrder, Validate, SimulateAll, OnWire;
    PrefixInOrder(s, frames, |frames|);
    assert frames[..|frames|] == frames;
  }
}
