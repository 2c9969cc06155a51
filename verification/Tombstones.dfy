/** The bounded tombstone ring: `closedStreams`, `closedOrder` and `closedStart`, and the part of
    `rememberClosedLocked` that maintains them, in `internal/session/session.go`. */
module Tombstones {
  import opened Options

  /** The set of remembered ids, and a ring of them with its oldest entry at `start` once full. */
  datatype Ring = Ring(closed: set<nat>, order: seq<nat>, start: nat)

  const NO_TOMBSTONES := Ring({}, [], 0)

  /** The id that remembering `id` pushes out. */
  function Evicted(r: Ring, id: nat, capacity: nat): Option<nat> {
    if id in r.closed || |r.order| < capacity || r.start >= |r.order| then None
    else Some(r.order[r.start])
  }

  function Remember(r: Ring, id: nat, capacity: nat): Ring {
    if id in r.closed then r
    else if |r.order| < capacity then Ring(r.closed + {id}, r.order + [id], r.start)
    else if r.start >= |r.order| then r
    else Ring(r.closed + {id} - {r.order[r.start]}, r.order[r.start := id], (r.start + 1) % |r.order|)
  }

  predicate Distinct(s: seq<nat>) {
    forall i, j :: 0 <= i < j < |s| ==> s[i] != s[j]
  }

  ghost predicate RingInv(r: Ring, capacity: nat) {
    && |r.order| <= capacity
    && Distinct(r.order)
    && (forall id :: id in r.closed <==> id in r.order)
    && (if r.order == [] then r.start == 0 else r.start < |r.order|)
    && (|r.order| < capacity ==> r.start == 0)
  }

  /** The ids from the oldest to the newest. */
  function Fifo(r: Ring): seq<nat>
    requires r.start <= |r.order|
  {
    r.order[r.start..] + r.order[..r.start]
  }

  /** A first-in first-out list of the last `capacity` distinct ids. */
  function FifoRemember(f: seq<nat>, id: nat, capacity: nat): seq<nat> {
    if id in f then f
    else if |f| < capacity then f + [id]
    else if f == [] then f
    else f[1..] + [id]
  }

  /** The ring refines the list: same ids in the same order, the set is exactly the ids held, and what
      it evicts is the oldest. */
  lemma RingRefinesFifo(r: Ring, id: nat, capacity: nat)
    requires RingInv(r, capacity) && capacity > 0
    ensures var after := Remember(r, id, capacity);
      && RingInv(after, capacity)
      && Fifo(after) == FifoRemember(Fifo(r), id, capacity)
      && id in after.closed
      && (forall x :: x in after.closed <==> x in Fifo(after))
      && (Evicted(r, id, capacity) == None ==> after.closed == r.closed + {id})
      && (Evicted(r, id, capacity).Some? ==>
          && Evicted(r, id, capacity).value == Fifo(r)[0]
          && Evicted(r, id, capacity).value in r.closed && Evicted(r, id, capacity).value != id
          && after.closed == r.closed + {id} - {Fifo(r)[0]})
  {
    var after := Remember(r, id, capacity);
    var n := |r.order|;
    assert id in r.closed <==> id in Fifo(r);
    if id !in r.closed && n == capacity {
      RingStep(r, id);
    } else if id !in r.closed {
      assert Fifo(after) == Fifo(r) + [id];
    }
  }

  lemma NextSlot(s: nat, n: nat)
    requires s < n
    ensures (s + 1) % n == if s + 1 == n then 0 else s + 1
  {
  }

  lemma ReplacedIds(order: seq<nat>, s: nat, id: nat)
    requires s < |order| && Distinct(order) && id !in order
    ensures Distinct(order[s := id])
    ensures forall x :: x in order[s := id] <==> x == id || (x in order && x != order[s])
  {
    var after := order[s := id];
    forall x
      ensures x in after <==> x == id || (x in order && x != order[s])
    {
      if x in order && x != order[s] {
        var i :| 0 <= i < |order| && order[i] == x;
        assert after[i] == x;
      }
      assert after[s] == id;
    }
  }

  lemma RingStep(r: Ring, id: nat)
    requires RingInv(r, |r.order|) && r.order != [] && id !in r.closed
    ensures var after := Remember(r, id, |r.order|);
      && RingInv(after, |r.order|)
      && Fifo(after) == Fifo(r)[1..] + [id]
      && Fifo(r)[0] == r.order[r.start]
  {
    var n, s := |r.order|, r.start;
    var order := r.order[s := id];
    var after := Remember(r, id, n);
    NextSlot(s, n);
    ReplacedIds(r.order, s, id);
    assert Fifo(r)[1..] == r.order[s + 1..] + r.order[..s];
    if s + 1 < n {
      assert Fifo(after) == order[s + 1..] + order[..s + 1];
      assert order[..s + 1] == r.order[..s] + [id];
      assert order[s + 1..] == r.order[s + 1..];
    } else {
      assert Fifo(after) == order == r.order[..s] + [id];
    }
  }

  // ------------------------------------------------------------------ over a whole run

  function RememberAll(r: Ring, ids: seq<nat>, capacity: nat): Ring {
    if ids == [] then r else Remember(RememberAll(r, ids[..|ids| - 1], capacity), ids[|ids| - 1], capacity)
  }

  /** The ids that were not already remembered when they came. */
  function Arrivals(ids: seq<nat>, capacity: nat): seq<nat> {
    if ids == [] then []
    else
      var before := ids[..|ids| - 1];
      var id := ids[|ids| - 1];
      if id in RememberAll(NO_TOMBSTONES, before, capacity).closed then Arrivals(before, capacity)
      else Arrivals(before, capacity) + [id]
  }

  function Last(s: seq<nat>, count: nat): seq<nat> {
    if |s| <= count then s else s[|s| - count..]
  }

  lemma LastShifts(all: seq<nat>, id: nat, capacity: nat)
    requires capacity > 0
    ensures Last(all + [id], capacity)
         == if |all| < capacity then Last(all, capacity) + [id] else Last(all, capacity)[1..] + [id]
  {
  }

  /** After any run the ring holds exactly the last `capacity` arrivals, in order. */
  lemma {:induction false} RingHoldsLastArrivals(ids: seq<nat>, capacity: nat)
    requires capacity > 0
    ensures RingInv(RememberAll(NO_TOMBSTONES, ids, capacity), capacity)
    ensures Fifo(RememberAll(NO_TOMBSTONES, ids, capacity)) == Last(Arrivals(ids, capacity), capacity)
  {
    if ids != [] {
      var before, id := ids[..|ids| - 1], ids[|ids| - 1];
      RingHoldsLastArrivals(before, capacity);
      var r := RememberAll(NO_TOMBSTONES, before, capacity);
      RingRefinesFifo(r, id, capacity);
      assert RememberAll(NO_TOMBSTONES, ids, capacity) == Remember(r, id, capacity);
      assert id in r.closed <==> id in Fifo(r);
      LastShifts(Arrivals(before, capacity), id, capacity);
    }
  }
}
