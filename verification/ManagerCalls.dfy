/** What the sections of a session ask of the manager (`s.budget` and `s.acquireStream` in
    `internal/session/session.go`): the calls a section makes, one by one, are charges of one class or
    releases of part of what the session holds at that moment, and the tickets it is granted are those
    of the backends it begins. */
module ManagerCalls {
  import opened Options
  import opened Frames
  import opened Charges
  import opened Budget
  import opened DownQueue
  import opened Lanes
  import opened Tombstones
  import opened SessionState
  import opened SessionInv
  import opened SessionSteps
  import opened Application
  import opened Validation
  import SessionRuns

  // ------------------------------------------------------------------------- one call

  predicate SameSplit(h: Split, g: Split) { forall k :: Part(g, k) == Part(h, k) }

  /** One class is charged. */
  predicate ChargesOne(h: Split, g: Split, cost: int, items: int, pool: PendingClass) {
    cost > 0 && items >= 0 && forall k :: Part(g, k) == Part(h, k) + ChargeFor(pool, cost, items, k)
  }

  /** Part of what is held is given back. */
  predicate Gives(h: Split, g: Split, cost: int, items: int) {
    cost <= 0 && items <= 0 && forall k :: Part(g, k) <= Part(h, k)
  }

  /** A call takes what the session holds from `h` to `g`: by exactly its amounts if it is allowed, and
      only a charge can be refused. */
  predicate SoundStep(h: Split, c: ManagerCall, g: Split) {
    NonNegative(g) &&
    match c
    case TicketCall(_, _) => SameSplit(h, g)
    case BudgetCall(cost, items, pool, allowed) =>
      if allowed then
        && g.Cost() == h.Cost() + cost && g.Items() == h.Items() + items
        && (ChargesOne(h, g, cost, items, pool) || Gives(h, g, cost, items))
      else SameSplit(h, g) && cost > 0 && items >= 0
  }

  /** Call by call, from `h` to `g`. */
  ghost predicate SoundCalls(h: Split, calls: seq<ManagerCall>, g: Split)
    decreases |calls|
  {
    if calls == [] then SameSplit(h, g)
    else exists m: Split :: SoundStep(h, calls[0], m) && SoundCalls(m, calls[1..], g)
  }

  /** The backends tickets are granted for. */
  function TicketsIn(calls: seq<ManagerCall>): seq<nat> {
    if calls == [] then [] else TicketOf(calls[0]) + TicketsIn(calls[1..])
  }

  function TicketOf(c: ManagerCall): seq<nat> {
    if c.TicketCall? && c.granted then [c.backend] else []
  }

  lemma TicketsHead(calls: seq<ManagerCall>)
    requires calls != []
    ensures TicketsIn(calls) == TicketOf(calls[0]) + TicketsIn(calls[1..])
  {
  }

  function Range(a: nat, b: nat): seq<nat>
    requires a <= b
  {
    seq(b - a, i => a + i)
  }

  // ------------------------------------------------------------- the calls of a section

  function NewCalls(s: State, t: State): seq<ManagerCall>
    requires s.calls <= t.calls
  {
    t.calls[|s.calls|..]
  }

  /** From `s` to `t`, reservations included, what is held changes call by call, and the tickets granted
      are those of the backends begun. */
  ghost predicate Asks(s: State, c0: int, i0: int, t: State, c1: int, i1: int) {
    && s.calls <= t.calls && s.nextBackend <= t.nextBackend
    && SoundCalls(HeldSplit(s, c0, i0), NewCalls(s, t), HeldSplit(t, c1, i1))
    && TicketsIn(NewCalls(s, t)) == Range(s.nextBackend, t.nextBackend)
  }

  lemma SameThenSound(h: Split, m: Split, calls: seq<ManagerCall>, g: Split)
    requires SameSplit(h, m) && SoundCalls(m, calls, g)
    ensures SoundCalls(h, calls, g)
  {
    if calls != [] {
      var n: Split :| SoundStep(m, calls[0], n) && SoundCalls(n, calls[1..], g);
      SameThenStep(h, m, calls[0], n);
    }
  }

  lemma SameThenStep(h: Split, m: Split, c: ManagerCall, g: Split)
    requires SameSplit(h, m) && SoundStep(m, c, g)
    ensures SoundStep(h, c, g)
  {
    SameTotals(h, m);
    hide NonNegative;
  }

  lemma SameTotals(h: Split, g: Split)
    requires SameSplit(h, g)
    ensures g.Cost() == h.Cost() && g.Items() == h.Items()
  {
    assert Part(g, UpCost) == Part(h, UpCost) && Part(g, DownCost) == Part(h, DownCost)
        && Part(g, ControlCost) == Part(h, ControlCost);
    assert Part(g, UpItems) == Part(h, UpItems) && Part(g, DownItems) == Part(h, DownItems)
        && Part(g, ControlItems) == Part(h, ControlItems);
  }

  lemma {:induction false} SoundConcat(h: Split, a: seq<ManagerCall>, m: Split, b: seq<ManagerCall>, g: Split)
    requires SoundCalls(h, a, m) && SoundCalls(m, b, g)
    ensures SoundCalls(h, a + b, g)
    decreases |a|
  {
    if a == [] {
      assert a + b == b;
      SameThenSound(h, m, b, g);
    } else {
      var n: Split :| SoundStep(h, a[0], n) && SoundCalls(n, a[1..], m);
      SoundConcat(n, a[1..], m, b, g);
      assert (a + b)[1..] == a[1..] + b && (a + b)[0] == a[0];
    }
  }

  lemma NoTickets(calls: seq<ManagerCall>)
    requires calls == []
    ensures TicketsIn(calls) == []
  {
  }

  lemma {:induction false} TicketsConcat(a: seq<ManagerCall>, b: seq<ManagerCall>)
    ensures TicketsIn(a + b) == TicketsIn(a) + TicketsIn(b)
    decreases |a|
  {
    hide TicketsIn, TicketOf;
    if a == [] {
      NoTickets(a);
      assert a + b == b;
    } else {
      TicketsHead(a);
      TicketsHead(a + b);
      assert (a + b)[1..] == a[1..] + b && (a + b)[0] == a[0];
      TicketsConcat(a[1..], b);
      assert TicketOf(a[0]) + (TicketsIn(a[1..]) + TicketsIn(b)) == (TicketOf(a[0]) + TicketsIn(a[1..])) + TicketsIn(b);
    }
  }

  lemma AsksThen(s: State, c0: int, i0: int, t: State, c1: int, i1: int, u: State, c2: int, i2: int)
    requires Asks(s, c0, i0, t, c1, i1) && Asks(t, c1, i1, u, c2, i2)
    ensures Asks(s, c0, i0, u, c2, i2)
  {
    hide SoundCalls, TicketsIn, HeldSplit;
    SoundConcat(HeldSplit(s, c0, i0), NewCalls(s, t), HeldSplit(t, c1, i1), NewCalls(t, u), HeldSplit(u, c2, i2));
    TicketsConcat(NewCalls(s, t), NewCalls(t, u));
    assert NewCalls(s, u) == NewCalls(s, t) + NewCalls(t, u);
    assert Range(s.nextBackend, u.nextBackend)
      == Range(s.nextBackend, t.nextBackend) + Range(t.nextBackend, u.nextBackend);
  }

  /** Nothing is asked and nothing changes hands. */
  lemma AsksNothing(s: State, c0: int, i0: int, t: State, c1: int, i1: int)
    requires t.calls == s.calls && t.nextBackend == s.nextBackend
    requires forall k :: Held(t, c1, i1, k) == Held(s, c0, i0, k)
    ensures Asks(s, c0, i0, t, c1, i1)
  {
    hide Held;
    assert NewCalls(s, t) == [];
    forall k
      ensures Part(HeldSplit(t, c1, i1), k) == Part(HeldSplit(s, c0, i0), k)
    {
      PartHeld(s, c0, i0, k);
      PartHeld(t, c1, i1, k);
    }
  }

  lemma AsksSame(s: State, t: State, cost: int, items: int)
    requires t.calls == s.calls && t.nextBackend == s.nextBackend && t.streams == s.streams && t.lanes == s.lanes
    ensures Asks(s, cost, items, t, cost, items)
  {
    HeldSame(s, t, cost, items);
    AsksNothing(s, cost, items, t, cost, items);
  }

  lemma OneCall(h: Split, c: ManagerCall, g: Split, calls: seq<ManagerCall>)
    requires SoundStep(h, c, g) && calls == [c]
    ensures SoundCalls(h, calls, g)
    ensures TicketsIn(calls) == TicketOf(c)
  {
    assert calls[1..] == [];
    assert SoundCalls(g, calls[1..], g);
    assert TicketsIn(calls[1..]) == [];
  }

  lemma AsksOnce(s: State, c0: int, i0: int, t: State, c1: int, i1: int, c: ManagerCall)
    requires t.calls == s.calls + [c] && SoundStep(HeldSplit(s, c0, i0), c, HeldSplit(t, c1, i1))
    requires t.nextBackend == s.nextBackend + (if c.TicketCall? && c.granted then 1 else 0)
    requires c.TicketCall? ==> c.backend == s.nextBackend
    ensures Asks(s, c0, i0, t, c1, i1)
  {
    hide SoundStep, HeldSplit, SoundCalls, TicketsIn;
    assert NewCalls(s, t) == [c];
    OneCall(HeldSplit(s, c0, i0), c, HeldSplit(t, c1, i1), NewCalls(s, t));
  }

  /** Part of what is held is given back with one call, or nothing is. */
  lemma AsksGivingBack(s: State, c0: int, i0: int, t: State, c1: int, i1: int)
    requires InvWith(s, c0, i0) && InvWith(t, c1, i1) && t.nextBackend == s.nextBackend
    requires forall k :: Held(t, c1, i1, k) <= Held(s, c0, i0, k)
    requires var c, i := s.pendingCost - t.pendingCost, s.pendingItems - t.pendingItems;
      t.calls == if c == 0 && i == 0 then s.calls else s.calls + [BudgetCall(-c, -i, PendingUplink, true)]
    ensures Asks(s, c0, i0, t, c1, i1)
  {
    var c, i := s.pendingCost - t.pendingCost, s.pendingItems - t.pendingItems;
    InvTotals(s, c0, i0);
    InvTotals(t, c1, i1);
    HeldLess(s, c0, i0, t, c1, i1);
    hide InvWith, HeldSplit, Held, SoundStep, SameSplit, NonNegative, Asks;
    GivesStep(HeldSplit(s, c0, i0), HeldSplit(t, c1, i1), c, i);
    if c == 0 && i == 0 {
      AsksNothingSplit(s, c0, i0, t, c1, i1);
    } else {
      AsksOnce(s, c0, i0, t, c1, i1, BudgetCall(-c, -i, PendingUplink, true));
    }
  }

  lemma HeldLess(s: State, c0: int, i0: int, t: State, c1: int, i1: int)
    requires forall k :: Held(t, c1, i1, k) <= Held(s, c0, i0, k)
    ensures forall k :: Part(HeldSplit(t, c1, i1), k) <= Part(HeldSplit(s, c0, i0), k)
  {
    hide Held;
    forall k
      ensures Part(HeldSplit(t, c1, i1), k) <= Part(HeldSplit(s, c0, i0), k)
    {
      PartHeld(s, c0, i0, k);
      PartHeld(t, c1, i1, k);
    }
  }

  lemma GivesStep(h: Split, g: Split, c: int, i: int)
    requires NonNegative(g) && c == h.Cost() - g.Cost() && i == h.Items() - g.Items()
    requires forall k :: Part(g, k) <= Part(h, k)
    ensures SoundStep(h, BudgetCall(-c, -i, PendingUplink, true), g)
    ensures c == 0 && i == 0 ==> SameSplit(h, g)
  {
    LessInAll(h, g);
    hide Part, NonNegative, SameSplit;
    assert Gives(h, g, -c, -i);
  }

  lemma AsksNothingSplit(s: State, c0: int, i0: int, t: State, c1: int, i1: int)
    requires t.calls == s.calls && t.nextBackend == s.nextBackend
        && SameSplit(HeldSplit(s, c0, i0), HeldSplit(t, c1, i1))
    ensures Asks(s, c0, i0, t, c1, i1)
  {
    hide HeldSplit, SameSplit;
    assert NewCalls(s, t) == [];
  }

  lemma InvTotals(s: State, cost: int, items: int)
    requires InvWith(s, cost, items)
    ensures var h := HeldSplit(s, cost, items);
      NonNegative(h) && h.Cost() == s.pendingCost && h.Items() == s.pendingItems
  {
    hide StreamsInv, LanesInv, ClassLimit, Held;
  }

  /** Less in every kind is less in all; as much in all is as much in every kind. */
  lemma LessInAll(h: Split, g: Split)
    requires forall k :: Part(g, k) <= Part(h, k)
    ensures g.Cost() <= h.Cost() && g.Items() <= h.Items()
    ensures g.Cost() == h.Cost() && g.Items() == h.Items() ==> SameSplit(h, g)
  {
    assert Part(g, UpCost) <= Part(h, UpCost) && Part(g, DownCost) <= Part(h, DownCost)
        && Part(g, ControlCost) <= Part(h, ControlCost);
    assert Part(g, UpItems) <= Part(h, UpItems) && Part(g, DownItems) <= Part(h, DownItems)
        && Part(g, ControlItems) <= Part(h, ControlItems);
  }


  /** What a release that does not panic asks. */
  lemma ReleaseCalls(s: State, cost: int, items: int)
    requires s.panic.None? && Release(s, cost, items).panic.None?
    ensures GivesBackCalls(s, Release(s, cost, items))
  {
  }

  predicate GivesBackCalls(s: State, t: State) {
    var c, i := s.pendingCost - t.pendingCost, s.pendingItems - t.pendingItems;
    && t.nextBackend == s.nextBackend
    && t.calls == if c == 0 && i == 0 then s.calls else s.calls + [BudgetCall(-c, -i, PendingUplink, true)]
  }

  lemma InvPanic(s: State, cost: int, items: int)
    requires InvWith(s, cost, items)
    ensures s.panic.None?
  {
    hide StreamsInv, LanesInv, Accounts, ClosedInv;
  }

  // -------------------------------------------------------------------- helper by helper

  /** One lane object gives up part of what it holds, or nothing. */
  lemma LaneHeldLess(s: State, r: LaneRef, l: Lane, t: State, cost: int, items: int)
    requires r in s.lanes && forall k :: LaneCharge(l, k) <= LaneCharge(s.lanes[r], k)
    requires t.streams == s.streams && t.lanes == s.lanes[r := l]
    ensures forall k :: Held(t, cost, items, k) <= Held(s, cost, items, k)
    ensures (forall k :: LaneCharge(l, k) == LaneCharge(s.lanes[r], k)) ==>
      forall k :: Held(t, cost, items, k) == Held(s, cost, items, k)
  {
    hide LaneCharge, StreamCharge;
    forall k
      ensures Held(t, cost, items, k) == Held(s, cost, items, k) - LaneCharge(s.lanes[r], k) + LaneCharge(l, k)
    {
      SumUpdate(s.lanes, LaneCharge, k, r, l);
    }
  }

  lemma AsksLane(s: State, r: LaneRef, l: Lane, t: State, cost: int, items: int)
    requires r in s.lanes && forall k :: LaneCharge(l, k) == LaneCharge(s.lanes[r], k)
    requires t.streams == s.streams && t.lanes == s.lanes[r := l] && t.calls == s.calls
        && t.nextBackend == s.nextBackend
    ensures Asks(s, cost, items, t, cost, items)
  {
    hide LaneCharge, Asks;
    LaneHeldLess(s, r, l, t, cost, items);
    AsksNothing(s, cost, items, t, cost, items);
  }

  lemma HoldingsCharge(a: Lane, b: Lane)
    requires SameHoldings(a, b)
    ensures forall k :: LaneCharge(b, k) == LaneCharge(a, k)
  {
  }

  lemma AsksTouch(s: State, r: LaneRef, l: Lane)
    requires r in s.lanes && SameHoldings(s.lanes[r], l)
    ensures Asks(s, 0, 0, WithLane(s, r, l), 0, 0)
  {
    hide Asks, LaneCharge, SameHoldings;
    HoldingsCharge(s.lanes[r], l);
    AsksLane(s, r, l, WithLane(s, r, l), 0, 0);
  }

  lemma QueueablePushes(s: State, f: Frame, cost: int, items: int, r: LaneRef)
    requires InvWith(s, cost, items) && Queueable(s, f) && r in s.lanes
    ensures Pushable(f, s.limits.maxFramePayload) && LaneInv(s.lanes[r])
  {
    hide StreamsInv, Register, Placement, Accounts;
  }

  /** What a frame asks for: nothing if the session refuses it or it is absorbed, and otherwise its charge. */
  lemma QueueCalls(s: State, f: Frame, granted: bool)
    requires Route(s, f.streamID).Some?
    ensures var (t, ok) := QueueFrame(s, f, granted);
      var need := Admit(LaneAt(s, Route(s, f.streamID).value).queue, f, s.limits.maxFramePayload);
      && t.nextBackend == s.nextBackend
      && (ok && need.Absorbed? ==> t.calls == s.calls)
      && (ok && need.Needs? ==>
            t.calls == s.calls + [BudgetCall(need.cost, need.items, need.pool, true)] && need.cost > 0
            && need.items >= 0)
      && (!ok ==> t.streams == s.streams && t.lanes == s.lanes)
      && (!ok && t.calls != s.calls ==>
            need.Needs? && t.calls == s.calls + [BudgetCall(need.cost, need.items, need.pool, false)] && need.cost > 0
            && need.items >= 0)
  {
    hide Admit, Enqueue, ClassLimit;
  }

  /** A refused charge changes nothing. */
  lemma AsksRefused(s: State, t: State, c: ManagerCall, cost: int, items: int)
    requires InvWith(s, cost, items) && t.calls == s.calls + [c] && t.nextBackend == s.nextBackend
    requires c.BudgetCall? && !c.allowed && c.cost > 0 && c.items >= 0 && t.streams == s.streams && t.lanes == s.lanes
    ensures Asks(s, cost, items, t, cost, items)
  {
    InvTotals(s, cost, items);
    HeldSame(s, t, cost, items);
    SplitOf(s, t, cost, items);
    hide InvWith, Held, HeldSplit, NonNegative, Asks;
    AsksOnce(s, cost, items, t, cost, items, c);
  }

  lemma SplitOf(s: State, t: State, cost: int, items: int)
    requires forall k :: Held(t, cost, items, k) == Held(s, cost, items, k)
    ensures HeldSplit(t, cost, items) == HeldSplit(s, cost, items)
  {
    hide Held;
  }

  /** A granted charge is what is then held more. */
  lemma AsksCharge(s: State, c0: int, i0: int, t: State, c1: int, i1: int, cost: int, items: int, pool: PendingClass)
    requires InvWith(s, c0, i0) && InvWith(t, c1, i1) && cost > 0 && items >= 0
    requires t.calls == s.calls + [BudgetCall(cost, items, pool, true)] && t.nextBackend == s.nextBackend
    requires t.pendingCost == s.pendingCost + cost && t.pendingItems == s.pendingItems + items
    requires forall k :: Held(t, c1, i1, k) == Held(s, c0, i0, k) + ChargeFor(pool, cost, items, k)
    ensures Asks(s, c0, i0, t, c1, i1)
  {
    InvTotals(s, c0, i0);
    InvTotals(t, c1, i1);
    HeldMore(s, c0, i0, t, c1, i1, cost, items, pool);
    hide InvWith, Held, HeldSplit, NonNegative, Asks, ChargeFor, Part, SoundStep;
    ChargesStep(HeldSplit(s, c0, i0), HeldSplit(t, c1, i1), cost, items, pool);
    AsksOnce(s, c0, i0, t, c1, i1, BudgetCall(cost, items, pool, true));
  }

  lemma ChargesStep(h: Split, g: Split, cost: int, items: int, pool: PendingClass)
    requires NonNegative(g) && g.Cost() == h.Cost() + cost && g.Items() == h.Items() + items && cost > 0 && items >= 0
    requires forall k :: Part(g, k) == Part(h, k) + ChargeFor(pool, cost, items, k)
    ensures SoundStep(h, BudgetCall(cost, items, pool, true), g)
  {
    hide Part, NonNegative, ChargeFor;
    assert ChargesOne(h, g, cost, items, pool);
  }

  lemma HeldMore(s: State, c0: int, i0: int, t: State, c1: int, i1: int, cost: int, items: int, pool: PendingClass)
    requires forall k :: Held(t, c1, i1, k) == Held(s, c0, i0, k) + ChargeFor(pool, cost, items, k)
    ensures forall k :: Part(HeldSplit(t, c1, i1), k) == Part(HeldSplit(s, c0, i0), k) + ChargeFor(pool, cost, items, k)
  {
    hide Held, ChargeFor;
    forall k
      ensures Part(HeldSplit(t, c1, i1), k) == Part(HeldSplit(s, c0, i0), k) + ChargeFor(pool, cost, items, k)
    {
      PartHeld(s, c0, i0, k);
      PartHeld(t, c1, i1, k);
    }
  }

  lemma QueueAsks(s: State, f: Frame, granted: bool, cost: int, items: int)
    requires InvWith(s, cost, items) && Queueable(s, f)
    ensures Asks(s, cost, items, QueueFrame(s, f, granted).0, cost, items)
  {
    hide InvWith, Queueable, Enqueue, QueueFrame, Held, LaneInv, SessionAdmits, Admit, Asks, ChargeFor;
    var (t, ok) := QueueFrame(s, f, granted);
    EnqueueRoute(s, f, cost, items);
    QueueShape(s, f, granted);
    QueueCalls(s, f, granted);
    var r := Route(s, f.streamID).value;
    var need := Admit(s.lanes[r].queue, f, s.limits.maxFramePayload);
    if ok {
      QueueableIsHeld(s, f, t, r, cost, items);
      QueueKeepsInv(s, f, granted, cost, items);
      if need.Absorbed? {
        AsksNothing(s, cost, items, t, cost, items);
      } else {
        AsksCharge(s, cost, items, t, cost, items, need.cost, need.items, need.pool);
      }
    } else if t.calls == s.calls {
      AsksSame(s, t, cost, items);
    } else {
      AsksRefused(s, t, BudgetCall(need.cost, need.items, need.pool, false), cost, items);
    }
  }

  lemma QueueableIsHeld(s: State, f: Frame, t: State, r: LaneRef, cost: int, items: int)
    requires InvWith(s, cost, items) && Queueable(s, f) && r in s.lanes
    requires t.streams == s.streams && t.lanes == s.lanes[r := Enqueue(s.lanes[r], f, s.limits.maxFramePayload)]
    ensures forall k ::
      Held(t, cost, items, k)
      == Held(s, cost, items, k) + AdmissionCharge(Admit(s.lanes[r].queue, f, s.limits.maxFramePayload), k)
  {
    hide InvWith, Queueable, Enqueue, Held, LaneInv, Admit, AdmissionCharge;
    QueueablePushes(s, f, cost, items, r);
    forall k
      ensures Held(t, cost, items, k) == Held(s, cost, items, k)
        + AdmissionCharge(Admit(s.lanes[r].queue, f, s.limits.maxFramePayload), k)
    {
      EnqueueHeld(s, r, f, cost, items, k);
      HeldSame(WithLane(s, r, Enqueue(s.lanes[r], f, s.limits.maxFramePayload)), t, cost, items);
    }
  }

  lemma LaneOfInv(s: State, r: LaneRef, cost: int, items: int)
    requires InvWith(s, cost, items) && r in s.lanes
    ensures LaneInv(s.lanes[r])
  {
    hide StreamsInv, Register, Placement, Accounts;
  }

  lemma LaneRegistered(s: State, laneID: nat, cost: int, items: int)
    requires InvWith(s, cost, items) && laneID in s.carrierLanes
    ensures s.carrierLanes[laneID] in s.lanes
  {
    hide StreamsInv, LaneInv, Placement, Accounts;
  }

  lemma DropLaneAsks(s: State, laneID: nat, cost: int, items: int)
    requires InvWith(s, cost, items) && laneID !in s.streams
    ensures Asks(s, cost, items, DropLane(s, laneID), cost, items)
  {
    hide InvWith, DropLane, Emptied, LaneInv, LaneCharge, GivesBackCalls, Asks;
    var t := DropLane(s, laneID);
    DropLaneShape(s, laneID, cost, items);
    DropLaneKeepsInv(s, laneID, cost, items);
    if laneID in s.carrierLanes {
      var r := s.carrierLanes[laneID];
      LaneRegistered(s, laneID, cost, items);
      LaneOfInv(s, r, cost, items);
      EmptiedKeepsLaneInv(s.lanes[r]);
      LaneHeldLess(s, r, Emptied(s.lanes[r]), t, cost, items);
      InvPanic(s, cost, items);
      InvPanic(t, cost, items);
      DropLaneCalls(s, laneID);
      GivingBackAsks(s, cost, items, t, cost, items);
    } else {
      UnregisteredDrop(s, laneID);
      AsksSame(s, t, cost, items);
    }
  }

  lemma UnregisteredDrop(s: State, laneID: nat)
    requires laneID !in s.carrierLanes
    ensures DropLane(s, laneID) == s
  {
  }

  lemma GivingBackAsks(s: State, c0: int, i0: int, t: State, c1: int, i1: int)
    requires InvWith(s, c0, i0) && InvWith(t, c1, i1) && GivesBackCalls(s, t)
    requires forall k :: Held(t, c1, i1, k) <= Held(s, c0, i0, k)
    ensures Asks(s, c0, i0, t, c1, i1)
  {
    hide InvWith, Held, Asks;
    AsksGivingBack(s, c0, i0, t, c1, i1);
  }

  lemma DropLaneCalls(s: State, laneID: nat)
    requires s.panic.None? && DropLane(s, laneID).panic.None? && laneID in s.carrierLanes
    ensures GivesBackCalls(s, DropLane(s, laneID))
  {
    hide Holds, Emptied;
    var held := Holds(LaneAt(s, s.carrierLanes[laneID]));
    ReleaseCalls(s, held.cost, held.items);
  }

  lemma SignalCharge(l: Lane)
    ensures forall k :: LaneCharge(Signal(l), k) == LaneCharge(l, k)
  {
  }

  lemma SignalAsks(s: State, laneID: nat, cost: int, items: int)
    requires laneID in s.carrierLanes ==> s.carrierLanes[laneID] in s.lanes
    ensures Asks(s, cost, items, SignalLane(s, laneID), cost, items)
  {
    hide Asks, LaneCharge;
    if laneID in s.carrierLanes {
      var r := s.carrierLanes[laneID];
      SignalCharge(s.lanes[r]);
      AsksLane(s, r, Signal(s.lanes[r]), SignalLane(s, laneID), cost, items);
    } else {
      AsksSame(s, s, cost, items);
    }
  }

  lemma RememberAsks(s: State, id: nat, cost: int, items: int)
    requires InvWith(s, cost, items) && id !in s.streams
    ensures Asks(s, cost, items, RememberClosed(s, id), cost, items)
  {
    hide InvWith, DropLane, SignalLane, Asks, Remember, Evicted;
    if id in s.tombstones.closed {
      AsksSame(s, s, cost, items);
    } else {
      NotedKeepsInv(s, id, cost, items);
      AsksSame(s, Noted(s, id), cost, items);
      var dropped := if EvictedBy(s, id).Some? then DropLane(Noted(s, id), EvictedBy(s, id).value) else Noted(s, id);
      if EvictedBy(s, id).Some? {
        DropLaneKeepsInv(Noted(s, id), EvictedBy(s, id).value, cost, items);
        DropLaneAsks(Noted(s, id), EvictedBy(s, id).value, cost, items);
        AsksThen(s, cost, items, Noted(s, id), cost, items, dropped, cost, items);
      }
      if id in dropped.carrierLanes {
        LaneRegistered(dropped, id, cost, items);
      }
      SignalAsks(dropped, id, cost, items);
      AsksThen(s, cost, items, dropped, cost, items, SignalLane(dropped, id), cost, items);
    }
  }

  lemma StreamHeld(s: State, t: State, id: nat, cost: int, items: int, cost1: int, items1: int)
    requires t.lanes == s.lanes
    requires t.streams == s.streams - {id} || (id in t.streams && t.streams == s.streams[id := t.streams[id]])
    ensures forall k ::
      Held(t, cost1, items1, k)
      == Held(s, cost, items, k) - At(s.streams, StreamCharge, k, id) + At(t.streams, StreamCharge, k, id)
      + (if k == UpCost then cost1 - cost else if k == UpItems then items1 - items else 0)
  {
    hide LaneCharge, StreamCharge;
    forall k
      ensures Sum(t.streams, StreamCharge, k) == Sum(s.streams, StreamCharge, k)
        - At(s.streams, StreamCharge, k, id) + At(t.streams, StreamCharge, k, id)
    {
      if id in t.streams {
        SumUpdate(s.streams, StreamCharge, k, id, t.streams[id]);
      } else {
        SumRemove(s.streams, StreamCharge, k, id);
      }
    }
    hide Sum;
  }

  lemma DropStreamAsks(s: State, id: nat, cost: int, items: int)
    requires InvWith(s, cost, items) && id in s.streams
    ensures Asks(s, cost, items, DropStream(s, id), cost, items)
  {
    hide InvWith, DropStream, GivesBackCalls, Asks, Held;
    var t := DropStream(s, id);
    DropStreamKeepsInv(s, id, cost, items);
    InvStream(s, id, cost, items);
    StreamHeld(s, t, id, cost, items, cost, items);
    InvPanic(s, cost, items);
    InvPanic(t, cost, items);
    DropStreamCalls(s, id);
    StreamChargeAt(s.streams, id);
    GivingBackAsks(s, cost, items, t, cost, items);
  }

  lemma StreamChargeAt(streams: map<nat, Stream>, id: nat)
    requires id in streams ==> StreamInv(streams[id])
    ensures forall k :: At(streams, StreamCharge, k, id) >= 0
    ensures forall k :: At(streams - {id}, StreamCharge, k, id) == 0
  {
  }

  lemma DropStreamCalls(s: State, id: nat)
    requires s.panic.None? && DropStream(s, id).panic.None? && id in s.streams
    ensures GivesBackCalls(s, DropStream(s, id))
  {
    ReleaseCalls(s, s.streams[id].pendingWriteCost, s.streams[id].pendingWriteItems);
  }

  lemma RefuseAsks(s: State, id: nat, granted: bool, cost: int, items: int)
    requires InvWith(s, cost, items) && !s.closed && id !in s.streams && 0 < id <= MAX_STREAM_ID
    requires UsesLanes(s) ==> id in s.carrierLanes
    ensures Asks(s, cost, items, QueueFrame(RememberClosed(s, id), Frame(CLOSE, id, []), granted).0, cost, items)
  {
    hide InvWith, RememberClosed, Asks, Queueable, QueueFrame, Remember;
    var u := RememberClosed(s, id);
    RememberKeepsInv(s, id, cost, items);
    RememberShape(s, id, cost, items);
    RememberAsks(s, id, cost, items);
    CloseIsQueueable(u, id, cost, items);
    QueueAsks(u, Frame(CLOSE, id, []), granted, cost, items);
    AsksThen(s, cost, items, u, cost, items, QueueFrame(u, Frame(CLOSE, id, []), granted).0, cost, items);
  }

  lemma EndStreamAsks(s: State, id: nat, cost: int, items: int)
    requires InvWith(s, cost, items) && id in s.streams
    ensures Asks(s, cost, items, RememberClosed(DropStream(s, id), id), cost, items)
  {
    hide InvWith, RememberClosed, DropStream, Asks;
    DropStreamKeepsInv(s, id, cost, items);
    DropStreamAsks(s, id, cost, items);
    RememberAsks(DropStream(s, id), id, cost, items);
    AsksThen(s, cost, items, DropStream(s, id), cost, items, RememberClosed(DropStream(s, id), id), cost, items);
  }


  // ---------------------------------------------------------------------------- batches

  lemma AsksTicket(s: State, t: State, cost: int, items: int, granted: bool)
    requires InvWith(s, cost, items) && t.calls == s.calls + [TicketCall(s.nextBackend, granted)]
    requires forall k :: Held(t, cost, items, k) == Held(s, cost, items, k)
    requires t.nextBackend == s.nextBackend + (if granted then 1 else 0)
    ensures Asks(s, cost, items, t, cost, items)
  {
    InvTotals(s, cost, items);
    SplitOf(s, t, cost, items);
    hide InvWith, Held, HeldSplit, NonNegative, Asks;
    AsksOnce(s, cost, items, t, cost, items, TicketCall(s.nextBackend, granted));
  }

  /** A stream's record changes by what the reservation changes the other way, or not at all. */
  lemma StreamMoveAsks(s: State, t: State, id: nat, cost: int, items: int, cost1: int, items1: int)
    requires t.calls == s.calls && t.nextBackend == s.nextBackend && t.lanes == s.lanes
    requires id in s.streams && id in t.streams && t.streams == s.streams[id := t.streams[id]]
    requires t.streams[id].pendingWriteCost + cost1 == s.streams[id].pendingWriteCost + cost
    requires t.streams[id].pendingWriteItems + items1 == s.streams[id].pendingWriteItems + items
    ensures Asks(s, cost, items, t, cost1, items1)
  {
    StreamHeld(s, t, id, cost, items, cost1, items1);
    hide Held, Asks;
    AsksNothing(s, cost, items, t, cost1, items1);
  }

  lemma NewStreamAsks(s: State, t: State, id: nat, cost: int, items: int)
    requires InvWith(s, cost, items) && id !in s.streams && t.calls == s.calls + [TicketCall(s.nextBackend, true)]
    requires t.streams == s.streams[id := NewStream(s.nextBackend)] && t.lanes == s.lanes
        && t.nextBackend == s.nextBackend + 1
    ensures Asks(s, cost, items, t, cost, items)
  {
    StreamHeld(s, t, id, cost, items, cost, items);
    NewStreamCharge(t.streams, id, s.nextBackend);
    hide InvWith, Held, Asks, NewStream, StreamCharge;
    AsksTicket(s, t, cost, items, true);
  }

  lemma NewStreamCharge(streams: map<nat, Stream>, id: nat, backend: nat)
    requires id in streams && streams[id] == NewStream(backend)
    ensures forall k :: At(streams, StreamCharge, k, id) == 0
  {
  }

  lemma OpenAsks(x: Applying, id: nat, a: Answer)
    requires InvWith(x.state, x.cost, x.items) && !x.state.closed && 0 < id <= MAX_STREAM_ID && id !in x.state.streams
    requires UsesLanes(x.state) ==> id in x.state.carrierLanes
    ensures var y := ApplyOpen(x, id, a); Asks(x.state, x.cost, x.items, y.state, y.cost, y.items)
  {
    hide InvWith, RememberClosed, QueueFrame, NewStream, Asks;
    var s := x.state;
    var t := ApplyOpen(x, id, a).state;
    if Admitted(s, a) {
      NewStreamAsks(s, t, id, x.cost, x.items);
    } else {
      var u := AskTicket(s, a);
      TicketAsked(s, a, x.cost, x.items);
      if u.calls != s.calls {
        HeldSame(s, u, x.cost, x.items);
        AsksTicket(s, u, x.cost, x.items, false);
      } else {
        AsksSame(s, u, x.cost, x.items);
      }
      hide AskTicket;
      RefuseAsks(u, id, a.granted, x.cost, x.items);
      AsksThen(s, x.cost, x.items, u, x.cost, x.items, t, x.cost, x.items);
    }
  }

  lemma FedCharge(st: Stream, payload: Bytes)
    ensures Fed(st, payload).pendingWriteCost == st.pendingWriteCost + WriteAmount(st, payload).cost
    ensures Fed(st, payload).pendingWriteItems == st.pendingWriteItems + WriteAmount(st, payload).items
  {
  }

  lemma ApplyFrameAsks(x: Applying, f: Frame, a: Answer)
    requires InvWith(x.state, x.cost, x.items) && !x.state.closed && Applicable(x.state, f, x.cost, x.items)
    ensures var y := ApplyFrame(x, f, a); Asks(x.state, x.cost, x.items, y.state, y.cost, y.items)
  {
    hide InvWith, RememberClosed, QueueFrame, DropStream, NewStream, Asks, Credited, WriteAmount, Fed, ApplyOpen;
    var s, id := x.state, f.streamID;
    var y := ApplyFrame(x, f, a);
    if id == 0 || (f.typeCode != OPEN && id in s.tombstones.closed) {
      AsksSame(s, s, x.cost, x.items);
    } else if f.typeCode == OPEN {
      OpenAsks(x, id, a);
    } else if f.typeCode == DATA {
      FedCharge(s.streams[id], f.payload);
      StreamMoveAsks(s, y.state, id, x.cost, x.items, y.cost, y.items);
    } else if f.typeCode == WINDOW {
      StreamMoveAsks(s, y.state, id, x.cost, x.items, x.cost, x.items);
    } else if f.typeCode == CLOSE {
      EndStreamAsks(s, id, x.cost, x.items);
    } else {
      AsksSame(s, s, x.cost, x.items);
    }
  }

  lemma {:induction false} ApplyAllAsks(
      x: Applying, sim: Sim, tombstones: set<nat>, past: seq<nat>, counted: set<nat>,
      frames: seq<Frame>, laneID: nat, answers: seq<Answer>)
    requires InStep(x, sim, tombstones, past, counted, frames, laneID)
    ensures var y := ApplyAll(x, frames, answers); Asks(x.state, x.cost, x.items, y.state, y.cost, y.items)
    decreases |frames|
  {
    hide InvWith, Linked, ApplyFrame, CoreStep, Simulate, PastAfter, Validate, OnWire, CountedAfter, Covered,
      Unknown, Asks, Applicable, OnOneLane;
    AsksSame(x.state, x.state, x.cost, x.items);
    if frames != [] && x.state.panic.None? {
      var f, a := frames[0], First(answers);
      if Unknown(CoreOf(x.state), f) {
        UnknownPanics(x, f, a);
        AsksSame(x.state, ApplyFrame(x, f, a).state, x.cost, x.items);
      } else {
        KnownIsApplicable(x, sim, tombstones, past, counted, frames, laneID);
        KnownStaysInStep(x, sim, tombstones, past, counted, frames, laneID, a);
        ApplyFrameAsks(x, f, a);
        var y := ApplyFrame(x, f, a);
        if y.ok {
          ApplyAllAsks(y, Simulate(sim, tombstones, f), tombstones,
              PastAfter(CoreOf(x.state), past, f, a, x.state.limits),
                       CountedAfter(counted, f), frames[1..], laneID, Others(answers));
          var z := ApplyAll(y, frames[1..], Others(answers));
          AsksThen(x.state, x.cost, x.items, y.state, y.cost, y.items, z.state, z.cost, z.items);
        }
      }
    }
  }

  // -------------------------------------------------------------------- committing a batch

  lemma ReservedAsks(s: State, frames: seq<Frame>, a: Answers)
    requires Inv(s) && !s.closed && SessionRuns.ReservationGranted(s, frames, a)
    ensures var t := SessionRuns.Reserved(s, frames);
      var x := Begin(t, frames);
      Asks(s, 0, 0, t, x.cost, x.items)
  {
    hide InvWith, Asks, Reservation, ClassLimit, Held;
    var t := SessionRuns.Reserved(s, frames);
    var x := Begin(t, frames);
    SessionRuns.ReservedKeepsInv(s, frames, a);
    ReservedHeld(s, t, x.cost, x.items);
    if t.calls == s.calls {
      assert x.cost == 0 && x.items == 0;
      AsksNothing(s, 0, 0, t, x.cost, x.items);
    } else {
      AsksCharge(s, 0, 0, t, x.cost, x.items, x.cost, x.items, PendingUplink);
    }
  }

  lemma ReservedHeld(s: State, reserved: State, cost: int, items: int)
    requires reserved.streams == s.streams && reserved.lanes == s.lanes
    ensures forall k :: Held(reserved, cost, items, k) == Held(s, 0, 0, k) + ChargeFor(PendingUplink, cost, items, k)
  {
    hide LaneCharge, StreamCharge;
  }

  lemma UnreservedAsks(s: State, frames: seq<Frame>, a: Answers)
    requires Inv(s) && !SessionRuns.ReservationGranted(s, frames, a)
    ensures Asks(s, 0, 0, SessionRuns.Unreserved(s, frames, a), 0, 0)
  {
    hide InvWith, Asks, Reservation, ClassLimit;
    var t := SessionRuns.Unreserved(s, frames, a);
    var need := Reservation(s.streams.Keys, frames);
    if t.calls == s.calls {
      AsksSame(s, t, 0, 0);
    } else {
      AsksRefused(s, t, BudgetCall(need.cost, need.items, PendingUplink, false), 0, 0);
    }
  }

  lemma SettleAsks(s: State, cost: int, items: int)
    requires InvWith(s, cost, items) && !s.closed
    ensures Asks(s, cost, items, Release(s, cost, items), 0, 0)
  {
    hide InvWith, Asks, GivesBackCalls, Held, Release;
    SessionRuns.SettleKeepsInv(s, cost, items);
    InvAmounts(s, cost, items);
    InvStreams(s, cost, items);
    var t := Release(s, cost, items);
    forall k
      ensures Held(t, 0, 0, k) <= Held(s, cost, items, k)
    {
      SessionRuns.SettleHeld(s, t, cost, items, k);
    }
    InvPanic(s, cost, items);
    InvPanic(t, 0, 0);
    ReleaseCalls(s, cost, items);
    GivingBackAsks(s, cost, items, t, 0, 0);
  }

  lemma InvStreams(s: State, cost: int, items: int)
    requires InvWith(s, cost, items)
    ensures StreamsInv(s)
  {
    hide StreamsInv, LanesInv, Accounts;
  }

  lemma CommittedAsks(s: State, r: LaneRef, sequence: nat, body: Bytes)
    requires r in s.lanes
    ensures Asks(s, 0, 0, WithLane(s, r, Committed(s.lanes[r], sequence, body)), 0, 0)
  {
    hide Asks;
    AsksTouch(s, r, Committed(s.lanes[r], sequence, body));
  }

  /** A section ends with nothing reserved, unless it panics in the middle of a batch. */
  ghost predicate AsksInAll(s: State, t: State) {
    exists c: int, i: int :: Asks(s, 0, 0, t, c, i) && (t.panic.None? ==> c == 0 && i == 0)
  }

  lemma CommitAsks(s: State, r: LaneRef, sequence: nat, body: Bytes, frames: seq<Frame>, a: Answers, laneID: nat)
    requires Inv(s) && !s.closed && r in s.lanes && OnWire(frames) && OnOneLane(s, frames, laneID)
    ensures AsksInAll(s, CommitBatch(s, r, sequence, body, frames, a).0)
  {
    hide InvWith, ValidateBatch, Reservation, ApplyAll, SessionRuns.ReservationGranted, OnOneLane, InStep, Fifo,
      OnWire, Release, Committed, Asks, Held, SessionRuns.Unreserved;
    SessionRuns.CommitCases(s, r, sequence, body, frames, a);
    AsksSame(s, s, 0, 0);
    if ValidateBatch(s, frames) && SessionRuns.ReservationGranted(s, frames, a) {
      var reserved := SessionRuns.Reserved(s, frames);
      var x := Begin(reserved, frames);
      SessionRuns.ReservedKeepsInv(s, frames, a);
      SessionRuns.ReservedSame(s, frames, laneID);
      BatchStartsInStep(reserved, frames, laneID);
      ReservedAsks(s, frames, a);
      ApplyAllAsks(x, Sim(Snapshots(s.streams), {}), s.tombstones.closed, Fifo(s.tombstones), s.streams.Keys,
                   frames, laneID, a.frames);
      ValidatedBatch(reserved, frames, laneID, a.frames);
      var y := SessionRuns.AppliedTo(s, frames, a);
      AsksThen(s, 0, 0, reserved, x.cost, x.items, y.state, y.cost, y.items);
      if y.state.panic.Some? {
        return;
      }
      SessionRuns.AppliedSame(s, frames, a, laneID);
      hide SessionRuns.Reserved;
      SettleAsks(y.state, y.cost, y.items);
      var settled := Release(y.state, y.cost, y.items);
      ReleasedLanes(y.state, y.cost, y.items);
      AsksThen(s, 0, 0, y.state, y.cost, y.items, settled, 0, 0);
      if y.ok {
        CommittedAsks(settled, r, sequence, body);
        AsksThen(s, 0, 0, settled, 0, 0, WithLane(settled, r, Committed(settled.lanes[r], sequence, body)), 0, 0);
      }
    } else if ValidateBatch(s, frames) {
      UnreservedAsks(s, frames, a);
    }
  }

  lemma ReleasedLanes(s: State, cost: int, items: int)
    ensures Release(s, cost, items).lanes == s.lanes && Release(s, cost, items).streams == s.streams
  {
  }

  // ------------------------------------------------------------------ section by section

  lemma UpActiveAsks(s: State, r: LaneRef, active: bool)
    requires r in s.lanes
    ensures Asks(s, 0, 0, SetUpActive(s, r, active), 0, 0)
  {
    hide Asks;
    AsksTouch(s, r, s.lanes[r].(upActive := active));
  }

  lemma MainLane(s: State)
    requires Inv(s)
    ensures MAIN in s.lanes
  {
    hide StreamsInv, LaneInv, Placement, Register, Accounts;
  }

  lemma UpFinishAsks(s: State, op: SessionRuns.Op)
    requires Inv(s) && op.OpUpFinish? && !UsesLanes(s)
    ensures AsksInAll(s, UpFinish(s, op.sequence, op.body, op.answers).0)
  {
    hide InvWith, CommitBatch, OnWire, ClientFrames, Asks;
    var idle := SetUpActive(s, MAIN, false);
    MainLane(s);
    UpActiveAsks(s, MAIN, false);
    if !s.closed && ClientFrames(s, op.body, None).Some? {
      var frames := ClientFrames(s, op.body, None).value;
      SessionRuns.ClientFramesOnWire(s, op.body, None);
      SessionRuns.UpActiveKeepsInv(s, MAIN, false);
      CommitAsks(idle, MAIN, op.sequence, op.body, frames, op.answers, 0);
      var t := CommitBatch(idle, MAIN, op.sequence, op.body, frames, op.answers).0;
      var c: int, i: int :| Asks(idle, 0, 0, t, c, i) && (t.panic.None? ==> c == 0 && i == 0);
      AsksThen(s, 0, 0, idle, 0, 0, t, c, i);
    }
  }

  lemma UpOnLaneAsks(s: State, laneID: nat, sequence: nat, body: Bytes, frames: seq<Frame>, a: Answers)
    requires Inv(s) && UsesLanes(s) && !s.closed && laneID in s.carrierLanes && OnWire(frames)
    requires forall i :: 0 <= i < |frames| ==> frames[i].streamID == laneID
    ensures Asks(s, 0, 0, UpOnLane(s, s.carrierLanes[laneID], sequence, body, frames, a).0, 0, 0)
  {
    hide InvWith, CommitBatch, OnWire, CheckUp, Asks;
    var r := s.carrierLanes[laneID];
    SessionRuns.RegisteredInLanes(s, laneID);
    AsksSame(s, s, 0, 0);
    if CheckUp(s.lanes[r], sequence, body) == Ready {
      var active := SetUpActive(s, r, true);
      SessionRuns.UpActiveKeepsInv(s, r, true);
      UpActiveAsks(s, r, true);
      SessionRuns.CommitKeepsInv(active, r, sequence, body, frames, a, laneID);
      var t := CommitBatch(active, r, sequence, body, frames, a).0;
      if t.panic.Some? {
        SessionRuns.ValidatedOnLane(active, frames, a, laneID);
      }
      CommitAsks(active, r, sequence, body, frames, a, laneID);
      AsksThen(s, 0, 0, active, 0, 0, t, 0, 0);
      UpActiveAsks(t, r, false);
      AsksThen(s, 0, 0, t, 0, 0, SetUpActive(t, r, false), 0, 0);
    }
  }

  lemma AddLaneAsks(s: State, laneID: nat)
    requires Inv(s)
    ensures Asks(s, 0, 0, AddLane(s, laneID), 0, 0)
  {
    hide StreamsInv, LaneInv, Placement, Register, Accounts, LaneCharge, StreamCharge, Asks;
    NewLaneInv();
    forall k
      ensures Held(AddLane(s, laneID), 0, 0, k) == Held(s, 0, 0, k)
    {
      SumUpdate(s.lanes, LaneCharge, k, s.nextLane, NEW_LANE);
    }
    AsksNothing(s, 0, 0, AddLane(s, laneID), 0, 0);
  }

  lemma UpLaneAsks(s: State, op: SessionRuns.Op)
    requires Inv(s) && op.OpUpLane?
    ensures Asks(s, 0, 0, UpLane(s, op.laneID, op.sequence, op.body, op.answers).0, 0, 0)
  {
    hide InvWith, UpOnLane, ClientFrames, OnWire, AddLane, Asks;
    AsksSame(s, s, 0, 0);
    var laneID := op.laneID;
    if UsesLanes(s) && laneID <= MAX_STREAM_ID && ClientFrames(s, op.body, Some(laneID)).Some? && !s.closed {
      var frames := ClientFrames(s, op.body, Some(laneID)).value;
      SessionRuns.ClientFramesOnWire(s, op.body, Some(laneID));
      hide OnlyLateFrames;
      if laneID in s.carrierLanes {
        UpOnLaneAsks(s, laneID, op.sequence, op.body, frames, op.answers);
      } else if laneID != 0 && frames[0].typeCode == OPEN {
        var added := AddLane(s, laneID);
        AddLaneKeepsInv(s, laneID, 0, 0);
        SessionRuns.AddedLane(s, laneID);
        AddLaneAsks(s, laneID);
        UpOnLaneAsks(added, laneID, op.sequence, op.body, frames, op.answers);
        AsksThen(s, 0, 0, added, 0, 0, UpOnLane(added, s.nextLane, op.sequence, op.body, frames, op.answers).0, 0, 0);
      }
    }
  }

  lemma DataAsks(s: State, id: nat, data: Bytes, granted: bool)
    requires Inv(s) && |data| <= DATA_CHUNK
    ensures Asks(s, 0, 0, BackendData(s, id, data, granted).0, 0, 0)
  {
    hide InvWith, QueueFrame, Asks;
    AsksSame(s, s, 0, 0);
    if !s.closed && id in s.streams && 0 < |data| <= s.streams[id].sendCredit {
      var st := s.streams[id].(sendCredit := s.streams[id].sendCredit - |data|);
      var t := WithStream(s, id, st);
      var f := Frame(DATA, id, data);
      InvStream(s, id, 0, 0);
      SessionRuns.StreamTouchKeepsInv(s, id, st);
      StreamMoveAsks(s, t, id, 0, 0, 0, 0);
      SessionRuns.LiveIsQueueable(t, f);
      QueueAsks(t, f, granted, 0, 0);
      AsksThen(s, 0, 0, t, 0, 0, QueueFrame(t, f, granted).0, 0, 0);
    }
  }

  /** A stream's record shrinks by what is given back. */
  lemma ShrinkAsks(s: State, id: nat, st: Stream, cost: int, items: int)
    requires Inv(s) && !s.closed && id in s.streams && StreamInv(st) && cost >= 0 && items >= 0
    requires st.pendingWriteCost == s.streams[id].pendingWriteCost - cost
    requires st.pendingWriteItems == s.streams[id].pendingWriteItems - items
    ensures Asks(s, 0, 0, Release(WithStream(s, id, st), cost, items), 0, 0)
  {
    hide InvWith, Asks, GivesBackCalls, Held, StreamInv;
    var t := Release(WithStream(s, id, st), cost, items);
    SessionRuns.StreamShrinkKeepsInv(s, id, st, cost, items);
    InvPanic(s, 0, 0);
    InvPanic(t, 0, 0);
    ShrinkCalls(s, id, st, cost, items);
    hide Release;
    StreamHeld(s, t, id, 0, 0, 0, 0);
    StreamChargeLess(s.streams, t.streams, id);
    GivingBackAsks(s, 0, 0, t, 0, 0);
  }

  lemma StreamChargeLess(streams: map<nat, Stream>, after: map<nat, Stream>, id: nat)
    requires id in streams && id in after && after[id].pendingWriteCost <= streams[id].pendingWriteCost
        && after[id].pendingWriteItems <= streams[id].pendingWriteItems
    ensures forall k :: At(after, StreamCharge, k, id) <= At(streams, StreamCharge, k, id)
  {
  }

  lemma ShrinkCalls(s: State, id: nat, st: Stream, cost: int, items: int)
    requires s.panic.None? && Release(WithStream(s, id, st), cost, items).panic.None?
    ensures GivesBackCalls(s, Release(WithStream(s, id, st), cost, items))
  {
    ReleaseCalls(WithStream(s, id, st), cost, items);
  }

  lemma BackendAsks(s: State, op: SessionRuns.Op)
    requires Inv(s) && s.panic.None? && (op.OpNextWrite? || op.OpDrained? || op.OpWriteFinished? || op.OpBackendClosed?)
    ensures Asks(s, 0, 0, SessionRuns.Step(s, op), 0, 0)
  {
    hide InvWith, QueueFrame, Release, DropStream, RememberClosed, CloseSession, Asks;
    AsksSame(s, s, 0, 0);
    if !s.closed && op.id in s.streams {
      var id := op.id;
      var st := s.streams[id];
      InvStream(s, id, 0, 0);
      match op
      case OpNextWrite(_) =>
        if st.writes != [] { StreamMoveAsks(s, SessionRuns.Step(s, op), id, 0, 0, 0, 0); }
      case OpDrained(_, amount, granted) => DrainedAsks(s, id, amount, granted);
      case OpWriteFinished(_) =>
        if !(st.pendingWriteItems == 0 || st.pendingWriteCost < QUEUE_ITEM_COST) {
          var finished := st.(pendingWriteItems := st.pendingWriteItems - 1,
                              pendingWriteCost := st.pendingWriteCost - QUEUE_ITEM_COST);
          ShrinkAsks(s, id, finished, QUEUE_ITEM_COST, 1);
        }
      case OpBackendClosed(_, backend, granted) => BackendClosedAsks(s, id, backend, granted);
    }
  }

  lemma DrainedAsks(s: State, id: nat, amount: int, granted: bool)
    requires Inv(s) && !s.closed && id in s.streams
    ensures Asks(s, 0, 0, Drained(s, id, amount, granted).0, 0, 0)
  {
    hide InvWith, QueueFrame, Release, Asks;
    AsksSame(s, s, 0, 0);
    var st := s.streams[id];
    InvStream(s, id, 0, 0);
    if 0 < amount <= st.pendingWriteBytes && amount <= st.pendingWriteCost
        && st.receiveWindow + amount <= INITIAL_STREAM_WINDOW {
      var drained :=
        st.(pendingWriteBytes := st.pendingWriteBytes - amount, pendingWriteCost := st.pendingWriteCost - amount,
                         receiveWindow := st.receiveWindow + amount);
      SessionRuns.StreamShrinkKeepsInv(s, id, drained, amount, 0);
      ShrinkAsks(s, id, drained, amount, 0);
      var t := Release(WithStream(s, id, drained), amount, 0);
      var f := Frame(WINDOW, id, WindowPayload(amount));
      SessionRuns.LiveIsQueueable(t, f);
      QueueAsks(t, f, granted, 0, 0);
      AsksThen(s, 0, 0, t, 0, 0, QueueFrame(t, f, granted).0, 0, 0);
    }
  }

  lemma CloseAsks(s: State)
    requires Inv(s)
    ensures Asks(s, 0, 0, CloseSession(s), 0, 0)
  {
    hide InvWith, CloseSession, Held, Asks, GivesBackCalls;
    if s.closed {
      ClosedAlready(s);
      AsksSame(s, s, 0, 0);
    } else {
      SessionRuns.CloseSessionKeepsInv(s);
      ClosedHoldsNothing(s);
      forall k
        ensures Held(s, 0, 0, k) >= 0
      {
        HeldNonNegative(s, k);
      }
      ClosePending(s);
      GivingBackAsks(s, 0, 0, CloseSession(s), 0, 0);
    }
  }

  lemma ClosePending(s: State)
    requires !s.closed
    ensures GivesBackCalls(s, CloseSession(s))
  {
  }

  lemma ClosedAlready(s: State)
    requires s.closed
    ensures CloseSession(s) == s
  {
  }

  lemma ClosedHoldsNothing(s: State)
    requires Inv(s) && !s.closed
    ensures forall k :: Held(CloseSession(s), 0, 0, k) == 0
  {
    hide Accounts, LanesInv, LaneCharge, Held, LaneInv, Idle, Emptied, StreamsInv;
    var t := CloseSession(s);
    assert t.lanes == ClosedLanes(s);
    ClosedKeepsLanes(s, t);
    NothingHeld(t);
  }

  lemma HeldNonNegative(s: State, k: Kind)
    requires Inv(s)
    ensures Held(s, 0, 0, k) >= 0
  {
    hide StreamsInv, LanesInv, Accounts;
    HeldCovers(s, k);
  }

  lemma BackendClosedAsks(s: State, id: nat, backend: nat, granted: bool)
    requires Inv(s) && !s.closed && id in s.streams
    ensures Asks(s, 0, 0, BackendClosed(s, id, backend, granted), 0, 0)
  {
    hide InvWith, QueueFrame, DropStream, RememberClosed, CloseSession, Asks;
    AsksSame(s, s, 0, 0);
    if s.streams[id].backend == backend {
      InvStream(s, id, 0, 0);
      var dropped := DropStream(s, id);
      var queued := QueueFrame(RememberClosed(dropped, id), Frame(CLOSE, id, []), granted).0;
      DropStreamKeepsInv(s, id, 0, 0);
      DropStreamAsks(s, id, 0, 0);
      RefuseKeepsInv(dropped, id, granted, 0, 0);
      RefuseAsks(dropped, id, granted, 0, 0);
      AsksThen(s, 0, 0, dropped, 0, 0, queued, 0, 0);
      CloseAsks(queued);
      AsksThen(s, 0, 0, queued, 0, 0, CloseSession(queued), 0, 0);
    }
  }

  lemma ReleaseWebSocketLaneAsks(s: State, laneID: nat)
    requires Inv(s)
    ensures Asks(s, 0, 0, ReleaseWebSocketLane(s, laneID), 0, 0)
  {
    hide InvWith, DropLane, DropStream, RememberClosed, Asks, Remember, Evicted;
    AsksSame(s, s, 0, 0);
    if s.carrier == WebSocketLanes && laneID in s.carrierLanes {
      var r := s.carrierLanes[laneID];
      SessionRuns.RegisteredInLanes(s, laneID);
      SessionRuns.ActivateKeepsInv(s, r, false);
      var inactive := WithLane(s, r, s.lanes[r].(websocketActive := false));
      AsksTouch(s, r, s.lanes[r].(websocketActive := false));
      if laneID in s.streams {
        var ended := RememberClosed(DropStream(inactive, laneID), laneID);
        DropStreamKeepsInv(inactive, laneID, 0, 0);
        RememberKeepsInv(DropStream(inactive, laneID), laneID, 0, 0);
        RememberShape(DropStream(inactive, laneID), laneID, 0, 0);
        EndStreamAsks(inactive, laneID, 0, 0);
        AsksThen(s, 0, 0, inactive, 0, 0, ended, 0, 0);
        DropLaneAsks(ended, laneID, 0, 0);
        AsksThen(s, 0, 0, ended, 0, 0, DropLane(ended, laneID), 0, 0);
      } else {
        DropLaneAsks(inactive, laneID, 0, 0);
        AsksThen(s, 0, 0, inactive, 0, 0, DropLane(inactive, laneID), 0, 0);
      }
    }
  }

  lemma AcquireAsks(s: State, laneID: nat)
    requires Inv(s)
    ensures Asks(s, 0, 0, AcquireWebSocket(s).0, 0, 0) && Asks(s, 0, 0, AcquireWebSocketLane(s, laneID).0, 0, 0)
  {
    hide InvWith, Asks, AddLane;
    AsksSame(s, s, 0, 0);
    MainLane(s);
    AsksTouch(s, MAIN, s.lanes[MAIN].(websocketActive := true));
    if s.carrier == WebSocketLanes && laneID <= MAX_STREAM_ID {
      var t := if laneID in s.carrierLanes then s else AddLane(s, laneID);
      if laneID !in s.carrierLanes {
        AddLaneKeepsInv(s, laneID, 0, 0);
        AddLaneAsks(s, laneID);
        SessionRuns.AddedLane(s, laneID);
      }
      SessionRuns.RegisteredInLanes(t, laneID);
      var r := t.carrierLanes[laneID];
      var u := WithLane(t, r, t.lanes[r].(websocketActive := true));
      AsksTouch(t, r, t.lanes[r].(websocketActive := true));
      AsksThen(s, 0, 0, t, 0, 0, u, 0, 0);
    }
  }

  lemma UpBeginAsks(s: State, sequence: nat, body: Bytes)
    requires Inv(s)
    ensures Asks(s, 0, 0, UpBegin(s, sequence, body).0, 0, 0)
  {
    hide InvWith, CheckUp, Asks, SetUpActive;
    AsksSame(s, s, 0, 0);
    MainLane(s);
    UpActiveAsks(s, MAIN, true);
  }

  // ---------------------------------------------------------------------------- polls

  lemma LoopCharge(l: Lane, me: nat, cursor: nat, batchLimit: int, c: Condition)
    requires LaneInv(l)
    ensures forall k :: LaneCharge(Loop(l, me, cursor, batchLimit, c).lane, k) == LaneCharge(l, k)
  {
    hide LaneInv, LaneCharge, Loop;
    forall k
      ensures LaneCharge(Loop(l, me, cursor, batchLimit, c).lane, k) == LaneCharge(l, k)
    {
      LoopKeepsLaneInv(l, me, cursor, batchLimit, c, k);
    }
  }

  lemma SignalKeepsLane(l: Lane)
    requires LaneInv(l)
    ensures LaneInv(Signal(l))
  {
    assert UnackedFrames(Signal(l)) == UnackedFrames(l);
  }

  lemma PollAsks(s: State, op: SessionRuns.Op)
    requires Inv(s) && s.panic.None?
    requires op.OpPollWoken? || op.OpPollDeadline? || op.OpPollQuits? || op.OpPollDisplaced? || op.OpPollTakesToken?
    ensures Asks(s, 0, 0, SessionRuns.Step(s, op), 0, 0)
  {
    hide InvWith, Loop, ConditionOf, Asks, LaneInv, LaneCharge;
    AsksSame(s, s, 0, 0);
    if op.lane in s.lanes {
      var r := op.lane;
      var l := s.lanes[r];
      LaneOfInv(s, r, 0, 0);
      match op {
        case OpPollWoken(_, laneID, me, cursor) =>
          var mine := if l.superseded != Some(me) then Signal(l) else l;
          SignalCharge(l);
          SignalKeepsLane(l);
          LoopCharge(mine, me, cursor, s.limits.carrierBatchBytes, ConditionOf(s, r, laneID));
          AsksLane(s, r, Loop(mine, me, cursor, s.limits.carrierBatchBytes, ConditionOf(s, r, laneID)).lane,
              SessionRuns.Step(s, op), 0, 0);
        case OpPollDeadline(_, laneID, me, cursor) =>
          LoopCharge(l, me, cursor, s.limits.carrierBatchBytes, ConditionOf(s, r, laneID));
          HoldingsCharge(l, Signal(l));
          HoldingsCharge(l, Resigned(l));
          AsksLane(s, r, Deadline(l, me, cursor, s.limits.carrierBatchBytes, ConditionOf(s, r, laneID)).lane,
              SessionRuns.Step(s, op), 0, 0);
        case OpPollQuits(_, me) => AsksTouch(s, r, Quit(l, me));
        case OpPollDisplaced(_) => AsksTouch(s, r, Signal(l));
        case OpPollTakesToken(_) => AsksTouch(s, r, l.(notify := false));
      }
    }
  }

  lemma TakenKeepsLane(l: Lane, me: nat)
    requires LaneInv(l) && l.unacked == []
    ensures LaneInv(TakeOver(l, me))
  {
    assert UnackedFrames(TakeOver(l, me)) == UnackedFrames(l);
  }

  /** An acknowledged batch is given back. */
  lemma PresentAsks(s: State, r: LaneRef, cursor: nat)
    requires Inv(s) && r in s.lanes && Present(s.lanes[r], cursor).Accepted?
    ensures var p := Present(s.lanes[r], cursor);
      Asks(s, 0, 0, WithLane(Release(s, p.cost, p.items), r, p.lane), 0, 0)
  {
    hide InvWith, Asks, LaneInv, LaneCharge, Present, GivesBackCalls;
    var p := Present(s.lanes[r], cursor);
    var t := WithLane(Release(s, p.cost, p.items), r, p.lane);
    LaneOfInv(s, r, 0, 0);
    forall k
      ensures LaneCharge(p.lane, k) <= LaneCharge(s.lanes[r], k)
    {
      PresentKeepsLaneInv(s.lanes[r], cursor, k);
    }
    SessionRuns.PresentKeepsInv(s, r, cursor);
    LaneHeldLess(s, r, p.lane, t, 0, 0);
    InvPanic(s, 0, 0);
    InvPanic(t, 0, 0);
    PresentCalls(s, r, p.lane, p.cost, p.items);
    hide Release;
    GivingBackAsks(s, 0, 0, t, 0, 0);
  }

  lemma PresentCalls(s: State, r: LaneRef, l: Lane, cost: int, items: int)
    requires s.panic.None? && WithLane(Release(s, cost, items), r, l).panic.None?
    ensures GivesBackCalls(s, WithLane(Release(s, cost, items), r, l))
  {
    ReleaseCalls(s, cost, items);
  }

  lemma EnterAsks(s: State, laneID: nat, me: nat, cursor: nat)
    requires Inv(s)
    ensures Asks(s, 0, 0, PollEnter(s, laneID, me, cursor).0, 0, 0)
  {
    hide InvWith, Loop, ConditionOf, Asks, LaneInv, LaneCharge, Present, Release;
    AsksSame(s, s, 0, 0);
    if !(UsesLanes(s) && laneID > MAX_STREAM_ID) && !s.closed && PollLaneOf(s, laneID).Some? {
      SessionRuns.PollLaneIsThere(s, laneID);
      var r := PollLaneOf(s, laneID).value;
      LaneOfInv(s, r, 0, 0);
      if Present(s.lanes[r], cursor).Accepted? {
        var p := Present(s.lanes[r], cursor);
        PresentKeepsLaneInv(s.lanes[r], cursor, UpCost);
        PresentAsks(s, r, cursor);
        var released := WithLane(Release(s, p.cost, p.items), r, p.lane);
        var taken := TakeOver(p.lane, me);
        var c := ConditionOf(Release(s, p.cost, p.items), r, laneID);
        HoldingsCharge(p.lane, taken);
        TakenKeepsLane(p.lane, me);
        LoopCharge(taken, me, cursor, s.limits.carrierBatchBytes, c);
        AsksLane(released, r, Loop(taken, me, cursor, s.limits.carrierBatchBytes, c).lane,
            PollEnter(s, laneID, me, cursor).0, 0, 0);
        AsksThen(s, 0, 0, released, 0, 0, PollEnter(s, laneID, me, cursor).0, 0, 0);
      }
    }
  }

  // ------------------------------------------------------------------------ all sections

  /** Every section changes what its session holds call by call, each a charge of one class or a release
      of part of what is held at that moment, and is granted a ticket for exactly the backends it begins. */
  lemma SectionAsks(s: State, op: SessionRuns.Op)
    requires Inv(s) && s.panic.None?
    ensures AsksInAll(s, SessionRuns.Step(s, op))
  {
    hide InvWith, Asks, UpBegin, UpFinish, UpLane, LaneFailure, AcquireWebSocket, AcquireWebSocketLane,
      NextWrite, Drained, WriteFinished, BackendData, BackendClosed, PollEnter, PollWoken, PollDeadline,
      PollQuits, PollDisplaced, PollTakesToken, CloseSession, ReleaseWebSocketLane;
    if op.OpUpFinish? && !UsesLanes(s) {
      UpFinishAsks(s, op);
    } else if op.OpUpLane? {
      UpLaneAsks(s, op);
    } else if op.OpBackendData? && |op.data| <= DATA_CHUNK {
      DataAsks(s, op.id, op.data, op.granted);
    } else {
      OtherAsks(s, op);
    }
  }

  lemma OtherAsks(s: State, op: SessionRuns.Op)
    requires Inv(s) && s.panic.None?
    requires !(op.OpUpFinish? && !UsesLanes(s)) && !op.OpUpLane? && !(op.OpBackendData? && |op.data| <= DATA_CHUNK)
    ensures Asks(s, 0, 0, SessionRuns.Step(s, op), 0, 0)
  {
    hide InvWith, Asks, UpBegin, UpFinish, UpLane, AcquireWebSocket, AcquireWebSocketLane,
      NextWrite, Drained, WriteFinished, BackendData, BackendClosed, PollEnter, PollWoken, PollDeadline,
      PollQuits, PollDisplaced, PollTakesToken, CloseSession, ReleaseWebSocketLane;
    AsksSame(s, s, 0, 0);
    match op {
      case OpUpBegin(sequence, body) => UpBeginAsks(s, sequence, body);
      case OpFailure(laneID) => ReleaseWebSocketLaneAsks(s, laneID); CloseAsks(s);
      case OpClose => CloseAsks(s);
      case OpAcquireWebSocket => AcquireAsks(s, 0);
      case OpAcquireLane(laneID) => AcquireAsks(s, laneID);
      case OpReleaseLane(laneID) => ReleaseWebSocketLaneAsks(s, laneID);
      case OpPollEnter(laneID, me, cursor) => EnterAsks(s, laneID, me, cursor);
      case _ =>
        if op.OpNextWrite? || op.OpDrained? || op.OpWriteFinished? || op.OpBackendClosed? {
          BackendAsks(s, op);
        } else if op.OpPollWoken? || op.OpPollDeadline? || op.OpPollQuits? || op.OpPollDisplaced?
        || op.OpPollTakesToken? {
          PollAsks(s, op);
        }
    }
  }
}
