/** Pending budgets: the limits of one session (`internal/session/session.go`, from `ValidateBudget`
    to `reservePendingLocked`) and the relay-wide ledger (`changePendingBudget` in
    `internal/session/manager.go`).

    Both levels admit uplink writes, downlink DATA and control frames against different ceilings, so
    that control frames always find headroom and an uplink batch is never starved by the downlink. */
module Budget {
  import opened Frames
  import opened Charges

  const QUEUE_ITEM_COST := 256

  /** The flat cost of a number of queued items. */
  function ItemCost(items: int): int { items * 256 }

  const CONTROL_RESERVE_EXTRA_ITEMS := 16
  const CONTROL_RESERVE_ITEMS_PER_STREAM := 3
  const MAX_INT := 0x7FFF_FFFF_FFFF_FFFF

  datatype PendingClass = PendingUplink | PendingDownlink | PendingControl

  /** The part of `config.Limits` that the session engine and the ledger read. */
  datatype Limits = Limits(
    maxBodyBytes: int, maxFramePayload: int, carrierBatchBytes: int,
    maxStreamsPerSession: int, maxClosedStreamIDs: nat,
    maxPendingPerSession: int, maxPendingItemsPerSession: int,
    maxPendingGlobal: int, maxPendingItemsGlobal: int, maxSessionsGlobal: int)

  /** What configuration loading guarantees of them. */
  predicate ValidLimits(l: Limits) {
    && 0 < l.maxBodyBytes <= MAX_INT
    && 0 < l.maxFramePayload <= MAX_PAYLOAD
    && 0 < l.carrierBatchBytes <= l.maxBodyBytes
    && 0 < l.maxStreamsPerSession && 0 < l.maxClosedStreamIDs
    && 0 < l.maxPendingPerSession <= l.maxPendingGlobal
    && 0 < l.maxPendingItemsPerSession <= l.maxPendingItemsGlobal
    && 0 < l.maxSessionsGlobal
  }

  // ------------------------------------------------------------ one session's limits

  /** `pendingControlReserve`. */
  function ControlReserve(l: Limits): Amount {
    var items := CONTROL_RESERVE_EXTRA_ITEMS;
    if l.maxStreamsPerSession > (MAX_INT - items) / CONTROL_RESERVE_ITEMS_PER_STREAM then
      Amount(l.maxPendingPerSession, l.maxPendingItemsPerSession)
    else
      var all := items + l.maxStreamsPerSession * CONTROL_RESERVE_ITEMS_PER_STREAM;
      var costPerItem := QUEUE_ITEM_COST + HEADER_SIZE + 4;
      if all > MAX_INT / costPerItem then Amount(l.maxPendingPerSession, l.maxPendingItemsPerSession)
      else Amount(all * costPerItem, all)
  }

  /** `pendingUplinkReserve`. */
  function UplinkReserve(l: Limits): Amount {
    var most := l.maxBodyBytes / HEADER_SIZE;
    var items := if most > MAX_BATCH_FRAMES then MAX_BATCH_FRAMES else most;
    if items > (MAX_INT - l.maxBodyBytes) / QUEUE_ITEM_COST then
      Amount(l.maxPendingPerSession, l.maxPendingItemsPerSession)
    else Amount(l.maxBodyBytes + ItemCost(items), items)
  }

  /** `subtractPendingReserve`. */
  function SubtractReserve(a: Amount, reserve: Amount): Amount {
    Amount(if reserve.cost >= a.cost then 0 else a.cost - reserve.cost,
           if reserve.items >= a.items then 0 else a.items - reserve.items)
  }

  function SessionLimit(l: Limits): Amount {
    Amount(l.maxPendingPerSession, l.maxPendingItemsPerSession)
  }

  /** The ceiling `reservePendingLocked` holds a charge of this class to. */
  function ClassLimit(l: Limits, pool: PendingClass): Amount {
    match pool
    case PendingControl => SessionLimit(l)
    case PendingUplink => SubtractReserve(SessionLimit(l), ControlReserve(l))
    case PendingDownlink =>
      SubtractReserve(SubtractReserve(SessionLimit(l), ControlReserve(l)), UplinkReserve(l))
  }

  /** The session's own half of `reservePendingLocked`. */
  predicate SessionAdmits(l: Limits, pending: Amount, cost: int, items: int, pool: PendingClass) {
    var limit := ClassLimit(l, pool);
    && cost > 0 && items >= 0
    && cost <= limit.cost && items <= limit.items
    && pending.cost <= limit.cost - cost && pending.items <= limit.items - items
  }

  /** What an admitted charge adds, kind by kind. */
  function ChargeFor(pool: PendingClass, cost: int, items: int, k: Kind): int {
    match pool
    case PendingUplink => if k == UpCost then cost else if k == UpItems then items else 0
    case PendingDownlink => if k == DownCost then cost else if k == DownItems then items else 0
    case PendingControl => if k == ControlCost then cost else if k == ControlItems then items else 0
  }

  /** Each class of charge stays below the ceilings it was admitted under. */
  predicate Partitioned(l: Limits, c: Split) {
    var uplink, downlink := ClassLimit(l, PendingUplink), ClassLimit(l, PendingDownlink);
    && NonNegative(c)
    && c.down.cost <= downlink.cost && c.down.items <= downlink.items
    && c.up.cost + c.down.cost <= uplink.cost && c.up.items + c.down.items <= uplink.items
    && c.Cost() <= l.maxPendingPerSession && c.Items() <= l.maxPendingItemsPerSession
  }

  lemma LimitsNest(l: Limits)
    requires ValidLimits(l)
    ensures var u, d := ClassLimit(l, PendingUplink), ClassLimit(l, PendingDownlink);
      && 0 <= d.cost <= u.cost <= l.maxPendingPerSession
      && 0 <= d.items <= u.items <= l.maxPendingItemsPerSession
  {
    assert ControlReserve(l).cost >= 0 && ControlReserve(l).items >= 0;
    assert UplinkReserve(l).cost >= 0 && UplinkReserve(l).items >= 0;
  }

  lemma AdmissionKeepsPartition(l: Limits, c: Split, after: Split, cost: int, items: int, pool: PendingClass)
    requires ValidLimits(l) && Partitioned(l, c)
    requires SessionAdmits(l, Amount(c.Cost(), c.Items()), cost, items, pool)
    requires forall k :: Part(after, k) == Part(c, k) + ChargeFor(pool, cost, items, k)
    ensures Partitioned(l, after)
  {
    LimitsNest(l);
    assert after.up.cost == Part(after, UpCost) && after.up.items == Part(after, UpItems);
    assert after.down.cost == Part(after, DownCost) && after.down.items == Part(after, DownItems);
    assert after.control.cost == Part(after, ControlCost) && after.control.items == Part(after, ControlItems);
  }

  /** A control frame is refused by the session only when the control charges, with this frame, exceed
      the control reserve (or the whole session limit, if that is smaller). */
  lemma ControlHeadroom(l: Limits, c: Split, cost: int, items: int)
    requires ValidLimits(l) && Partitioned(l, c) && cost > 0 && items >= 0
    requires !SessionAdmits(l, Amount(c.Cost(), c.Items()), cost, items, PendingControl)
    ensures || c.control.cost + cost > ControlReserve(l).cost
            || c.control.cost + cost > l.maxPendingPerSession
            || c.control.items + items > ControlReserve(l).items
            || c.control.items + items > l.maxPendingItemsPerSession
  {
    var reserve := ControlReserve(l);
    assert reserve.cost >= 0 && reserve.items >= 0;
    assert c.Cost() + cost > l.maxPendingPerSession || c.Items() + items > l.maxPendingItemsPerSession;
  }

  /** However full the downlink is, a batch within the uplink reserve is admitted while no uplink or
      control charge is outstanding, provided the session limit covers both reserves. */
  lemma UplinkHeadroom(l: Limits, c: Split, cost: int, items: int)
    requires ValidLimits(l) && Partitioned(l, c)
    requires c.up.cost == 0 && c.up.items == 0 && c.control.cost == 0 && c.control.items == 0
    requires 0 < cost <= UplinkReserve(l).cost && 0 <= items <= UplinkReserve(l).items
    requires ControlReserve(l).cost + UplinkReserve(l).cost <= l.maxPendingPerSession
    requires ControlReserve(l).items + UplinkReserve(l).items <= l.maxPendingItemsPerSession
    ensures SessionAdmits(l, Amount(c.Cost(), c.Items()), cost, items, PendingUplink)
  {
  }

  /** DATA is refused by the session only when what is pending, with it and both reserves, exceeds the
      session's limit. */
  lemma DataHeadroom(l: Limits, pending: Amount, cost: int, items: int)
    requires ValidLimits(l) && pending.cost >= 0 && pending.items >= 0 && cost > 0 && items > 0
    requires !SessionAdmits(l, pending, cost, items, PendingDownlink)
    ensures || pending.cost + cost + ControlReserve(l).cost + UplinkReserve(l).cost > l.maxPendingPerSession
            || pending.items + items + ControlReserve(l).items + UplinkReserve(l).items > l.maxPendingItemsPerSession
  {
    assert ControlReserve(l).cost >= 0 && ControlReserve(l).items >= 0;
    assert UplinkReserve(l).cost >= 0 && UplinkReserve(l).items >= 0;
  }

  // ------------------------------------------------------------- the relay-wide ledger

  /** `ValidateBudget` accepts the configuration. */
  predicate BudgetValidated(l: Limits)
    requires l.maxSessionsGlobal > 0
  {
    && ControlReserve(l).cost <= l.maxPendingGlobal / l.maxSessionsGlobal
    && ControlReserve(l).items <= l.maxPendingItemsGlobal / l.maxSessionsGlobal
  }

  function LessReserves(limit: int, reserve: int, sessions: int): int
    requires sessions > 0
  {
    if reserve > limit / sessions then 0 else limit - reserve * sessions
  }

  function GlobalLimit(l: Limits, pool: PendingClass): Amount
    requires l.maxSessionsGlobal > 0
  {
    if pool == PendingControl then Amount(l.maxPendingGlobal, l.maxPendingItemsGlobal)
    else Amount(LessReserves(l.maxPendingGlobal, ControlReserve(l).cost, l.maxSessionsGlobal),
                LessReserves(l.maxPendingItemsGlobal, ControlReserve(l).items, l.maxSessionsGlobal))
  }

  predicate GlobalAdmits(l: Limits, ledger: Amount, cost: int, items: int, pool: PendingClass)
    requires l.maxSessionsGlobal > 0
  {
    var limit := GlobalLimit(l, pool);
    && cost <= limit.cost && ledger.cost <= limit.cost - cost
    && items <= limit.items && ledger.items <= limit.items - items
  }

  /** What one call of `changePendingBudget` does: the new ledger, whether it was allowed, and whether
      the call reached the panic. */
  datatype LedgerChange = LedgerChange(ledger: Amount, allowed: bool, panicked: bool)

  function ChangeLedger(l: Limits, ledger: Amount, costDelta: int, itemDelta: int, pool: PendingClass): LedgerChange
    requires l.maxSessionsGlobal > 0
  {
    if (costDelta > 0 || itemDelta > 0) && !GlobalAdmits(l, ledger, costDelta, itemDelta, pool) then
      LedgerChange(ledger, false, false)
    else
      var after := Amount(ledger.cost + costDelta, ledger.items + itemDelta);
      LedgerChange(after, true, after.cost < 0 || after.items < 0)
  }

  /** The ledger holds exactly what the sessions hold together, none of them holds less than nothing,
      and all but control charges stay below the ceiling they were admitted under. */
  ghost predicate Balanced(ceiling: Amount, ledger: Amount, shares: map<nat, Split>) {
    && (forall s :: s in shares ==> NonNegative(shares[s]))
    && ledger.cost == Sum(shares, Part, UpCost) + Sum(shares, Part, DownCost) + Sum(shares, Part, ControlCost)
    && ledger.items == Sum(shares, Part, UpItems) + Sum(shares, Part, DownItems) + Sum(shares, Part, ControlItems)
    && Sum(shares, Part, UpCost) + Sum(shares, Part, DownCost) <= ceiling.cost
    && Sum(shares, Part, UpItems) + Sum(shares, Part, DownItems) <= ceiling.items
  }

  ghost predicate LedgerBalanced(l: Limits, ledger: Amount, shares: map<nat, Split>)
    requires l.maxSessionsGlobal > 0
  {
    Balanced(GlobalLimit(l, PendingUplink), ledger, shares)
  }

  lemma EmptyLedgerBalanced(l: Limits)
    requires ValidLimits(l)
    ensures LedgerBalanced(l, Amount(0, 0), map[])
  {
    GlobalLimitsNonNegative(l);
    forall k
      ensures Sum<Split>(map[], Part, k) == 0
    {
      SumOfNothing<Split>(map[], Part, k);
    }
  }

  lemma GlobalLimitsNonNegative(l: Limits)
    requires ValidLimits(l)
    ensures GlobalLimit(l, PendingUplink).cost >= 0 && GlobalLimit(l, PendingUplink).items >= 0
  {
    LessReservesNonNegative(l.maxPendingGlobal, ControlReserve(l).cost, l.maxSessionsGlobal);
    LessReservesNonNegative(l.maxPendingItemsGlobal, ControlReserve(l).items, l.maxSessionsGlobal);
  }

  lemma LessReservesNonNegative(limit: int, reserve: int, sessions: int)
    requires sessions > 0 && limit >= 0
    ensures LessReserves(limit, reserve, sessions) >= 0
  {
    if reserve <= limit / sessions {
      assert reserve * sessions <= (limit / sessions) * sessions <= limit;
    }
  }

  function Share(shares: map<nat, Split>, session: nat): Split {
    if session in shares then shares[session] else NOTHING
  }

  /** A call of `changePendingBudget` the sessions make: it either charges one class, or releases part
      of what the session holds. `delta` splits it by kind. */
  predicate SoundCall(shares: map<nat, Split>, session: nat, held: Split, delta: Split, pool: PendingClass) {
    && Together(held, Share(shares, session), delta) && NonNegative(held)
    && (|| (&& delta.Cost() > 0 && delta.Items() >= 0
            && forall k :: Part(delta, k) == ChargeFor(pool, delta.Cost(), delta.Items(), k))
        || NonPositive(delta))
  }

  /** DATA and uplink bytes are refused by the manager only when the ledger, with them and one control
      reserve for every session the configuration allows, exceeds the relay-wide limit. */
  lemma GlobalDataHeadroom(l: Limits, ledger: Amount, cost: int, items: int, pool: PendingClass)
    requires ValidLimits(l) && BudgetValidated(l) && ledger.cost >= 0 && ledger.items >= 0 && cost > 0 && items >= 0
    requires pool != PendingControl && !ChangeLedger(l, ledger, cost, items, pool).allowed
    ensures || ledger.cost + cost + ControlReserve(l).cost * l.maxSessionsGlobal > l.maxPendingGlobal
            || ledger.items + items + ControlReserve(l).items * l.maxSessionsGlobal > l.maxPendingItemsGlobal
  {
    hide ControlReserve;
  }

  /** Charging a session, or releasing part of what it holds, keeps the ledger balanced and never
      reaches the panic; a refusal changes nothing. */
  lemma LedgerCallKeepsBalance(l: Limits, ledger: Amount, shares: map<nat, Split>, session: nat, held: Split,
      delta: Split, pool: PendingClass)
    requires ValidLimits(l) && LedgerBalanced(l, ledger, shares) && SoundCall(shares, session, held, delta, pool)
    ensures var change := ChangeLedger(l, ledger, delta.Cost(), delta.Items(), pool);
      && !change.panicked
      && (change.allowed ==> LedgerBalanced(l, change.ledger, shares[session := held]))
      && (!change.allowed ==> change.ledger == ledger)
  {
    var change := ChangeLedger(l, ledger, delta.Cost(), delta.Items(), pool);
    if change.allowed {
      AllowedUnderCeiling(l, ledger, delta, pool);
      AddToShare(GlobalLimit(l, PendingUplink), ledger, change.ledger, shares, session, held, delta);
    }
  }

  lemma AllowedUnderCeiling(l: Limits, ledger: Amount, delta: Split, pool: PendingClass)
    requires l.maxSessionsGlobal > 0
    requires ChangeLedger(l, ledger, delta.Cost(), delta.Items(), pool).allowed
    requires || (delta.Cost() > 0 && forall k :: Part(delta, k) == ChargeFor(pool, delta.Cost(), delta.Items(), k))
             || (delta.up.cost <= 0 && delta.up.items <= 0 && delta.down.cost <= 0 && delta.down.items <= 0)
    ensures var ceiling := GlobalLimit(l, PendingUplink);
      delta.up.cost + delta.down.cost > 0 || delta.up.items + delta.down.items > 0 ==>
        ledger.cost + delta.Cost() <= ceiling.cost && ledger.items + delta.Items() <= ceiling.items
  {
    if delta.up.cost + delta.down.cost > 0 || delta.up.items + delta.down.items > 0 {
      assert Part(delta, UpCost) == delta.up.cost && Part(delta, DownCost) == delta.down.cost;
      assert Part(delta, UpItems) == delta.up.items && Part(delta, DownItems) == delta.down.items;
      assert pool != PendingControl;
      assert GlobalLimit(l, pool) == GlobalLimit(l, PendingUplink);
    }
  }

  lemma ShareAt(shares: map<nat, Split>, session: nat, k: Kind)
    ensures At(shares, Part, k, session) == Part(Share(shares, session), k)
  {
  }

  lemma AddToShare(ceiling: Amount, ledger: Amount, after: Amount, shares: map<nat, Split>, session: nat, held: Split,
      delta: Split)
    requires Balanced(ceiling, ledger, shares)
    requires Together(held, Share(shares, session), delta) && NonNegative(held)
    requires after.cost == ledger.cost + delta.Cost() && after.items == ledger.items + delta.Items()
    requires delta.up.cost + delta.down.cost > 0 || delta.up.items + delta.down.items > 0 ==>
      after.cost <= ceiling.cost && after.items <= ceiling.items
    ensures Balanced(ceiling, after, shares[session := held])
    ensures after.cost >= 0 && after.items >= 0
  {
    var updated := shares[session := held];
    assert forall s :: s in updated ==> s == session || updated[s] == shares[s];
    hide Sum, Share;
    forall k
      ensures Sum(updated, Part, k) == Sum(shares, Part, k) + Part(delta, k) && Sum(updated, Part, k) >= 0
    {
      SumUpdate(shares, Part, k, session, held);
      ShareAt(shares, session, k);
      forall i | i in updated
        ensures Part(updated[i], k) >= 0
      {
        assert NonNegative(updated[i]);
      }
      SumCovers(updated, Part, k);
    }
  }

  /** Relay-wide, a control frame is refused only when all control charges, with this frame, exceed
      one control reserve for every session the configuration allows. */
  lemma GlobalControlHeadroom(l: Limits, ledger: Amount, shares: map<nat, Split>, cost: int, items: int)
    requires ValidLimits(l) && BudgetValidated(l) && LedgerBalanced(l, ledger, shares)
    requires cost > 0 && items >= 0 && !GlobalAdmits(l, ledger, cost, items, PendingControl)
    ensures || Sum(shares, Part, ControlCost) + cost > ControlReserve(l).cost * l.maxSessionsGlobal
            || Sum(shares, Part, ControlItems) + items > ControlReserve(l).items * l.maxSessionsGlobal
  {
    var ceiling := GlobalLimit(l, PendingUplink);
    assert ceiling.cost == l.maxPendingGlobal - ControlReserve(l).cost * l.maxSessionsGlobal;
    assert ceiling.items == l.maxPendingItemsGlobal - ControlReserve(l).items * l.maxSessionsGlobal;
    forall k
      ensures Sum(shares, Part, k) >= 0
    {
      SumCovers(shares, Part, k);
    }
    GlobalLimitsNonNegative(l);
  }
}
