/** The manager's accounting: `Manager` in `internal/session/manager.go`. Every method is one critical
    section under the manager's lock; the class invariant says that each counter equals what it counts,
    that the configured ceilings hold, and that the relay-wide budget is the sum of what the sessions
    have charged. The panics of the accounting are assertions here.

    Tokens are named by distinct numbers, body digests by numbers, sessions by the order of creation;
    the clock is a parameter. */
module Managers {
  import opened Options
  import opened Budget
  import opened Charges
  import opened Tallies
  import RateLimit

  /** The limits of one profile. */
  datatype ProfileLimits = ProfileLimits(maxSessions: int, maxStreams: int, maxBackendDialsInFlight: int)

  /** The part of the configuration the manager reads. */
  datatype Settings = Settings(
    limits: Limits, maxStreamsGlobal: int, maxBackendDialsInFlight: int, maxSessionsPerIP: int,
    maxBootstrapsPerIP: int, maxBootstrapsGlobal: int, bootstrapLifetime: real,
    bootstrapsPerMinute: nat, bootstrapsBurst: nat,
    sessionRates: RateLimit.Config, streamRates: RateLimit.Config, profiles: string -> ProfileLimits)

  /** `bootstrap`; a used one knows its body and the session it created. */
  datatype Bootstrap = Bootstrap(expires: real, profile: string, issuanceIP: string, bodyDigest: nat,
      session: Option<nat>)

  /** What the manager needs of a session it created. */
  datatype SessionEntry = SessionEntry(session: nat, clientIP: string, profile: string)

  /** A stream that has been granted a ticket and has not finished; `dialing` until its dial has. */
  datatype Ticket = Ticket(profile: string, dialing: bool)

  function IssuedFrom(b: Bootstrap): string { b.issuanceIP }
  function ClientOf(e: SessionEntry): string { e.clientIP }
  function ProfileOf(e: SessionEntry): string { e.profile }
  function TicketProfile(t: Ticket): string { t.profile }

  function Unused(bootstraps: map<nat, Bootstrap>): map<nat, Bootstrap> {
    map h | h in bootstraps && bootstraps[h].session.None? :: bootstraps[h]
  }

  function Dialing<K(==)>(tickets: map<K, Ticket>): map<K, Ticket> {
    map t | t in tickets && tickets[t].dialing :: tickets[t]
  }

  datatype IssueResult = Issued | IssueClosed | IssueLimited
  datatype CreateResult = Created(session: nat) | NotAuthenticated | CreateLimited

  /** A ceiling that is negative admits nothing, and holds of a count of zero. */
  function Highest(limit: int): int { if limit < 0 then 0 else limit }

  // ---------------------------------------------------------------- streams and dials

  /** Streams and dials are counted exactly, in all and per profile, and below their ceilings. */
  ghost predicate StreamCounts<K>(c: Settings, live: int, dials: int, tickets: map<K, Ticket>,
      perProfile: map<string, int>, dialsPer: map<string, int>) {
    && live == |tickets| && dials == |Dialing(tickets)|
    && Counts(perProfile, tickets, TicketProfile) && Counts(dialsPer, Dialing(tickets), TicketProfile)
    && live <= c.maxStreamsGlobal && dials <= c.maxBackendDialsInFlight
    && (forall name :: Lookup(perProfile, name) <= Highest(c.profiles(name).maxStreams))
    && (forall name :: Lookup(dialsPer, name) <= Highest(c.profiles(name).maxBackendDialsInFlight))
  }

  /** A stream may begin: `acquireStream` before it asks the token buckets. */
  predicate RoomForStream(c: Settings, live: int, dials: int, perProfile: map<string, int>,
      dialsPer: map<string, int>, profile: string) {
    && live < c.maxStreamsGlobal && dials < c.maxBackendDialsInFlight
    && Lookup(perProfile, profile) < c.profiles(profile).maxStreams
    && Lookup(dialsPer, profile) < c.profiles(profile).maxBackendDialsInFlight
  }

  /** The counters are of the tickets that are out. */
  lemma StreamsCounted<K>(c: Settings, live: int, dials: int, tickets: map<K, Ticket>, perProfile: map<string, int>,
      dialsPer: map<string, int>, profile: string)
    requires StreamCounts(c, live, dials, tickets, perProfile, dialsPer)
    ensures live == |tickets| && dials == |Dialing(tickets)|
    ensures Lookup(perProfile, profile) == Tally(tickets, TicketProfile, profile)
    ensures Lookup(dialsPer, profile) == Tally(Dialing(tickets), TicketProfile, profile)
  {
  }

  lemma TicketTaken<K>(c: Settings, live: int, dials: int, tickets: map<K, Ticket>, perProfile: map<string, int>,
      dialsPer: map<string, int>, t: K, profile: string)
    requires StreamCounts(c, live, dials, tickets, perProfile, dialsPer) && t !in tickets
    requires RoomForStream(c, live, dials, perProfile, dialsPer, profile)
    ensures StreamCounts(c, live + 1, dials + 1, tickets[t := Ticket(profile, true)], Incremented(perProfile, profile),
        Incremented(dialsPer, profile))
  {
    hide Counts;
    var ticket := Ticket(profile, true);
    CountsAdd(perProfile, tickets, TicketProfile, t, ticket);
    CountsAdd(dialsPer, Dialing(tickets), TicketProfile, t, ticket);
    assert Dialing(tickets[t := ticket]) == Dialing(tickets)[t := ticket];
  }

  /** A dial ends for a ticket that is dialing: the counters it decrements are positive. */
  lemma DialEnded<K>(c: Settings, live: int, dials: int, tickets: map<K, Ticket>, perProfile: map<string, int>,
      dialsPer: map<string, int>, t: K)
    requires StreamCounts(c, live, dials, tickets, perProfile, dialsPer) && t in tickets && tickets[t].dialing
    ensures dials > 0 && Lookup(dialsPer, tickets[t].profile) > 0
    ensures StreamCounts(c, live, dials - 1, tickets[t := tickets[t].(dialing := false)], perProfile,
        Decremented(dialsPer, tickets[t].profile))
  {
    hide Counts;
    var after := tickets[t := tickets[t].(dialing := false)];
    CountsRemove(dialsPer, Dialing(tickets), TicketProfile, t);
    CountsSame(perProfile, tickets, after, TicketProfile);
    assert Dialing(after) == Dialing(tickets) - {t};
    assert after.Keys == tickets.Keys;
    assert |after| == |after.Keys| && |tickets| == |tickets.Keys|;
  }

  /** A stream ends whose dial has ended. */
  lemma StreamEnded<K>(c: Settings, live: int, dials: int, tickets: map<K, Ticket>, perProfile: map<string, int>,
      dialsPer: map<string, int>, t: K)
    requires StreamCounts(c, live, dials, tickets, perProfile, dialsPer) && t in tickets && !tickets[t].dialing
    ensures live > 0 && Lookup(perProfile, tickets[t].profile) > 0
    ensures StreamCounts(c, live - 1, dials, tickets - {t}, Decremented(perProfile, tickets[t].profile), dialsPer)
  {
    hide Counts;
    CountsRemove(perProfile, tickets, TicketProfile, t);
    assert Dialing(tickets - {t}) == Dialing(tickets);
    assert (tickets - {t}).Keys == tickets.Keys - {t};
  }

  /** Dials in flight never exceed the streams that are live, and the counters add up. */
  lemma DialsWithinStreams<K>(c: Settings, live: int, dials: int, tickets: map<K, Ticket>,
      perProfile: map<string, int>, dialsPer: map<string, int>)
    requires StreamCounts(c, live, dials, tickets, perProfile, dialsPer)
    ensures 0 <= dials <= live && Total(perProfile) == live && Total(dialsPer) == dials
  {
    TotalIsSize(perProfile, tickets, TicketProfile);
    TotalIsSize(dialsPer, Dialing(tickets), TicketProfile);
    hide Counts;
    assert Dialing(tickets).Keys <= tickets.Keys;
    SubsetSize(Dialing(tickets).Keys, tickets.Keys);
    assert |tickets| == |tickets.Keys| && |Dialing(tickets)| == |Dialing(tickets).Keys|;
  }

  lemma {:induction false} SubsetSize<K>(a: set<K>, b: set<K>)
    requires a <= b
    ensures |a| <= |b|
  {
    if a != {} {
      var x :| x in a;
      SubsetSize(a - {x}, b - {x});
    }
  }

  // ------------------------------------------------------------------------- sessions

  ghost predicate SessionCounts(c: Settings, sessions: map<nat, SessionEntry>, perIP: map<string, int>,
      perProfile: map<string, int>) {
    && Counts(perIP, sessions, ClientOf) && Counts(perProfile, sessions, ProfileOf)
    && |sessions| <= c.limits.maxSessionsGlobal
    && (forall name :: Lookup(perProfile, name) <= Highest(c.profiles(name).maxSessions))
    && (c.maxSessionsPerIP != 0 ==> forall ip :: Lookup(perIP, ip) <= Highest(c.maxSessionsPerIP))
  }

  predicate RoomForSession(c: Settings, sessions: map<nat, SessionEntry>, perIP: map<string, int>,
      perProfile: map<string, int>, e: SessionEntry) {
    && |sessions| < c.limits.maxSessionsGlobal
    && Lookup(perProfile, e.profile) < c.profiles(e.profile).maxSessions
    && (c.maxSessionsPerIP != 0 ==> Lookup(perIP, e.clientIP) < c.maxSessionsPerIP)
  }

  /** The counters are of the sessions in the register. */
  lemma SessionsCounted(c: Settings, sessions: map<nat, SessionEntry>, perIP: map<string, int>,
      perProfile: map<string, int>, clientIP: string, profile: string)
    requires SessionCounts(c, sessions, perIP, perProfile)
    ensures Lookup(perIP, clientIP) == Tally(sessions, ClientOf, clientIP)
    ensures Lookup(perProfile, profile) == Tally(sessions, ProfileOf, profile)
  {
  }

  lemma SessionAdded(c: Settings, sessions: map<nat, SessionEntry>, perIP: map<string, int>,
      perProfile: map<string, int>, h: nat, e: SessionEntry)
    requires SessionCounts(c, sessions, perIP, perProfile) && h !in sessions
        && RoomForSession(c, sessions, perIP, perProfile, e)
    ensures SessionCounts(c, sessions[h := e], Incremented(perIP, e.clientIP), Incremented(perProfile, e.profile))
  {
    hide Counts, Incremented, Lookup;
    CountsAdd(perIP, sessions, ClientOf, h, e);
    CountsAdd(perProfile, sessions, ProfileOf, h, e);
    LookupIncremented(perIP, e.clientIP);
    LookupIncremented(perProfile, e.profile);
  }

  lemma SessionRemoved(c: Settings, sessions: map<nat, SessionEntry>, perIP: map<string, int>,
      perProfile: map<string, int>, h: nat)
    requires SessionCounts(c, sessions, perIP, perProfile) && h in sessions
    ensures SessionCounts(c, sessions - {h}, Decremented(perIP, sessions[h].clientIP),
        Decremented(perProfile, sessions[h].profile))
  {
    hide Counts, Decremented, Lookup;
    CountsRemove(perIP, sessions, ClientOf, h);
    CountsRemove(perProfile, sessions, ProfileOf, h);
    LookupDecremented(perIP, sessions[h].clientIP);
    LookupDecremented(perProfile, sessions[h].profile);
    assert (sessions - {h}).Keys == sessions.Keys - {h};
  }

  // ----------------------------------------------------------------------- bootstraps

  ghost predicate BootstrapCounts(c: Settings, bootstraps: map<nat, Bootstrap>, perIP: map<string, int>) {
    && Counts(perIP, Unused(bootstraps), IssuedFrom)
    && |bootstraps| <= Highest(c.maxBootstrapsGlobal)
    && (c.maxBootstrapsPerIP != 0 ==> forall ip :: Lookup(perIP, ip) <= Highest(c.maxBootstrapsPerIP))
  }

  /** A bootstrap is issued while there is room for it. */
  lemma BootstrapAdded(c: Settings, bootstraps: map<nat, Bootstrap>, perIP: map<string, int>, h: nat, b: Bootstrap)
    requires BootstrapCounts(c, bootstraps, perIP) && h !in bootstraps && b.session.None?
    requires |bootstraps| < c.maxBootstrapsGlobal
        && (c.maxBootstrapsPerIP != 0 ==> Lookup(perIP, b.issuanceIP) < c.maxBootstrapsPerIP)
    ensures BootstrapCounts(c, bootstraps[h := b], Incremented(perIP, b.issuanceIP))
  {
    hide Counts, Incremented, Lookup;
    LookupIncremented(perIP, b.issuanceIP);
    CountsAdd(perIP, Unused(bootstraps), IssuedFrom, h, b);
    assert Unused(bootstraps[h := b]) == Unused(bootstraps)[h := b];
  }

  /** The per-address counters after `releaseUnusedBootstrapLocked`. */
  function Released(perIP: map<string, int>, b: Bootstrap): map<string, int> {
    if b.session.Some? then perIP
    else if Lookup(perIP, b.issuanceIP) - 1 <= 0 then perIP - {b.issuanceIP}
    else perIP[b.issuanceIP := Lookup(perIP, b.issuanceIP) - 1]
  }

  lemma ReleasedIsDecremented(perIP: map<string, int>, b: Bootstrap)
    requires b.session.None? && Lookup(perIP, b.issuanceIP) > 0
    ensures Released(perIP, b) == Decremented(perIP, b.issuanceIP)
  {
  }

  lemma BootstrapRemoved(c: Settings, bootstraps: map<nat, Bootstrap>, perIP: map<string, int>, h: nat)
    requires BootstrapCounts(c, bootstraps, perIP) && h in bootstraps
    ensures BootstrapCounts(c, bootstraps - {h}, Released(perIP, bootstraps[h]))
    ensures |bootstraps - {h}| == |bootstraps| - 1
  {
    hide Counts, Decremented, Lookup;
    assert (bootstraps - {h}).Keys == bootstraps.Keys - {h};
    if bootstraps[h].session.None? {
      CountsRemove(perIP, Unused(bootstraps), IssuedFrom, h);
      ReleasedIsDecremented(perIP, bootstraps[h]);
      LookupDecremented(perIP, bootstraps[h].issuanceIP);
      assert Unused(bootstraps - {h}) == Unused(bootstraps) - {h};
    } else {
      assert Unused(bootstraps - {h}) == Unused(bootstraps);
    }
  }

  lemma ReleasedLookup(c: Settings, bootstraps: map<nat, Bootstrap>, perIP: map<string, int>, h: nat)
    requires BootstrapCounts(c, bootstraps, perIP) && h in Unused(bootstraps)
    ensures forall ip :: Lookup(Released(perIP, bootstraps[h]), ip) <= Lookup(perIP, ip)
  {
    CountsRemove(perIP, Unused(bootstraps), IssuedFrom, h);
    hide Counts;
  }

  function Unexpired(bootstraps: map<nat, Bootstrap>, now: real): map<nat, Bootstrap> {
    map h | h in bootstraps && now <= bootstraps[h].expires :: bootstraps[h]
  }

  /** The same bootstraps if there is room for another, and all but the unused one that expires first if
      there is none. */
  ghost predicate RoomMade(before: map<nat, Bootstrap>, after: map<nat, Bootstrap>, limit: int) {
    if |before| < limit then after == before
    else exists h :: OldestUnused(before, h) && after == before - {h}
  }

  predicate OldestUnused(bootstraps: map<nat, Bootstrap>, h: nat) {
    h in Unused(bootstraps) && forall k :: k in Unused(bootstraps) ==> bootstraps[h].expires <= bootstraps[k].expires
  }

  /** No bootstrap is issued: its address has as many unused ones as it may, the rate is exceeded, or there
      is no more room and all are used. `left` are those that have not expired. */
  ghost predicate IssueRefused(c: Settings, left: map<nat, Bootstrap>, clientIP: string, rate: RateLimit.RateState,
      now: real) {
    || AddressIsFull(c, left, clientIP)
    || !BootstrapTake(c, rate, now).1
    || (|left| >= c.maxBootstrapsGlobal && Unused(left) == map[])
  }

  /** An address has as many unused bootstraps as it may. */
  ghost predicate AddressIsFull(c: Settings, left: map<nat, Bootstrap>, clientIP: string) {
    c.maxBootstrapsPerIP != 0 && Tally(Unused(left), IssuedFrom, clientIP) >= c.maxBootstrapsPerIP
  }

  function BootstrapTake(c: Settings, rate: RateLimit.RateState, now: real): (RateLimit.RateState, bool) {
    RateLimit.TakeRate(rate, now, RateLimit.PerMinute(c.bootstrapsPerMinute), c.bootstrapsBurst)
  }

  lemma UnusedCounted(c: Settings, bootstraps: map<nat, Bootstrap>, perIP: map<string, int>, clientIP: string)
    requires BootstrapCounts(c, bootstraps, perIP)
    ensures Lookup(perIP, clientIP) == Tally(Unused(bootstraps), IssuedFrom, clientIP)
  {
  }

  /** A bootstrap is used: it no longer counts. */
  lemma BootstrapUsed(c: Settings, bootstraps: map<nat, Bootstrap>, perIP: map<string, int>, h: nat, digest: nat,
      session: nat)
    requires BootstrapCounts(c, bootstraps, perIP) && h in bootstraps && bootstraps[h].session.None?
    ensures BootstrapCounts(c, bootstraps[h := bootstraps[h].(bodyDigest := digest, session := Some(session))],
        Released(perIP, bootstraps[h]))
  {
    hide Counts, Decremented, Lookup, Released;
    var after := bootstraps[h := bootstraps[h].(bodyDigest := digest, session := Some(session))];
    CountsRemove(perIP, Unused(bootstraps), IssuedFrom, h);
    ReleasedIsDecremented(perIP, bootstraps[h]);
    LookupDecremented(perIP, bootstraps[h].issuanceIP);
    assert Unused(after) == Unused(bootstraps) - {h};
    assert after.Keys == bootstraps.Keys;
    assert |after| == |after.Keys| && |bootstraps| == |bootstraps.Keys|;
  }

  // ------------------------------------------------------------------ one session each

  /** Each session came from one bootstrap, which gave no other; tokens name one session each. */
  ghost predicate OneEach(bootstraps: map<nat, Bootstrap>, sessions: map<nat, SessionEntry>, origin: map<nat, nat>,
      issued: set<nat>, next: nat) {
    && bootstraps.Keys <= issued
    && (forall s :: s in origin ==> s < next && origin[s] in issued)
    && (forall s, t :: s in origin && t in origin && origin[s] == origin[t] ==> s == t)
    && (forall h :: h in sessions ==> sessions[h].session in origin)
    && (forall h, k :: h in sessions && k in sessions && sessions[h].session == sessions[k].session ==> h == k)
    && (forall h :: h in bootstraps && bootstraps[h].session.Some? ==>
          bootstraps[h].session.value in origin && origin[bootstraps[h].session.value] == h)
    && (forall s :: s in origin && origin[s] in bootstraps ==> bootstraps[origin[s]].session == Some(s))
  }

  lemma OneEachCreated(bootstraps: map<nat, Bootstrap>, sessions: map<nat, SessionEntry>, origin: map<nat, nat>,
      issued: set<nat>, next: nat,
                       h: nat, digest: nat, token: nat, e: SessionEntry)
    requires OneEach(bootstraps, sessions, origin, issued, next) && h in bootstraps && bootstraps[h].session.None?
    requires token !in sessions && e.session == next
    ensures OneEach(bootstraps[h := bootstraps[h].(bodyDigest := digest, session := Some(next))], sessions[token := e],
                    origin[next := h], issued, next + 1)
    ensures forall s :: s in origin ==> origin[s] != h
  {
    assert next !in origin;
  }

  /** The relay-wide budget is what the sessions hold together. */
  ghost predicate BudgetCounts(c: Settings, cost: int, items: int, shares: map<nat, Split>) {
    ValidLimits(c.limits) && LedgerBalanced(c.limits, Amount(cost, items), shares)
  }

  lemma OneEachIssued(bootstraps: map<nat, Bootstrap>, sessions: map<nat, SessionEntry>, origin: map<nat, nat>,
      issued: set<nat>, next: nat,
                      h: nat, b: Bootstrap)
    requires OneEach(bootstraps, sessions, origin, issued, next) && h !in issued && b.session.None?
    ensures OneEach(bootstraps[h := b], sessions, origin, issued + {h}, next)
  {
  }

  lemma OnlySession(bootstraps: map<nat, Bootstrap>, sessions: map<nat, SessionEntry>, origin: map<nat, nat>,
      issued: set<nat>, next: nat, h: nat)
    requires OneEach(bootstraps, sessions, origin, issued, next) && h in sessions
    ensures (map k | k in sessions && sessions[k].session != sessions[h].session :: sessions[k]) == sessions - {h}
  {
  }

  lemma OneEachShrunk(bootstraps: map<nat, Bootstrap>, after: map<nat, Bootstrap>, sessions: map<nat, SessionEntry>,
      left: map<nat, SessionEntry>,
                      origin: map<nat, nat>, issued: set<nat>, next: nat)
    requires OneEach(bootstraps, sessions, origin, issued, next)
    requires after.Keys <= bootstraps.Keys && forall h :: h in after ==> after[h] == bootstraps[h]
    requires left.Keys <= sessions.Keys && forall h :: h in left ==> left[h] == sessions[h]
    ensures OneEach(after, left, origin, issued, next)
  {
  }

  class Manager {
    const settings: Settings

    var bootstraps: map<nat, Bootstrap>
    var bootstrapsPerIP: map<string, int>
    var sessions: map<nat, SessionEntry>
    var sessionsPerIP: map<string, int>
    var sessionsPerProfile: map<string, int>
    var streamsPerProfile: map<string, int>
    var dialsPerProfile: map<string, int>
    var bootstrapRate: RateLimit.RateState
    const sessionRate: RateLimit.CoupledBuckets
    const streamRate: RateLimit.CoupledBuckets
    var streamsLive: int
    var backendDialsInFlight: int
    var pendingGlobalCost: int
    var pendingGlobalItems: int
    var closed: bool

    /** The stream tickets not given back; the bootstrap each session came from; the bootstraps ever
        issued; what each session has charged. */
    ghost var tickets: map<nat, Ticket>
    ghost var origin: map<nat, nat>
    ghost var issued: set<nat>
    ghost var shares: map<nat, Split>
    var nextSession: nat

    // ---------------------------------------------------------------------- invariant

    ghost predicate Valid()
      reads this
    {
      && settings.maxStreamsGlobal >= 0 && settings.maxBackendDialsInFlight >= 0 && sessionRate != streamRate
      && StreamCounts(settings, streamsLive, backendDialsInFlight, tickets, streamsPerProfile, dialsPerProfile)
      && SessionCounts(settings, sessions, sessionsPerIP, sessionsPerProfile)
      && BootstrapCounts(settings, bootstraps, bootstrapsPerIP)
      && OneEach(bootstraps, sessions, origin, issued, nextSession)
      && BudgetCounts(settings, pendingGlobalCost, pendingGlobalItems, shares)
    }

    constructor (value: Settings)
      requires ValidLimits(value.limits) && value.maxStreamsGlobal >= 0 && value.maxBackendDialsInFlight >= 0
      ensures Valid() && settings == value && !closed
      ensures bootstraps == map[] && sessions == map[] && tickets == map[] && shares == map[] && origin == map[]
      ensures fresh(sessionRate) && fresh(streamRate)
    {
      settings := value;
      bootstraps, bootstrapsPerIP := map[], map[];
      sessions, sessionsPerIP, sessionsPerProfile := map[], map[], map[];
      streamsPerProfile, dialsPerProfile := map[], map[];
      bootstrapRate := RateLimit.FRESH;
      sessionRate := new RateLimit.CoupledBuckets();
      streamRate := new RateLimit.CoupledBuckets();
      streamsLive, backendDialsInFlight, pendingGlobalCost, pendingGlobalItems := 0, 0, 0, 0;
      closed := false;
      tickets, origin, issued, shares := map[], map[], {}, map[];
      nextSession := 0;
      new;
      EmptyIsValid();
    }

    lemma EmptyIsValid()
      requires ValidLimits(settings.limits) && settings.maxStreamsGlobal >= 0
          && settings.maxBackendDialsInFlight >= 0 && sessionRate != streamRate
      requires bootstraps == map[] && bootstrapsPerIP == map[] && sessions == map[] && sessionsPerIP == map[]
          && sessionsPerProfile == map[]
      requires streamsPerProfile == map[] && dialsPerProfile == map[] && streamsLive == 0 && backendDialsInFlight == 0
      requires pendingGlobalCost == 0 && pendingGlobalItems == 0 && tickets == map[] && origin == map[]
          && shares == map[]
      ensures Valid()
    {
      hide Counts, LedgerBalanced;
      NothingCounted(tickets, TicketProfile);
      NothingCounted(Dialing(tickets), TicketProfile);
      NothingCounted(sessions, ClientOf);
      NothingCounted(sessions, ProfileOf);
      NothingCounted(Unused(bootstraps), IssuedFrom);
      EmptyLedgerBalanced(settings.limits);
    }

    // ------------------------------------------------------------------------ budget

    static method Admits(limits: Limits, cost: int, items: int, costDelta: int, itemDelta: int, pool: PendingClass)
        returns (admitted: bool)
      requires limits.maxSessionsGlobal > 0
      ensures admitted == GlobalAdmits(limits, Amount(cost, items), costDelta, itemDelta, pool)
    {
      var costLimit, itemLimit := limits.maxPendingGlobal, limits.maxPendingItemsGlobal;
      if pool != PendingControl {
        var reserve := ControlReserve(limits);
        var count := limits.maxSessionsGlobal;
        hide ControlReserve;
        if reserve.cost > costLimit / count {
          costLimit := 0;
        } else {
          costLimit := costLimit - reserve.cost * count;
        }
        if reserve.items > itemLimit / count {
          itemLimit := 0;
        } else {
          itemLimit := itemLimit - reserve.items * count;
        }
      }
      if costDelta > costLimit || cost > costLimit - costDelta {
        return false;
      }
      if itemDelta > itemLimit || items > itemLimit - itemDelta {
        return false;
      }
      return true;
    }

    /** `changePendingBudget`, and whether it reaches its panic. It does not for a call that charges one
        class, or gives back part of what its session holds. */
    method ChangePendingBudget(costDelta: int, itemDelta: int, pool: PendingClass, ghost session: nat,
        ghost held: Split, ghost delta: Split)
      returns (allowed: bool, panicked: bool)
      requires Valid()
      modifies this`pendingGlobalCost, this`pendingGlobalItems, this`shares
      ensures allowed <==> ((costDelta <= 0 && itemDelta <= 0)
                            || GlobalAdmits(settings.limits, old(Amount(pendingGlobalCost, pendingGlobalItems)),
                                            costDelta, itemDelta, pool))
      ensures allowed ==>
        pendingGlobalCost == old(pendingGlobalCost) + costDelta
        && pendingGlobalItems == old(pendingGlobalItems) + itemDelta
      ensures !allowed ==> !panicked && unchanged(this)
      ensures panicked <==> allowed && (pendingGlobalCost < 0 || pendingGlobalItems < 0)
      ensures (&& delta.Cost() == costDelta && delta.Items() == itemDelta
               && SoundCall(old(shares), session, held, delta, pool)) ==>
        !panicked && Valid() && (allowed ==> shares == old(shares)[session := held])
    {
      hide LedgerBalanced, SoundCall, GlobalAdmits, StreamCounts, SessionCounts, BootstrapCounts, OneEach;
      ghost var sound := delta.Cost() == costDelta && delta.Items() == itemDelta
        && SoundCall(shares, session, held, delta, pool);
      if sound {
        LedgerCallKeepsBalance(settings.limits, Amount(pendingGlobalCost, pendingGlobalItems), shares, session, held,
            delta, pool);
      }
      if costDelta > 0 || itemDelta > 0 {
        var admitted := Admits(settings.limits, pendingGlobalCost, pendingGlobalItems, costDelta, itemDelta, pool);
        if !admitted {
          return false, false;
        }
      }
      pendingGlobalCost := pendingGlobalCost + costDelta;
      pendingGlobalItems := pendingGlobalItems + itemDelta;
      if sound {
        shares := shares[session := held];
      }
      return true, pendingGlobalCost < 0 || pendingGlobalItems < 0;
    }

    // -------------------------------------------------------------- streams and dials

    /** `acquireStream`. `ticket` names the stream that gets one. */
    method AcquireStream(profile: string, now: real, ghost ticket: nat) returns (granted: bool)
      requires Valid() && ticket !in tickets
      modifies `streamsLive, `backendDialsInFlight, `streamsPerProfile, `dialsPerProfile, `tickets, streamRate
      ensures Valid()
      ensures granted <==>
        && !closed
        && |old(tickets)| < settings.maxStreamsGlobal
        && |Dialing(old(tickets))| < settings.maxBackendDialsInFlight
        && Tally(old(tickets), TicketProfile, profile) < settings.profiles(profile).maxStreams
        && Tally(Dialing(old(tickets)), TicketProfile, profile) < settings.profiles(profile).maxBackendDialsInFlight
        && RateLimit.Allow(old(streamRate.View()), RateLimit.Request(profile, now),
            RateLimit.LimitsOf(settings.streamRates)).1
      ensures granted ==>
        && tickets == old(tickets)[ticket := Ticket(profile, true)]
        && streamRate.View()
          == RateLimit.Allow(old(streamRate.View()), RateLimit.Request(profile, now),
              RateLimit.LimitsOf(settings.streamRates)).0
      ensures !granted ==>
        tickets == old(tickets) && streamsLive == old(streamsLive) && backendDialsInFlight == old(backendDialsInFlight)
      ensures !granted ==> streamRate.View() == old(streamRate.View())
    {
      hide StreamCounts, SessionCounts, BootstrapCounts, OneEach, LedgerBalanced, RateLimit.LimitsOf,
        RateLimit.Allow, Incremented, Lookup, BudgetCounts, Dialing, Tally;
      StreamsCounted(settings, streamsLive, backendDialsInFlight, tickets, streamsPerProfile, dialsPerProfile, profile);
      var limits := settings.profiles(profile);
      if closed
         || streamsLive >= settings.maxStreamsGlobal
         || backendDialsInFlight >= settings.maxBackendDialsInFlight
         || Lookup(streamsPerProfile, profile) >= limits.maxStreams
         || Lookup(dialsPerProfile, profile) >= limits.maxBackendDialsInFlight {
        return false;
      }
      RateLimit.RefusalChangesNothing(streamRate.View(), RateLimit.Request(profile, now),
          RateLimit.LimitsOf(settings.streamRates));
      var allowed := streamRate.AllowProfile(RateLimit.Request(profile, now), settings.streamRates);
      if !allowed {
        return false;
      }
      CountStream(profile, ticket);
      return true;
    }

    /** The counters of a stream that may begin. */
    method CountStream(profile: string, ghost ticket: nat)
      requires Valid() && ticket !in tickets
      requires RoomForStream(settings, streamsLive, backendDialsInFlight, streamsPerProfile, dialsPerProfile, profile)
      modifies `streamsLive, `backendDialsInFlight, `streamsPerProfile, `dialsPerProfile, `tickets
      ensures Valid() && tickets == old(tickets)[ticket := Ticket(profile, true)]
      ensures streamsLive == old(streamsLive) + 1 && backendDialsInFlight == old(backendDialsInFlight) + 1
    {
      hide StreamCounts, SessionCounts, BootstrapCounts, OneEach, BudgetCounts, RoomForStream, Incremented;
      TicketTaken(settings, streamsLive, backendDialsInFlight, tickets, streamsPerProfile, dialsPerProfile, ticket,
          profile);
      streamsLive := streamsLive + 1;
      backendDialsInFlight := backendDialsInFlight + 1;
      streamsPerProfile := Incremented(streamsPerProfile, profile);
      dialsPerProfile := Incremented(dialsPerProfile, profile);
      tickets := tickets[ticket := Ticket(profile, true)];
    }

    /** `backendDialFinished`, and whether it reaches its panic. It does not for a ticket that is dialing. */
    method BackendDialFinished(profile: string, ghost ticket: nat) returns (panicked: bool)
      requires Valid()
      modifies `backendDialsInFlight, `dialsPerProfile, `tickets
      ensures panicked <==> old(backendDialsInFlight) <= 0 || Lookup(old(dialsPerProfile), profile) <= 0
      ensures panicked ==> unchanged(this)
      ensures !panicked ==>
        && backendDialsInFlight == old(backendDialsInFlight) - 1
        && dialsPerProfile == Decremented(old(dialsPerProfile), profile)
      ensures ticket in old(tickets) && old(tickets)[ticket] == Ticket(profile, true) ==>
        !panicked && Valid() && tickets == old(tickets)[ticket := Ticket(profile, false)]
    {
      hide StreamCounts, SessionCounts, BootstrapCounts, OneEach, BudgetCounts, Decremented;
      if ticket in tickets && tickets[ticket].dialing {
        DialEnded(settings, streamsLive, backendDialsInFlight, tickets, streamsPerProfile, dialsPerProfile, ticket);
      }
      if backendDialsInFlight <= 0 || Lookup(dialsPerProfile, profile) <= 0 {
        return true;
      }
      backendDialsInFlight := backendDialsInFlight - 1;
      dialsPerProfile := Decremented(dialsPerProfile, profile);
      if ticket in tickets && tickets[ticket] == Ticket(profile, true) {
        tickets := tickets[ticket := Ticket(profile, false)];
      }
      return false;
    }

    /** `streamFinished`, and whether it reaches its panic. It does not for a ticket whose dial has ended. */
    method StreamFinished(profile: string, ghost ticket: nat) returns (panicked: bool)
      requires Valid()
      modifies `streamsLive, `streamsPerProfile, `tickets
      ensures panicked <==> old(streamsLive) <= 0 || Lookup(old(streamsPerProfile), profile) <= 0
      ensures panicked ==> unchanged(this)
      ensures !panicked ==>
        && streamsLive == old(streamsLive) - 1
        && streamsPerProfile == Decremented(old(streamsPerProfile), profile)
      ensures ticket in old(tickets) && old(tickets)[ticket] == Ticket(profile, false) ==>
        !panicked && Valid() && tickets == old(tickets) - {ticket}
    {
      hide StreamCounts, SessionCounts, BootstrapCounts, OneEach, BudgetCounts, Decremented;
      if ticket in tickets && !tickets[ticket].dialing {
        StreamEnded(settings, streamsLive, backendDialsInFlight, tickets, streamsPerProfile, dialsPerProfile, ticket);
      }
      if streamsLive <= 0 || Lookup(streamsPerProfile, profile) <= 0 {
        return true;
      }
      streamsLive := streamsLive - 1;
      streamsPerProfile := Decremented(streamsPerProfile, profile);
      if ticket in tickets && tickets[ticket] == Ticket(profile, false) {
        tickets := tickets - {ticket};
      }
      return false;
    }

    // ---------------------------------------------------------------------- bootstraps

    /** `removeBootstrapLocked`. */
    method RemoveBootstrap(hash: nat)
      requires BootstrapCounts(settings, bootstraps, bootstrapsPerIP)
          && OneEach(bootstraps, sessions, origin, issued, nextSession) && hash in bootstraps
      modifies `bootstraps, `bootstrapsPerIP
      ensures BootstrapCounts(settings, bootstraps, bootstrapsPerIP)
          && OneEach(bootstraps, sessions, origin, issued, nextSession) && bootstraps == old(bootstraps) - {hash}
      ensures bootstrapsPerIP == Released(old(bootstrapsPerIP), old(bootstraps)[hash])
    {
      hide BootstrapCounts, OneEach;
      BootstrapRemoved(settings, bootstraps, bootstrapsPerIP, hash);
      OneEachShrunk(bootstraps, bootstraps - {hash}, sessions, sessions, origin, issued, nextSession);
      var value := bootstraps[hash];
      if value.session.None? {
        var left := Lookup(bootstrapsPerIP, value.issuanceIP) - 1;
        if left <= 0 {
          bootstrapsPerIP := bootstrapsPerIP - {value.issuanceIP};
        } else {
          bootstrapsPerIP := bootstrapsPerIP[value.issuanceIP := left];
        }
      }
      bootstraps := bootstraps - {hash};
    }

    /** `removeExpiredBootstrapsLocked`, for bootstraps. */
    method RemoveExpired(now: real)
      requires BootstrapCounts(settings, bootstraps, bootstrapsPerIP)
          && OneEach(bootstraps, sessions, origin, issued, nextSession)
      modifies `bootstraps, `bootstrapsPerIP
      ensures BootstrapCounts(settings, bootstraps, bootstrapsPerIP)
          && OneEach(bootstraps, sessions, origin, issued, nextSession)
      ensures bootstraps == Unexpired(old(bootstraps), now)
      ensures forall h :: h in bootstraps <==> h in old(bootstraps) && !(now > old(bootstraps)[h].expires)
    {
      hide BootstrapCounts, OneEach;
      var todo := bootstraps.Keys;
      while todo != {}
        invariant BootstrapCounts(settings, bootstraps, bootstrapsPerIP)
            && OneEach(bootstraps, sessions, origin, issued, nextSession)
            && todo <= bootstraps.Keys <= old(bootstraps).Keys
        invariant forall h :: h in bootstraps ==> bootstraps[h] == old(bootstraps)[h]
        invariant forall h :: h in old(bootstraps) && h !in todo ==>
          (h in bootstraps <==> now <= old(bootstraps)[h].expires)
        decreases |todo|
      {
        var hash :| hash in todo;
        todo := todo - {hash};
        if now > bootstraps[hash].expires {
          RemoveBootstrap(hash);
        }
      }
    }

    /** `evictOldestUnusedBootstrapLocked`. */
    method EvictOldestUnused() returns (evicted: bool)
      requires BootstrapCounts(settings, bootstraps, bootstrapsPerIP)
          && OneEach(bootstraps, sessions, origin, issued, nextSession)
      modifies `bootstraps, `bootstrapsPerIP
      ensures BootstrapCounts(settings, bootstraps, bootstrapsPerIP)
          && OneEach(bootstraps, sessions, origin, issued, nextSession)
      ensures evicted <==> Unused(old(bootstraps)) != map[]
      ensures !evicted ==> bootstraps == old(bootstraps) && bootstrapsPerIP == old(bootstrapsPerIP)
      ensures evicted ==> exists h :: OldestUnused(old(bootstraps), h) && bootstraps == old(bootstraps) - {h}
      ensures forall ip :: Lookup(bootstrapsPerIP, ip) <= Lookup(old(bootstrapsPerIP), ip)
      ensures evicted ==> |bootstraps| == |old(bootstraps)| - 1
    {
      hide BootstrapCounts, OneEach;
      var oldest: Option<nat> := None;
      var todo := bootstraps.Keys;
      while todo != {}
        invariant todo <= bootstraps.Keys
        invariant oldest.Some? ==> oldest.value in Unused(bootstraps) && oldest.value !in todo
        invariant forall k :: k in Unused(bootstraps) && k !in todo ==>
          oldest.Some? && bootstraps[oldest.value].expires <= bootstraps[k].expires
        decreases |todo|
      {
        var hash :| hash in todo;
        todo := todo - {hash};
        var value := bootstraps[hash];
        if value.session.Some? || (oldest.Some? && !(value.expires < bootstraps[oldest.value].expires)) {
          continue;
        }
        oldest := Some(hash);
      }
      if oldest.None? {
        assert Unused(bootstraps) == map[];
        return false;
      }
      ReleasedLookup(settings, bootstraps, bootstrapsPerIP, oldest.value);
      assert |bootstraps.Keys - {oldest.value}| == |bootstraps.Keys| - 1;
      assert (bootstraps - {oldest.value}).Keys == bootstraps.Keys - {oldest.value};
      RemoveBootstrap(oldest.value);
      return true;
    }

    /** Room for one more bootstrap: expired ones are dropped, then the per-address limit, the rate and
        the total are checked, the last by evicting the oldest unused one if need be. */
    method MakeRoom(clientIP: string, now: real) returns (room: bool)
      requires BootstrapCounts(settings, bootstraps, bootstrapsPerIP)
          && OneEach(bootstraps, sessions, origin, issued, nextSession) && settings.maxBootstrapsGlobal > 0
      modifies `bootstraps, `bootstrapsPerIP, `bootstrapRate
      ensures BootstrapCounts(settings, bootstraps, bootstrapsPerIP)
          && OneEach(bootstraps, sessions, origin, issued, nextSession)
      ensures room ==>
        && |bootstraps| < settings.maxBootstrapsGlobal
        && (settings.maxBootstrapsPerIP != 0 ==> Lookup(bootstrapsPerIP, clientIP) < settings.maxBootstrapsPerIP)
      ensures room ==> RoomMade(Unexpired(old(bootstraps), now), bootstraps, settings.maxBootstrapsGlobal)
      ensures bootstrapRate
        == if AddressIsFull(settings, Unexpired(old(bootstraps), now), clientIP) then old(bootstrapRate)
           else BootstrapTake(settings, old(bootstrapRate), now).0
      ensures !room ==> bootstraps == Unexpired(old(bootstraps), now)
      ensures room <==> !IssueRefused(settings, Unexpired(old(bootstraps), now), clientIP, old(bootstrapRate), now)
    {
      hide BootstrapCounts, OneEach, RateLimit.TakeRate, Lookup, RateLimit.PerMinute, Tally;
      RemoveExpired(now);
      UnusedCounted(settings, bootstraps, bootstrapsPerIP, clientIP);
      if settings.maxBootstrapsPerIP != 0 && Lookup(bootstrapsPerIP, clientIP) >= settings.maxBootstrapsPerIP {
        return false;
      }
      var updated, allowed :=
        RateLimit.CoupledBuckets.Take(bootstrapRate, now, settings.bootstrapsPerMinute, settings.bootstrapsBurst);
      bootstrapRate := updated;
      if !allowed {
        return false;
      }
      CountWithin();
      if |bootstraps| >= settings.maxBootstrapsGlobal {
        room := EvictOldestUnused();
        return room;
      }
      return true;
    }

    /** `IssueBootstrap`, once the profile is known; `hash` is that of a new random token. */
    method IssueBootstrap(profile: string, clientIP: string, now: real, hash: nat) returns (r: IssueResult)
      requires Valid() && hash !in issued && settings.maxBootstrapsGlobal > 0
      modifies `bootstraps, `bootstrapsPerIP, `bootstrapRate, `issued
      ensures Valid()
      ensures r == IssueClosed <==> closed
      ensures closed ==> unchanged(this)
      ensures r == Issued ==>
        && issued == old(issued) + {hash} && hash in bootstraps
        && bootstraps[hash] == Bootstrap(now + settings.bootstrapLifetime, profile, clientIP, 0, None)
        && RoomMade(Unexpired(old(bootstraps), now), bootstraps - {hash}, settings.maxBootstrapsGlobal)
      ensures r == IssueLimited ==> bootstraps == Unexpired(old(bootstraps), now) && issued == old(issued)
      ensures r == IssueLimited <==>
        && !closed
        && var left := Unexpired(old(bootstraps), now);
          || (settings.maxBootstrapsPerIP != 0
              && Tally(Unused(left), IssuedFrom, clientIP) >= settings.maxBootstrapsPerIP)
          || !RateLimit.TakeRate(old(bootstrapRate), now, RateLimit.PerMinute(settings.bootstrapsPerMinute),
               settings.bootstrapsBurst).1
          || (|left| >= settings.maxBootstrapsGlobal && Unused(left) == map[])
      ensures bootstrapRate
        == if || closed
              || (settings.maxBootstrapsPerIP != 0
                  && Tally(Unused(Unexpired(old(bootstraps), now)), IssuedFrom, clientIP)
                    >= settings.maxBootstrapsPerIP)
           then old(bootstrapRate)
           else RateLimit.TakeRate(old(bootstrapRate), now, RateLimit.PerMinute(settings.bootstrapsPerMinute),
               settings.bootstrapsBurst).0
    {
      hide StreamCounts, SessionCounts, BudgetCounts, BootstrapCounts, OneEach, Incremented, Unexpired,
        RoomMade, Lookup, Tally, RateLimit.TakeRate, RateLimit.PerMinute;
      if closed {
        return IssueClosed;
      }
      var room := MakeRoom(clientIP, now);
      if !room {
        return IssueLimited;
      }
      AddBootstrap(hash, Bootstrap(now + settings.bootstrapLifetime, profile, clientIP, 0, None));
      return Issued;
    }

    method AddBootstrap(hash: nat, value: Bootstrap)
      requires BootstrapCounts(settings, bootstraps, bootstrapsPerIP)
          && OneEach(bootstraps, sessions, origin, issued, nextSession)
      requires hash !in issued && value.session.None? && |bootstraps| < settings.maxBootstrapsGlobal
      requires settings.maxBootstrapsPerIP != 0 ==>
        Lookup(bootstrapsPerIP, value.issuanceIP) < settings.maxBootstrapsPerIP
      modifies `bootstraps, `bootstrapsPerIP, `issued
      ensures BootstrapCounts(settings, bootstraps, bootstrapsPerIP)
          && OneEach(bootstraps, sessions, origin, issued, nextSession)
      ensures bootstraps == old(bootstraps)[hash := value] && issued == old(issued) + {hash}
          && bootstraps - {hash} == old(bootstraps)
    {
      hide BootstrapCounts, OneEach, Incremented, Lookup;
      FreshHash(hash);
      BootstrapAdded(settings, bootstraps, bootstrapsPerIP, hash, value);
      OneEachIssued(bootstraps, sessions, origin, issued, nextSession, hash, value);
      assert bootstraps[hash := value] - {hash} == bootstraps;
      bootstraps := bootstraps[hash := value];
      bootstrapsPerIP := Incremented(bootstrapsPerIP, value.issuanceIP);
      issued := issued + {hash};
    }

    // ------------------------------------------------------------------------ sessions

    /** `Create`, for a well-formed HELLO whose body has this digest; `token` is a new random one. */
    method Create(hash: nat, clientIP: string, digest: nat, now: real, token: nat) returns (r: CreateResult)
      requires Valid() && token !in sessions
      modifies `bootstraps, `bootstrapsPerIP, `sessions, `sessionsPerIP, `sessionsPerProfile, `origin, `nextSession,
          sessionRate
      ensures Valid()
      ensures !(r.Created? && nextSession != old(nextSession)) ==>
        && sessions == old(sessions) && bootstraps == old(bootstraps) && origin == old(origin)
        && sessionRate.View() == old(sessionRate.View())
      ensures hash !in old(bootstraps) || now > old(bootstraps)[hash].expires ==> r == NotAuthenticated
      ensures hash in old(bootstraps) && now <= old(bootstraps)[hash].expires && old(bootstraps)[hash].session.Some? ==>
        && nextSession == old(nextSession)
        && r == if old(bootstraps)[hash].bodyDigest == digest then Created(old(bootstraps)[hash].session.value)
          else NotAuthenticated
      ensures hash in old(bootstraps) && now <= old(bootstraps)[hash].expires && old(bootstraps)[hash].session.None? ==>
        var e := SessionEntry(old(nextSession), clientIP, old(bootstraps)[hash].profile);
        var admission := RateLimit.Allow(old(sessionRate.View()), RateLimit.Request(e.profile, now),
            RateLimit.LimitsOf(settings.sessionRates));
        if && !closed
           && |old(sessions)| < settings.limits.maxSessionsGlobal
           && Tally(old(sessions), ProfileOf, e.profile) < settings.profiles(e.profile).maxSessions
           && (settings.maxSessionsPerIP == 0
               || Tally(old(sessions), ClientOf, clientIP) < settings.maxSessionsPerIP)
           && admission.1
        then
          && sessionRate.View() == admission.0
          && r == Created(old(nextSession)) && nextSession == old(nextSession) + 1
          && sessions == old(sessions)[token := e]
          && bootstraps
            == old(bootstraps)[hash := old(bootstraps)[hash].(bodyDigest := digest, session := Some(old(nextSession)))]
          && origin == old(origin)[old(nextSession) := hash]
          && (forall s :: s in old(origin) ==> old(origin)[s] != hash)
        else r == CreateLimited
    {
      hide StreamCounts, SessionCounts, BootstrapCounts, OneEach, BudgetCounts, RateLimit.LimitsOf, RateLimit.Allow,
        Lookup, Tally;
      if hash !in bootstraps || now > bootstraps[hash].expires {
        return NotAuthenticated;
      }
      var entry := bootstraps[hash];
      if entry.session.Some? {
        if entry.bodyDigest != digest {
          return NotAuthenticated;
        }
        return Created(entry.session.value);
      }
      SessionsCounted(settings, sessions, sessionsPerIP, sessionsPerProfile, clientIP, entry.profile);
      if closed
         || |sessions| >= settings.limits.maxSessionsGlobal
         || Lookup(sessionsPerProfile, entry.profile) >= settings.profiles(entry.profile).maxSessions
         || (settings.maxSessionsPerIP != 0 && Lookup(sessionsPerIP, clientIP) >= settings.maxSessionsPerIP) {
        return CreateLimited;
      }
      RateLimit.RefusalChangesNothing(sessionRate.View(), RateLimit.Request(entry.profile, now),
          RateLimit.LimitsOf(settings.sessionRates));
      var allowed := sessionRate.AllowProfile(RateLimit.Request(entry.profile, now), settings.sessionRates);
      if !allowed {
        return CreateLimited;
      }
      AddSession(hash, clientIP, digest, token);
      return Created(nextSession - 1);
    }

    /** The session of an unused bootstrap, registered and counted. */
    method AddSession(hash: nat, clientIP: string, digest: nat, token: nat)
      requires Valid() && token !in sessions && hash in bootstraps && bootstraps[hash].session.None?
      requires RoomForSession(settings, sessions, sessionsPerIP, sessionsPerProfile,
          SessionEntry(nextSession, clientIP, bootstraps[hash].profile))
      modifies `bootstraps, `bootstrapsPerIP, `sessions, `sessionsPerIP, `sessionsPerProfile, `origin, `nextSession
      ensures Valid() && nextSession == old(nextSession) + 1
      ensures sessions
        == old(sessions)[token := SessionEntry(old(nextSession), clientIP, old(bootstraps)[hash].profile)]
      ensures bootstraps
        == old(bootstraps)[hash := old(bootstraps)[hash].(bodyDigest := digest, session := Some(old(nextSession)))]
      ensures origin == old(origin)[old(nextSession) := hash]
          && (forall s :: s in old(origin) ==> old(origin)[s] != hash)
    {
      hide StreamCounts, SessionCounts, BootstrapCounts, OneEach, BudgetCounts, RoomForSession, Incremented, Lookup,
        Released;
      var entry := bootstraps[hash];
      var e := SessionEntry(nextSession, clientIP, entry.profile);
      SessionAdded(settings, sessions, sessionsPerIP, sessionsPerProfile, token, e);
      BootstrapUsed(settings, bootstraps, bootstrapsPerIP, hash, digest, nextSession);
      OneEachCreated(bootstraps, sessions, origin, issued, nextSession, hash, digest, token, e);
      sessions := sessions[token := e];
      sessionsPerIP := Incremented(sessionsPerIP, clientIP);
      sessionsPerProfile := Incremented(sessionsPerProfile, entry.profile);
      bootstrapsPerIP := Released(bootstrapsPerIP, entry);
      bootstraps := bootstraps[hash := entry.(bodyDigest := digest, session := Some(nextSession))];
      origin := origin[nextSession := hash];
      nextSession := nextSession + 1;
    }

    /** `sessionFinished`: the session leaves the register and its bootstrap is dropped. */
    method SessionFinished(session: nat)
      requires Valid()
      modifies `bootstraps, `bootstrapsPerIP, `sessions, `sessionsPerIP, `sessionsPerProfile
      ensures Valid()
      ensures sessions == map h | h in old(sessions) && old(sessions)[h].session != session :: old(sessions)[h]
      ensures bootstraps == map h | h in old(bootstraps)
          && old(bootstraps)[h].session != Some(session) :: old(bootstraps)[h]
    {
      hide StreamCounts, SessionCounts, BootstrapCounts, OneEach, BudgetCounts, Decremented;
      RemoveSession(session);
      RemoveBootstrapsOf(session);
    }

    /** The loop of `sessionFinished` over the bootstraps. */
    method RemoveBootstrapsOf(session: nat)
      requires BootstrapCounts(settings, bootstraps, bootstrapsPerIP)
          && OneEach(bootstraps, sessions, origin, issued, nextSession)
      modifies `bootstraps, `bootstrapsPerIP
      ensures BootstrapCounts(settings, bootstraps, bootstrapsPerIP)
          && OneEach(bootstraps, sessions, origin, issued, nextSession)
      ensures bootstraps == map h | h in old(bootstraps)
          && old(bootstraps)[h].session != Some(session) :: old(bootstraps)[h]
    {
      hide BootstrapCounts, OneEach;
      var todo := bootstraps.Keys;
      while todo != {}
        invariant BootstrapCounts(settings, bootstraps, bootstrapsPerIP)
            && OneEach(bootstraps, sessions, origin, issued, nextSession)
        invariant todo <= bootstraps.Keys && bootstraps.Keys <= old(bootstraps).Keys
        invariant forall h :: h in bootstraps ==> bootstraps[h] == old(bootstraps)[h]
        invariant forall h :: h in old(bootstraps) && h !in todo ==>
          (h in bootstraps <==> old(bootstraps)[h].session != Some(session))
        decreases |todo|
      {
        var hash :| hash in todo;
        todo := todo - {hash};
        if bootstraps[hash].session == Some(session) {
          RemoveBootstrap(hash);
        }
      }
    }

    /** The loop of `sessionFinished` over the sessions, which stops at the first match. */
    method RemoveSession(session: nat)
      requires Valid()
      modifies `sessions, `sessionsPerIP, `sessionsPerProfile
      ensures Valid()
      ensures sessions == map h | h in old(sessions) && old(sessions)[h].session != session :: old(sessions)[h]
    {
      hide StreamCounts, SessionCounts, BootstrapCounts, BudgetCounts, OneEach, Decremented;
      var todo := sessions.Keys;
      while todo != {}
        invariant todo <= sessions.Keys
        invariant forall h :: h in sessions && h !in todo ==> sessions[h].session != session
        decreases |todo|
      {
        var hash :| hash in todo;
        todo := todo - {hash};
        if sessions[hash].session == session {
          OnlySession(bootstraps, sessions, origin, issued, nextSession, hash);
          UncountSession(hash);
          return;
        }
      }
      assert sessions == map h | h in sessions && sessions[h].session != session :: sessions[h];
    }

    method UncountSession(hash: nat)
      requires Valid() && hash in sessions
      modifies `sessions, `sessionsPerIP, `sessionsPerProfile
      ensures Valid() && sessions == old(sessions) - {hash}
    {
      hide StreamCounts, SessionCounts, BootstrapCounts, BudgetCounts, OneEach, Decremented;
      var entry := sessions[hash];
      SessionRemoved(settings, sessions, sessionsPerIP, sessionsPerProfile, hash);
      OneEachShrunk(bootstraps, bootstraps, sessions, sessions - {hash}, origin, issued, nextSession);
      sessions := sessions - {hash};
      sessionsPerIP := Decremented(sessionsPerIP, entry.clientIP);
      sessionsPerProfile := Decremented(sessionsPerProfile, entry.profile);
    }

    lemma CountWithin()
      requires BootstrapCounts(settings, bootstraps, bootstrapsPerIP)
      ensures |bootstraps| <= Highest(settings.maxBootstrapsGlobal)
    {
    }

    lemma FreshHash(hash: nat)
      requires OneEach(bootstraps, sessions, origin, issued, nextSession) && hash !in issued
      ensures hash !in bootstraps
    {
    }
  }

  lemma NothingCounted<K, T>(m: map<K, T>, key: T -> string)
    requires m == map[]
    ensures Counts(map[], m, key)
  {
    forall name
      ensures Tally(m, key, name) == 0
    {
      assert Those(m, key, name) == {};
    }
  }
}
