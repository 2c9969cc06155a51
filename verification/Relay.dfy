/** A relay with its sessions: the manager's budget, stream tickets and dials
    (`internal/session/manager.go`) under any interleaving of the sessions' critical sections
    (`internal/session/session.go`) and of their backends' lives, down to the single call.

    A session's section runs under the session's own lock and calls the manager as it goes along; between
    two of its calls other sessions may call, and backends may report. The answers a section gets are
    part of the section (`SessionRuns.Op`); a call is made only if the manager's answer is that one. */
module Relay {
  import opened Options
  import opened Charges
  import opened Budget
  import opened Tallies
  import opened SessionState
  import opened SessionInv
  import opened ManagerCalls
  import opened Managers
  import RateLimit
  import SessionRuns

  // ------------------------------------------------------------------------- the world

  /** A backend that has a ticket: granted in a section that has not ended yet, dialing, or connected. */
  datatype Phase = Granted | Dialing | Running

  datatype Backend = Backend(profile: string, phase: Phase)

  /** A session, the section it is in, if any, and how many of its calls have been answered. `s` is the
      state before that section. */
  datatype Member = Member(profile: string, s: State, doing: Option<SessionRuns.Op>, sent: nat)

  /** The manager's fields, its sessions, and the backends by session and number. `panicked` says that a
      panic of the manager has been reached; `finished` are the backends that have ended, and `held` is
      what each session holds, as of the calls answered. */
  datatype World = World(
    ledger: Amount, live: int, dials: int, streamsPerProfile: map<string, int>, dialsPerProfile: map<string, int>,
    rate: RateLimit.Buckets, closed: bool, panicked: bool,
    members: map<nat, Member>, nextSession: nat,
    backends: map<(nat, nat), Backend>, finished: set<(nat, nat)>, held: map<nat, Split>)

  datatype Event =
    | SessionBegins(profile: string, carrier: Carrier, limits: Limits)
    | SectionBegins(id: nat, op: SessionRuns.Op)
    | CallAnswered(id: nat, now: real)
    | SectionEnds(id: nat)
    | DialReports(id: nat, backend: nat)
    | BackendEnds(id: nat, backend: nat)
    | SessionLeaves(id: nat)
    | RelayCloses

  /** The state after the section. */
  function After(m: Member): State
    requires m.doing.Some?
  {
    SessionRuns.Step(m.s, m.doing.value)
  }

  function CallsBetween(s: State, t: State): seq<ManagerCall> {
    if s.calls <= t.calls then t.calls[|s.calls|..] else []
  }

  /** The calls of the section. */
  function Calls(m: Member): seq<ManagerCall> {
    if m.doing.None? then [] else CallsBetween(m.s, After(m))
  }

  ghost function HeldBy(s: State): Split { HeldSplit(s, 0, 0) }

  /** What is held changes soundly with the calls to come, and ends as what the session then holds. */
  ghost predicate Onward(h: Split, calls: seq<ManagerCall>, t: State) {
    exists g: Split :: SoundCalls(h, calls, g) && (t.panic.None? ==> SameSplit(g, HeldBy(t)))
  }

  /** What is held after the next call. */
  ghost function NextHeld(h: Split, calls: seq<ManagerCall>, t: State): Split
    requires calls != []
  {
    if exists m: Split :: SoundStep(h, calls[0], m) && Onward(m, calls[1..], t)
    then var m: Split :| SoundStep(h, calls[0], m) && Onward(m, calls[1..], t); m
    else h
  }

  function Sent(w: World, id: nat): World
    requires id in w.members
  {
    w.(members := w.members[id := w.members[id].(sent := w.members[id].sent + 1)])
  }

  /** `changePendingBudget` is called, and answers as the section has it. */
  function BudgetAnswered(w: World, id: nat, c: Settings, call: ManagerCall): World
    requires id in w.members && call.BudgetCall? && c.limits.maxSessionsGlobal > 0
  {
    var change := ChangeLedger(c.limits, w.ledger, call.cost, call.items, call.pool);
    if change.allowed != call.allowed then w
    else Sent(w, id).(ledger := change.ledger, panicked := w.panicked || change.panicked)
  }

  /** `acquireStream` is called, and answers as the section has it. */
  function TicketAnswered(w: World, id: nat, now: real, c: Settings, call: ManagerCall): World
    requires id in w.members && call.TicketCall?
  {
    var profile := w.members[id].profile;
    var room := !w.closed && RoomForStream(c, w.live, w.dials, w.streamsPerProfile, w.dialsPerProfile, profile);
    var (rate, admitted) :=
      if room then RateLimit.Allow(w.rate, RateLimit.Request(profile, now), RateLimit.LimitsOf(c.streamRates))
      else (w.rate, false);
    if (room && admitted) != call.granted then w
    else if !call.granted then Sent(w, id).(rate := rate)
    else
      Sent(w, id).(rate := rate, live := w.live + 1, dials := w.dials + 1,
                   streamsPerProfile := Incremented(w.streamsPerProfile, profile),
                   dialsPerProfile := Incremented(w.dialsPerProfile, profile),
                   backends := w.backends[(id, call.backend) := Backend(profile, Granted)])
  }

  ghost function Answered(w: World, id: nat, now: real, c: Settings): World
    requires id in w.members && w.members[id].sent < |Calls(w.members[id])| && c.limits.maxSessionsGlobal > 0
  {
    var m := w.members[id];
    var call := Calls(m)[m.sent];
    var v := if call.BudgetCall? then BudgetAnswered(w, id, c, call) else TicketAnswered(w, id, now, c, call);
    if v == w then w
    else v.(held := w.held[id := NextHeld(if id in w.held then w.held[id] else NOTHING, Calls(m)[m.sent..], After(m))])
  }

  /** The backends a section has begun start to dial. */
  function Started(backends: map<(nat, nat), Backend>, id: nat): map<(nat, nat), Backend> {
    map p | p in backends :: if p.0 == id && backends[p].phase == Granted then backends[p].(phase := Dialing)
      else backends[p]
  }

  /** `backendDialFinished`. */
  function DialReported(w: World, p: (nat, nat)): World
    requires p in w.backends
  {
    var profile := w.backends[p].profile;
    if w.dials <= 0 || Lookup(w.dialsPerProfile, profile) <= 0 then w.(panicked := true)
    else
      w.(dials := w.dials - 1, dialsPerProfile := Decremented(w.dialsPerProfile, profile),
         backends := w.backends[p := Backend(profile, Running)])
  }

  /** `streamFinished`. */
  function BackendEnded(w: World, p: (nat, nat)): World
    requires p in w.backends
  {
    var profile := w.backends[p].profile;
    if w.live <= 0 || Lookup(w.streamsPerProfile, profile) <= 0 then w.(panicked := true)
    else
      w.(live := w.live - 1, streamsPerProfile := Decremented(w.streamsPerProfile, profile),
         backends := w.backends - {p}, finished := w.finished + {p})
  }

  predicate Resting(w: World, id: nat) { id in w.members && w.members[id].doing.None? }

  /** An event changes the world if it is possible in it. A section that has dereferenced nil never ends:
      its session keeps its lock. */
  ghost function Next(w: World, e: Event, c: Settings): World
    requires c.limits.maxSessionsGlobal > 0
  {
    match e
    case SessionBegins(profile, carrier, limits) =>
      if !ValidLimits(limits) then w
      else
        w.(members := w.members[w.nextSession := Member(profile, NewSession(carrier, limits), None, 0)],
           held := w.held[w.nextSession := HeldBy(NewSession(carrier, limits))], nextSession := w.nextSession + 1)
    case SectionBegins(id, op) =>
      if !Resting(w, id) then w else w.(members := w.members[id := w.members[id].(doing := Some(op), sent := 0)])
    case CallAnswered(id, now) =>
      if id in w.members && w.members[id].sent < |Calls(w.members[id])| then Answered(w, id, now, c) else w
    case SectionEnds(id) =>
      if id !in w.members || w.members[id].doing.None? || w.members[id].sent != |Calls(w.members[id])|
         || After(w.members[id]).panic.Some? then w
      else
        w.(members := w.members[id := Member(w.members[id].profile, After(w.members[id]), None, 0)],
           backends := Started(w.backends, id))
    case DialReports(id, b) =>
      if (id, b) in w.backends && w.backends[(id, b)].phase == Dialing then DialReported(w, (id, b)) else w
    case BackendEnds(id, b) =>
      if (id, b) in w.backends && w.backends[(id, b)].phase == Running then BackendEnded(w, (id, b)) else w
    case SessionLeaves(id) =>
      if Resting(w, id) && w.members[id].s.closed then w.(members := w.members - {id}, held := w.held - {id}) else w
    case RelayCloses => w.(closed := true)
  }

  const EMPTY_WORLD := World(Amount(0, 0), 0, 0, map[], map[], RateLimit.Buckets(RateLimit.FRESH, map[]), false, false,
                             map[], 0, map[], {}, map[])

  /** The run, event by event. It is in three parts so that proofs look at a step only where they ask to,
      by `WorldUnfolds`. */
  ghost function RunWorld(events: seq<Event>, c: Settings): World
    requires c.limits.maxSessionsGlobal > 0
    decreases |events|, 2
  {
    WorldEvents(events, c)
  }

  ghost function WorldEvents(events: seq<Event>, c: Settings): World
    requires c.limits.maxSessionsGlobal > 0
    decreases |events|, 1
  {
    if events == [] then EMPTY_WORLD else WorldLastEvent(events, c)
  }

  ghost function WorldLastEvent(events: seq<Event>, c: Settings): World
    requires events != [] && c.limits.maxSessionsGlobal > 0
    decreases |events|, 0
  {
    Next(RunWorld(events[..|events| - 1], c), events[|events| - 1], c)
  }

  lemma WorldUnfolds(events: seq<Event>, c: Settings)
    requires c.limits.maxSessionsGlobal > 0
    ensures events == [] ==> RunWorld(events, c) == EMPTY_WORLD
    ensures events != [] ==> RunWorld(events, c) == Next(RunWorld(events[..|events| - 1], c), events[|events| - 1], c)
  {
    hide Next;
    assert RunWorld(events, c) == WorldEvents(events, c);
    if events != [] {
      assert WorldEvents(events, c) == WorldLastEvent(events, c);
    }
  }

  // --------------------------------------------------------------------- the invariant

  /** Tickets granted so far in the section. */
  function Given(m: Member): nat {
    if m.sent <= |Calls(m)| then |TicketsIn(Calls(m)[..m.sent])| else 0
  }

  /** The session is in order, and its section gets a ticket for exactly the backends it begins. */
  ghost predicate MemberInv(m: Member) {
    && Inv(m.s) && m.sent <= |Calls(m)|
    && (m.doing.Some? ==>
        && m.s.nextBackend <= After(m).nextBackend
        && TicketsIn(Calls(m)) == Range(m.s.nextBackend, After(m).nextBackend))
  }

  /** What is held is what the session holds at rest, and otherwise on the way there. */
  ghost predicate HoldingInv(m: Member, h: Split)
    requires m.sent <= |Calls(m)|
  {
    if m.doing.None? then SameSplit(HeldBy(m.s), h) else Onward(h, Calls(m)[m.sent..], After(m))
  }

  ghost predicate MembersInv(w: World) {
    && w.held.Keys == w.members.Keys
    && forall id :: id in w.members ==>
         id < w.nextSession && MemberInv(w.members[id]) && HoldingInv(w.members[id], w.held[id])
  }

  /** Every backend up to `a` is unfinished or finished; from there on, `g` have a ticket and wait for the
      section to end. */
  predicate BackendsOf(id: nat, profile: string, a: nat, g: nat, backends: map<(nat, nat), Backend>,
      finished: set<(nat, nat)>) {
    && (forall p :: p in backends && p.0 == id ==>
          backends[p].profile == profile && if backends[p].phase == Granted then a <= p.1 < a + g else p.1 < a)
    && (forall b :: a <= b < a + g ==> (id, b) in backends)
    && (forall b :: 0 <= b < a ==> ((id, b) in backends <==> (id, b) !in finished))
    && (forall p :: p in finished && p.0 == id ==> p.1 < a)
  }

  ghost predicate BackendsInv(w: World) {
    && (forall id :: id in w.members ==>
          BackendsOf(id, w.members[id].profile, w.members[id].s.nextBackend, Given(w.members[id]), w.backends,
              w.finished))
    && (forall p :: p in w.backends ==> p.0 < w.nextSession && (p.0 !in w.members ==> w.backends[p].phase != Granted))
    && (forall p :: p in w.finished ==> p.0 < w.nextSession)
  }

  function Tickets(backends: map<(nat, nat), Backend>): map<(nat, nat), Ticket> {
    map p | p in backends :: Ticket(backends[p].profile, backends[p].phase != Running)
  }

  ghost predicate CountsInv(w: World, c: Settings) {
    StreamCounts(c, w.live, w.dials, Tickets(w.backends), w.streamsPerProfile, w.dialsPerProfile)
  }

  predicate ValidSettings(c: Settings) {
    ValidLimits(c.limits) && c.limits.maxSessionsGlobal > 0 && c.maxStreamsGlobal >= 0 && c.maxBackendDialsInFlight >= 0
  }

  ghost predicate WorldInv(w: World, c: Settings)
    requires c.limits.maxSessionsGlobal > 0
  {
    !w.panicked && MembersInv(w) && LedgerBalanced(c.limits, w.ledger, w.held) && BackendsInv(w) && CountsInv(w, c)
  }


  // ------------------------------------------------------------------- sums over sessions

  lemma SameIsEqual(h: Split, g: Split)
    requires SameSplit(h, g)
    ensures h == g
  {
    assert Part(g, UpCost) == Part(h, UpCost) && Part(g, DownCost) == Part(h, DownCost)
        && Part(g, ControlCost) == Part(h, ControlCost);
    assert Part(g, UpItems) == Part(h, UpItems) && Part(g, DownItems) == Part(h, DownItems)
        && Part(g, ControlItems) == Part(h, ControlItems);
    assert g.up == h.up && g.down == h.down && g.control == h.control;
  }

  function Minus(g: Split, h: Split): Split {
    Split(Amount(g.up.cost - h.up.cost, g.up.items - h.up.items),
          Amount(g.down.cost - h.down.cost, g.down.items - h.down.items),
          Amount(g.control.cost - h.control.cost, g.control.items - h.control.items))
  }

  lemma MinusParts(g: Split, h: Split)
    ensures forall k :: Part(Minus(g, h), k) == Part(g, k) - Part(h, k)
    ensures Minus(g, h).Cost() == g.Cost() - h.Cost() && Minus(g, h).Items() == g.Items() - h.Items()
    ensures Together(g, h, Minus(g, h))
  {
  }

  lemma NotMore(d: Split)
    requires forall k :: Part(d, k) <= 0
    ensures NonPositive(d)
  {
    assert Part(d, UpCost) <= 0 && Part(d, UpItems) <= 0 && Part(d, DownCost) <= 0 && Part(d, DownItems) <= 0;
    assert Part(d, ControlCost) <= 0 && Part(d, ControlItems) <= 0;
  }

  /** A sound step that is allowed is a sound call to the ledger. */
  lemma StepIsSoundCall(shares: map<nat, Split>, id: nat, call: ManagerCall, g: Split)
    requires id in shares && call.BudgetCall? && call.allowed && SoundStep(shares[id], call, g)
    ensures var d := Minus(g, shares[id]);
      SoundCall(shares, id, g, d, call.pool) && d.Cost() == call.cost && d.Items() == call.items
  {
    var h := shares[id];
    var d := Minus(g, h);
    MinusParts(g, h);
    assert Share(shares, id) == h;
    hide Minus, Together, Share, NonNegative;
    if ChargesOne(h, g, call.cost, call.items, call.pool) {
      assert forall k :: Part(d, k) == ChargeFor(call.pool, call.cost, call.items, k);
    } else {
      assert Gives(h, g, call.cost, call.items);
      hide Part;
      NotMore(d);
    }
  }

  /** One answered call of the budget, as the ledger sees it: what is held afterwards is what the ledger
      has, and the panic is not reached. */
  lemma CallKeepsBalance(l: Limits, ledger: Amount, shares: map<nat, Split>, id: nat, call: ManagerCall, g: Split)
    requires ValidLimits(l) && LedgerBalanced(l, ledger, shares) && id in shares && call.BudgetCall?
    requires SoundStep(shares[id], call, g)
    requires ChangeLedger(l, ledger, call.cost, call.items, call.pool).allowed == call.allowed
    ensures var change := ChangeLedger(l, ledger, call.cost, call.items, call.pool);
      !change.panicked && LedgerBalanced(l, change.ledger, shares[id := g])
  {
    if call.allowed {
      StepIsSoundCall(shares, id, call, g);
      hide LedgerBalanced, SoundCall, SoundStep, ChangeLedger;
      LedgerCallKeepsBalance(l, ledger, shares, id, g, Minus(g, shares[id]), call.pool);
    } else {
      SameIsEqual(shares[id], g);
      assert shares[id := g] == shares;
      hide LedgerBalanced;
      RefusedUnchanged(l, ledger, call);
    }
  }

  lemma RefusedUnchanged(l: Limits, ledger: Amount, call: ManagerCall)
    requires l.maxSessionsGlobal > 0 && call.BudgetCall?
    ensures var change := ChangeLedger(l, ledger, call.cost, call.items, call.pool);
      !change.allowed ==> !change.panicked && change.ledger == ledger
  {
    hide GlobalAdmits;
  }

  lemma OtherCallKeepsShares(shares: map<nat, Split>, id: nat, call: ManagerCall, g: Split)
    requires id in shares && call.TicketCall? && SoundStep(shares[id], call, g)
    ensures shares[id := g] == shares
  {
    SameIsEqual(shares[id], g);
  }

  // ------------------------------------------------------------------------ going onward

  lemma NextHeldIsSound(h: Split, calls: seq<ManagerCall>, t: State)
    requires calls != [] && Onward(h, calls, t)
    ensures SoundStep(h, calls[0], NextHeld(h, calls, t)) && Onward(NextHeld(h, calls, t), calls[1..], t)
  {
    hide SoundStep, HeldBy, SameSplit;
    var g: Split :| SoundCalls(h, calls, g) && (t.panic.None? ==> SameSplit(g, HeldBy(t)));
    var m: Split :| SoundStep(h, calls[0], m) && SoundCalls(m, calls[1..], g);
    hide SoundCalls;
    assert Onward(m, calls[1..], t);
  }

  lemma OnwardEnds(h: Split, calls: seq<ManagerCall>, t: State)
    requires calls == [] && Onward(h, calls, t) && t.panic.None?
    ensures SameSplit(HeldBy(t), h)
  {
    hide HeldBy;
  }

  /** A section takes what is held from the state it starts in to the one it ends in. */
  lemma SectionGoesOnward(s: State, op: SessionRuns.Op, h: Split)
    requires Inv(s) && s.panic.None? && SameSplit(HeldBy(s), h)
    ensures var t := SessionRuns.Step(s, op);
      && s.nextBackend <= t.nextBackend && Onward(h, CallsBetween(s, t), t)
      && TicketsIn(CallsBetween(s, t)) == Range(s.nextBackend, t.nextBackend)
  {
    hide InvWith, SessionRuns.Step, SoundCalls, TicketsIn;
    SectionAsks(s, op);
    var t := SessionRuns.Step(s, op);
    var c: int, i: int :| Asks(s, 0, 0, t, c, i) && (t.panic.None? ==> c == 0 && i == 0);
    FlipSame(HeldBy(s), h);
    hide HeldSplit, SameSplit;
    SameThenSound(h, HeldBy(s), CallsBetween(s, t), HeldSplit(t, c, i));
    SameItself(HeldSplit(t, c, i));
  }

  lemma FlipSame(h: Split, g: Split)
    requires SameSplit(h, g)
    ensures SameSplit(g, h)
  {
  }

  lemma SameItself(h: Split)
    ensures SameSplit(h, h)
  {
  }

  // ------------------------------------------------------------------------------ tickets

  lemma TicketsAfter(calls: seq<ManagerCall>, n: nat)
    requires n < |calls|
    ensures TicketsIn(calls[..n + 1]) == TicketsIn(calls[..n]) + TicketOf(calls[n])
  {
    hide TicketsIn, TicketOf;
    assert calls[..n + 1] == calls[..n] + [calls[n]];
    TicketsConcat(calls[..n], [calls[n]]);
    TicketsHead([calls[n]]);
    NoTickets([calls[n]][1..]);
    assert TicketOf(calls[n]) + [] == TicketOf(calls[n]);
  }

  /** The next ticket granted is for the next backend. */
  lemma NextTicket(calls: seq<ManagerCall>, n: nat, a: nat, z: nat)
    requires n < |calls| && a <= z && TicketsIn(calls) == Range(a, z)
    ensures var g := |TicketsIn(calls[..n])|;
      && |TicketsIn(calls[..n + 1])| == g + |TicketOf(calls[n])|
      && (calls[n].TicketCall? && calls[n].granted ==> calls[n].backend == a + g && a + g < z)
  {
    TicketsAfter(calls, n);
    TicketsConcat(calls[..n + 1], calls[n + 1..]);
    assert calls == calls[..n + 1] + calls[n + 1..];
    var g := |TicketsIn(calls[..n])|;
    hide TicketsIn;
    if calls[n].TicketCall? && calls[n].granted {
      assert TicketsIn(calls)[g] == calls[n].backend;
    }
  }

  lemma AllGiven(calls: seq<ManagerCall>, n: nat, a: nat, z: nat)
    requires n == |calls| && a <= z && TicketsIn(calls) == Range(a, z)
    ensures a + |TicketsIn(calls[..n])| == z
  {
    assert calls[..n] == calls;
  }


  // --------------------------------------------------------------- sessions come and go

  lemma HeldIsPending(s: State)
    requires Inv(s)
    ensures NonNegative(HeldBy(s)) && HeldBy(s).Cost() == s.pendingCost && HeldBy(s).Items() == s.pendingItems
  {
    hide InvWith, HeldSplit;
    InvTotals(s, 0, 0);
  }

  lemma PartsOfNothing(c: Split)
    requires NonNegative(c) && c.Cost() == 0 && c.Items() == 0
    ensures forall k :: Part(c, k) == 0
  {
  }

  lemma BalancedWith(ceiling: Amount, ledger: Amount, shares: map<nat, Split>, id: nat, held: Split)
    requires Balanced(ceiling, ledger, shares) && id !in shares && NonNegative(held) && held.Cost() == 0
        && held.Items() == 0
    ensures Balanced(ceiling, ledger, shares[id := held])
  {
    PartsOfNothing(held);
    var updated := shares[id := held];
    assert forall i :: i in updated ==> i == id || updated[i] == shares[i];
    hide NonNegative, Part, Sum;
    forall k
      ensures Sum(updated, Part, k) == Sum(shares, Part, k)
    {
      SumUpdate(shares, Part, k, id, held);
    }
  }

  lemma BalancedWithout(ceiling: Amount, ledger: Amount, shares: map<nat, Split>, id: nat)
    requires Balanced(ceiling, ledger, shares) && id in shares && shares[id].Cost() == 0 && shares[id].Items() == 0
    ensures Balanced(ceiling, ledger, shares - {id})
  {
    PartsOfNothing(shares[id]);
    hide NonNegative, Part, Sum;
    forall k
      ensures Sum(shares - {id}, Part, k) == Sum(shares, Part, k)
    {
      SumRemove(shares, Part, k, id);
    }
  }

  lemma ClosedPending(s: State)
    requires Inv(s) && s.closed
    ensures s.pendingCost == 0 && s.pendingItems == 0
  {
    hide StreamsInv, LanesInv, Accounts;
  }

  lemma NewSessionFields(carrier: Carrier, limits: Limits)
    ensures var s := NewSession(carrier, limits); s.pendingCost == 0 && s.pendingItems == 0 && s.nextBackend == 0
  {
  }

  /** One session's record changes, or a session joins. */
  lemma MemberSet(w: World, v: World, id: nat, m: Member, h: Split)
    requires MembersInv(w) && v.members == w.members[id := m] && v.held == w.held[id := h]
    requires w.nextSession <= v.nextSession && id < v.nextSession && MemberInv(m) && HoldingInv(m, h)
    ensures MembersInv(v)
  {
    hide MemberInv, HoldingInv;
  }

  lemma BackendsSet(w: World, v: World, id: nat, m: Member)
    requires BackendsInv(w) && v.members == w.members[id := m] && v.backends == w.backends && v.finished == w.finished
    requires w.nextSession <= v.nextSession
    requires BackendsOf(id, m.profile, m.s.nextBackend, Given(m), w.backends, w.finished)
    ensures BackendsInv(v)
  {
    hide BackendsOf, Given;
  }

  lemma NoBackends(w: World, id: nat, profile: string)
    requires BackendsInv(w) && id >= w.nextSession
    ensures BackendsOf(id, profile, 0, 0, w.backends, w.finished)
  {
    hide Given;
  }

  lemma SessionBeginsKeepsInv(w: World, profile: string, carrier: Carrier, limits: Limits, c: Settings)
    requires ValidSettings(c) && WorldInv(w, c)
    ensures WorldInv(Next(w, SessionBegins(profile, carrier, limits), c), c)
  {
    hide InvWith, NewSession, HeldSplit, Balanced, GlobalLimit, ValidLimits, StreamCounts, SameSplit, BackendsInv,
      BackendsOf, NonNegative, MembersInv, MemberInv, HoldingInv, Given;
    if ValidLimits(limits) {
      var s := NewSession(carrier, limits);
      var m := Member(profile, s, None, 0);
      var v := Next(w, SessionBegins(profile, carrier, limits), c);
      SessionRuns.NewSessionInv(carrier, limits);
      NewSessionFields(carrier, limits);
      HeldIsPending(s);
      NobodyThere(w);
      BalancedWith(GlobalLimit(c.limits, PendingUplink), w.ledger, w.held, w.nextSession, HeldBy(s));
      SameItself(HeldBy(s));
      RestingInv(m, HeldBy(s));
      MemberSet(w, v, w.nextSession, m, HeldBy(s));
      NothingGiven(m);
      NoBackends(w, w.nextSession, profile);
      BackendsSet(w, v, w.nextSession, m);
    }
  }

  lemma NobodyThere(w: World)
    requires MembersInv(w)
    ensures w.nextSession !in w.held
  {
    hide MemberInv, HoldingInv;
  }

  lemma RestingInv(m: Member, h: Split)
    requires m.doing.None? && m.sent == 0 && Inv(m.s) && SameSplit(HeldBy(m.s), h)
    ensures MemberInv(m) && HoldingInv(m, h)
  {
    hide InvWith, HeldSplit, SameSplit;
  }

  lemma RestingMeans(w: World, id: nat)
    requires MembersInv(w) && Resting(w, id)
    ensures var m := w.members[id];
    id in w.held && Inv(m.s) && m.sent == 0 && SameSplit(HeldBy(m.s), w.held[id]) && id < w.nextSession
  {
    hide InvWith, HeldSplit, SameSplit;
  }

  lemma NothingGiven(m: Member)
    requires m.sent == 0
    ensures Given(m) == 0
  {
    hide Calls;
    NoTickets(Calls(m)[..0]);
  }

  lemma SessionLeavesKeepsInv(w: World, id: nat, c: Settings)
    requires ValidSettings(c) && WorldInv(w, c)
    ensures WorldInv(Next(w, SessionLeaves(id), c), c)
  {
    hide InvWith, HeldSplit, Balanced, GlobalLimit, ValidLimits, StreamCounts, SameSplit, BackendsInv,
      BackendsOf, NonNegative, MembersInv, Given;
    if Resting(w, id) && w.members[id].s.closed {
      var s := w.members[id].s;
      RestingMeans(w, id);
      HeldIsPending(s);
      ClosedPending(s);
      SameTotals(HeldBy(s), w.held[id]);
      BalancedWithout(GlobalLimit(c.limits, PendingUplink), w.ledger, w.held, id);
      NothingGiven(w.members[id]);
      MemberGone(w, Next(w, SessionLeaves(id), c), id);
    }
  }

  lemma MemberGone(w: World, v: World, id: nat)
    requires MembersInv(w) && BackendsInv(w) && id in w.members && Given(w.members[id]) == 0
    requires v.members == w.members - {id} && v.held == w.held - {id}
    requires v.backends == w.backends && v.finished == w.finished && v.nextSession == w.nextSession
    ensures MembersInv(v) && BackendsInv(v)
  {
    hide MemberInv, HoldingInv, Given;
    var m := w.members[id];
    assert BackendsOf(id, m.profile, m.s.nextBackend, 0, w.backends, w.finished);
  }

  // ---------------------------------------------------------------- sections begin and end

  lemma InvSound(s: State)
    requires Inv(s)
    ensures s.panic.None?
  {
    hide InvWith;
    InvPanic(s, 0, 0);
  }

  lemma SectionBeginsKeepsInv(w: World, id: nat, op: SessionRuns.Op, c: Settings)
    requires ValidSettings(c) && WorldInv(w, c)
    ensures WorldInv(Next(w, SectionBegins(id, op), c), c)
  {
    hide InvWith, HeldSplit, LedgerBalanced, SessionRuns.Step, ValidLimits, StreamCounts, Onward, SameSplit, Given,
      MembersInv, BackendsInv, BackendsOf, MemberInv, HoldingInv;
    if Resting(w, id) {
      var m := w.members[id];
      var n := m.(doing := Some(op), sent := 0);
      var v := Next(w, SectionBegins(id, op), c);
      RestingMeans(w, id);
      StartedSection(m, op, w.held[id]);
      MemberSet(w, v, id, n, w.held[id]);
      NothingGiven(m);
      NothingGiven(n);
      BackendsAt(w, id);
      BackendsSet(w, v, id, n);
    }
  }

  lemma StartedSection(m: Member, op: SessionRuns.Op, h: Split)
    requires Inv(m.s) && m.doing.None? && SameSplit(HeldBy(m.s), h)
    ensures var n := m.(doing := Some(op), sent := 0); MemberInv(n) && HoldingInv(n, h)
  {
    hide InvWith, HeldSplit, SessionRuns.Step, Onward, SameSplit, TicketsIn, Range;
    var n := m.(doing := Some(op), sent := 0);
    InvSound(m.s);
    SectionGoesOnward(m.s, op, h);
    assert Calls(n)[0..] == Calls(n);
  }

  lemma BackendsAt(w: World, id: nat)
    requires BackendsInv(w) && id in w.members
    ensures BackendsOf(id, w.members[id].profile, w.members[id].s.nextBackend, Given(w.members[id]), w.backends,
        w.finished)
  {
    hide BackendsOf, Given;
  }

  /** After a section, the backends it has begun are those that had a ticket. */
  lemma StartedBackends(id: nat, profile: string, a: nat, g: nat, backends: map<(nat, nat), Backend>,
      finished: set<(nat, nat)>)
    requires BackendsOf(id, profile, a, g, backends, finished)
    ensures BackendsOf(id, profile, a + g, 0, Started(backends, id), finished)
  {
  }

  lemma OthersStarted(id: nat, other: nat, profile: string, a: nat, g: nat, backends: map<(nat, nat), Backend>,
      finished: set<(nat, nat)>)
    requires BackendsOf(other, profile, a, g, backends, finished) && other != id
    ensures BackendsOf(other, profile, a, g, Started(backends, id), finished)
  {
  }

  lemma StartedTickets(backends: map<(nat, nat), Backend>, id: nat)
    ensures Tickets(Started(backends, id)) == Tickets(backends)
  {
  }

  lemma SectionEndsKeepsInv(w: World, id: nat, c: Settings)
    requires ValidSettings(c) && WorldInv(w, c)
    ensures WorldInv(Next(w, SectionEnds(id), c), c)
  {
    hide InvWith, HeldSplit, LedgerBalanced, SessionRuns.Step, ValidLimits, StreamCounts, Given, Tickets, Started,
      MembersInv, BackendsInv, BackendsOf, MemberInv, HoldingInv, Calls;
    if id in w.members && w.members[id].doing.Some? && w.members[id].sent == |Calls(w.members[id])|
       && After(w.members[id]).panic.None? {
      var m := w.members[id];
      var n := Member(m.profile, After(m), None, 0);
      var v := Next(w, SectionEnds(id), c);
      MembersMean(w, id);
      EndedSection(m, w.held[id]);
      assert v.held == w.held[id := w.held[id]];
      MemberSet(w, v, id, n, w.held[id]);
      StartedTickets(w.backends, id);
      NothingGiven(n);
      BackendsStarted(w, v, id, n);
    }
  }

  lemma EndedSection(m: Member, h: Split)
    requires MemberInv(m) && HoldingInv(m, h) && m.doing.Some? && m.sent == |Calls(m)| && After(m).panic.None?
    ensures var n := Member(m.profile, After(m), None, 0); MemberInv(n) && HoldingInv(n, h)
    ensures After(m).nextBackend == m.s.nextBackend + Given(m)
  {
    hide InvWith, HeldSplit, SessionRuns.Step, Onward, SameSplit, TicketsIn, Range, SessionRuns.Unretained;
    InvSound(m.s);
    SessionRuns.StepKeepsInv(m.s, m.doing.value);
    OnwardEnds(h, Calls(m)[m.sent..], After(m));
    AllGiven(Calls(m), m.sent, m.s.nextBackend, After(m).nextBackend);
  }

  lemma BackendsStarted(w: World, v: World, id: nat, n: Member)
    requires BackendsInv(w) && id in w.members && v.members == w.members[id := n] && Given(n) == 0
    requires n.profile == w.members[id].profile && n.s.nextBackend == w.members[id].s.nextBackend + Given(w.members[id])
    requires v.backends == Started(w.backends, id) && v.finished == w.finished && v.nextSession == w.nextSession
    ensures BackendsInv(v)
  {
    hide BackendsOf, Given;
    var m := w.members[id];
    StartedBackends(id, m.profile, m.s.nextBackend, Given(m), w.backends, w.finished);
    forall other | other in v.members
      ensures var o := v.members[other]; BackendsOf(other, o.profile, o.s.nextBackend, Given(o), v.backends, v.finished)
    {
      if other != id {
        var o := w.members[other];
        OthersStarted(id, other, o.profile, o.s.nextBackend, Given(o), w.backends, w.finished);
      }
    }
  }

  // ------------------------------------------------------------------------ calls, one by one

  lemma SentInv(m: Member, h: Split, g: Split)
    requires MemberInv(m) && HoldingInv(m, h) && m.sent < |Calls(m)| && g == NextHeld(h, Calls(m)[m.sent..], After(m))
    ensures SoundStep(h, Calls(m)[m.sent], g)
    ensures var n := m.(sent := m.sent + 1); MemberInv(n) && HoldingInv(n, g)
  {
    hide InvWith, SessionRuns.Step, SoundStep, Onward, NextHeld, TicketsIn, Range, HeldSplit, SameSplit;
    var calls := Calls(m)[m.sent..];
    NextHeldIsSound(h, calls, After(m));
    assert calls[1..] == Calls(m)[m.sent + 1..] && calls[0] == Calls(m)[m.sent];
    assert Calls(m.(sent := m.sent + 1)) == Calls(m);
  }

  /** A call that is not a granted ticket gives no ticket. */
  lemma GivenSame(m: Member)
    requires MemberInv(m) && m.sent < |Calls(m)| && TicketOf(Calls(m)[m.sent]) == []
    ensures Given(m.(sent := m.sent + 1)) == Given(m)
  {
    hide InvWith, SessionRuns.Step, TicketsIn, Range;
    TicketsAfter(Calls(m), m.sent);
    assert Calls(m.(sent := m.sent + 1)) == Calls(m);
  }

  lemma GivenNext(m: Member)
    requires MemberInv(m) && m.sent < |Calls(m)| && Calls(m)[m.sent].TicketCall? && Calls(m)[m.sent].granted
    ensures Given(m.(sent := m.sent + 1)) == Given(m) + 1 && Calls(m)[m.sent].backend == m.s.nextBackend + Given(m)
  {
    hide InvWith, SessionRuns.Step, TicketsIn;
    NextTicket(Calls(m), m.sent, m.s.nextBackend, After(m).nextBackend);
    assert Calls(m.(sent := m.sent + 1)) == Calls(m);
  }

  lemma MembersMean(w: World, id: nat)
    requires MembersInv(w) && id in w.members
    ensures id in w.held && MemberInv(w.members[id]) && HoldingInv(w.members[id], w.held[id]) && id < w.nextSession
  {
    hide InvWith, SessionRuns.Step, SameSplit, Onward, TicketsIn, Range;
  }

  lemma DoingSome(m: Member)
    requires m.sent < |Calls(m)|
    ensures m.doing.Some?
  {
  }

  /** A call is answered: what is held moves on soundly. */
  lemma SentMembers(w: World, v: World, id: nat, m: Member, g: Split)
    requires id in w.members && w.members[id] == m && m.doing.Some? && m.sent < |Calls(m)| && id in w.held
    requires g == NextHeld(w.held[id], Calls(m)[m.sent..], After(m))
    requires v.members == w.members[id := m.(sent := m.sent + 1)] && v.nextSession == w.nextSession
        && v.held == w.held[id := g]
    requires MembersInv(w)
    ensures SoundStep(w.held[id], Calls(m)[m.sent], g) && MembersInv(v)
  {
    hide MembersInv, MemberInv, HoldingInv, SoundStep, NextHeld, Calls, After;
    MembersMean(w, id);
    SentInv(m, w.held[id], g);
    MemberSet(w, v, id, m.(sent := m.sent + 1), g);
  }

  lemma SentBackends(w: World, v: World, id: nat)
    requires BackendsInv(w) && id in w.members && MemberInv(w.members[id])
        && w.members[id].sent < |Calls(w.members[id])|
    requires TicketOf(Calls(w.members[id])[w.members[id].sent]) == []
    requires v.members == w.members[id := w.members[id].(sent := w.members[id].sent + 1)]
    requires v.backends == w.backends && v.finished == w.finished && v.nextSession == w.nextSession
    ensures BackendsInv(v)
  {
    hide BackendsInv, MemberInv, Calls, BackendsOf, TicketOf, Given;
    GivenSame(w.members[id]);
    BackendsAt(w, id);
    BackendsSet(w, v, id, w.members[id].(sent := w.members[id].sent + 1));
  }

  lemma BudgetAnsweredKeepsInv(w: World, id: nat, now: real, c: Settings)
    requires ValidSettings(c) && WorldInv(w, c) && id in w.members && w.members[id].sent < |Calls(w.members[id])|
    requires Calls(w.members[id])[w.members[id].sent].BudgetCall?
    ensures WorldInv(Answered(w, id, now, c), c)
  {
    hide MemberInv, HoldingInv, Calls, BackendsOf, LedgerBalanced, SoundStep, NextHeld, StreamCounts, ChangeLedger,
      SessionRuns.Step, MembersInv, BackendsInv, ValidLimits, Tickets;
    var m := w.members[id];
    var call := Calls(m)[m.sent];
    DoingSome(m);
    var v := Answered(w, id, now, c);
    if v != w {
      MembersMean(w, id);
      SentMembers(w, v, id, m, v.held[id]);
      CallKeepsBalance(c.limits, w.ledger, w.held, id, call, v.held[id]);
      SentBackends(w, v, id);
    }
  }

  lemma MembersSame(w: World, v: World)
    requires MembersInv(w) && v.members == w.members && v.held == w.held && v.nextSession == w.nextSession
    ensures MembersInv(v)
  {
    hide MemberInv, HoldingInv;
  }

  lemma BackendsSame(w: World, v: World)
    requires BackendsInv(w) && v.members == w.members && v.backends == w.backends && v.finished == w.finished
        && v.nextSession == w.nextSession
    ensures BackendsInv(v)
  {
    hide BackendsOf, Given;
  }

  /** A ticket is granted for the next backend. */
  lemma GrantedOf(id: nat, other: nat, profile: string, a: nat, g: nat, backends: map<(nat, nat), Backend>,
      finished: set<(nat, nat)>, b: nat, name: string)
    requires BackendsOf(other, profile, a, g, backends, finished) && (id == other ==> b == a + g && name == profile)
    ensures BackendsOf(other, profile, a, if id == other then g + 1 else g, backends[(id, b) := Backend(name, Granted)],
        finished)
    ensures id == other ==> (id, b) !in backends
  {
  }

  lemma GrantedBackends(w: World, v: World, id: nat, b: nat)
    requires BackendsInv(w) && id in w.members && id < w.nextSession
        && b == w.members[id].s.nextBackend + Given(w.members[id])
    requires v.members == w.members[id := w.members[id].(sent := w.members[id].sent + 1)]
    requires Given(v.members[id]) == Given(w.members[id]) + 1
    requires v.backends == w.backends[(id, b) := Backend(w.members[id].profile, Granted)]
    requires v.finished == w.finished && v.nextSession == w.nextSession
    ensures BackendsInv(v) && (id, b) !in w.backends
  {
    hide BackendsOf, Given;
    forall other | other in v.members
      ensures var o := v.members[other]; BackendsOf(other, o.profile, o.s.nextBackend, Given(o), v.backends, v.finished)
    {
      var o := w.members[other];
      GrantedOf(id, other, o.profile, o.s.nextBackend, Given(o), w.backends, w.finished, b, w.members[id].profile);
    }
    var m := w.members[id];
    GrantedOf(id, id, m.profile, m.s.nextBackend, Given(m), w.backends, w.finished, b, m.profile);
  }

  lemma GrantedCounts(w: World, c: Settings, p: (nat, nat), profile: string)
    requires CountsInv(w, c) && p !in w.backends
    requires RoomForStream(c, w.live, w.dials, w.streamsPerProfile, w.dialsPerProfile, profile)
    ensures StreamCounts(c, w.live + 1, w.dials + 1, Tickets(w.backends[p := Backend(profile, Granted)]),
                         Incremented(w.streamsPerProfile, profile), Incremented(w.dialsPerProfile, profile))
  {
    hide StreamCounts, RoomForStream, Incremented;
    TicketTaken(c, w.live, w.dials, Tickets(w.backends), w.streamsPerProfile, w.dialsPerProfile, p, profile);
    assert Tickets(w.backends[p := Backend(profile, Granted)]) == Tickets(w.backends)[p := Ticket(profile, true)];
  }

  lemma TicketAnsweredKeepsInv(w: World, id: nat, now: real, c: Settings)
    requires ValidSettings(c) && WorldInv(w, c) && id in w.members && w.members[id].sent < |Calls(w.members[id])|
    requires Calls(w.members[id])[w.members[id].sent].TicketCall?
    ensures WorldInv(Answered(w, id, now, c), c)
  {
    hide MemberInv, HoldingInv, Calls, BackendsOf, LedgerBalanced, SoundStep, NextHeld, StreamCounts, SessionRuns.Step,
      MembersInv, BackendsInv, RateLimit.Allow, RateLimit.LimitsOf, RoomForStream, Incremented, Tickets, ValidLimits,
          Given;
    var m := w.members[id];
    var call := Calls(m)[m.sent];
    DoingSome(m);
    var v := Answered(w, id, now, c);
    if v != w {
      MembersMean(w, id);
      SentMembers(w, v, id, m, v.held[id]);
      OtherCallKeepsShares(w.held, id, call, v.held[id]);
      if call.granted {
        GivenNext(m);
        GrantedBackends(w, v, id, call.backend);
        GrantedCounts(w, c, (id, call.backend), m.profile);
      } else {
        SentBackends(w, v, id);
      }
    }
  }

  // ----------------------------------------------------------------------- backends report

  lemma ReportedOf(id: nat, profile: string, a: nat, g: nat, backends: map<(nat, nat), Backend>,
      finished: set<(nat, nat)>, p: (nat, nat))
    requires BackendsOf(id, profile, a, g, backends, finished) && p in backends && backends[p].phase == Dialing
    ensures BackendsOf(id, profile, a, g, backends[p := backends[p].(phase := Running)], finished)
  {
  }

  lemma EndedOf(id: nat, profile: string, a: nat, g: nat, backends: map<(nat, nat), Backend>, finished: set<(nat, nat)>,
      p: (nat, nat))
    requires BackendsOf(id, profile, a, g, backends, finished) && p in backends && backends[p].phase == Running
    ensures BackendsOf(id, profile, a, g, backends - {p}, finished + {p})
  {
  }

  lemma ReportedBackends(w: World, v: World, p: (nat, nat))
    requires BackendsInv(w) && p in w.backends && v.members == w.members && v.nextSession == w.nextSession
    requires || (w.backends[p].phase == Dialing && v.backends == w.backends[p := w.backends[p].(phase := Running)]
                 && v.finished == w.finished)
             || (w.backends[p].phase == Running && v.backends == w.backends - {p} && v.finished == w.finished + {p})
    ensures BackendsInv(v)
  {
    hide BackendsOf, Given;
    forall id | id in v.members
      ensures var o := v.members[id]; BackendsOf(id, o.profile, o.s.nextBackend, Given(o), v.backends, v.finished)
    {
      var o := w.members[id];
      if w.backends[p].phase == Dialing {
        ReportedOf(id, o.profile, o.s.nextBackend, Given(o), w.backends, w.finished, p);
      } else {
        EndedOf(id, o.profile, o.s.nextBackend, Given(o), w.backends, w.finished, p);
      }
    }
  }

  lemma DialReportsKeepsInv(w: World, id: nat, b: nat, c: Settings)
    requires ValidSettings(c) && WorldInv(w, c)
    ensures WorldInv(Next(w, DialReports(id, b), c), c)
  {
    hide MembersInv, BackendsInv, LedgerBalanced, StreamCounts, ValidLimits, Decremented, Lookup, Tickets;
    var p := (id, b);
    if p in w.backends && w.backends[p].phase == Dialing {
      var v := Next(w, DialReports(id, b), c);
      DialingTicket(w.backends, p);
      DialEnded(c, w.live, w.dials, Tickets(w.backends), w.streamsPerProfile, w.dialsPerProfile, p);
      MembersSame(w, v);
      ReportedBackends(w, v, p);
    }
  }

  lemma DialingTicket(backends: map<(nat, nat), Backend>, p: (nat, nat))
    requires p in backends && backends[p].phase == Dialing
    ensures var tickets := Tickets(backends);
      && p in tickets && tickets[p] == Ticket(backends[p].profile, true)
      && Tickets(backends[p := Backend(backends[p].profile, Running)]) == tickets[p := tickets[p].(dialing := false)]
  {
  }

  lemma BackendEndsKeepsInv(w: World, id: nat, b: nat, c: Settings)
    requires ValidSettings(c) && WorldInv(w, c)
    ensures WorldInv(Next(w, BackendEnds(id, b), c), c)
  {
    hide MembersInv, BackendsInv, LedgerBalanced, StreamCounts, ValidLimits, Decremented, Lookup, Tickets;
    var p := (id, b);
    if p in w.backends && w.backends[p].phase == Running {
      var v := Next(w, BackendEnds(id, b), c);
      RunningTicket(w.backends, p);
      StreamEnded(c, w.live, w.dials, Tickets(w.backends), w.streamsPerProfile, w.dialsPerProfile, p);
      MembersSame(w, v);
      ReportedBackends(w, v, p);
    }
  }

  lemma RunningTicket(backends: map<(nat, nat), Backend>, p: (nat, nat))
    requires p in backends && backends[p].phase == Running
    ensures var tickets := Tickets(backends);
      && p in tickets && tickets[p] == Ticket(backends[p].profile, false) && Tickets(backends - {p}) == tickets - {p}
  {
  }

  // --------------------------------------------------------------------- over whole runs

  lemma EventKeepsInv(w: World, e: Event, c: Settings)
    requires ValidSettings(c) && WorldInv(w, c)
    ensures WorldInv(Next(w, e, c), c)
  {
    hide WorldInv, Answered, Calls, ValidLimits;
    match e {
      case SessionBegins(profile, carrier, limits) => hide Next; SessionBeginsKeepsInv(w, profile, carrier, limits, c);
      case SectionBegins(id, op) => hide Next; SectionBeginsKeepsInv(w, id, op, c);
      case CallAnswered(id, now) =>
        if id in w.members && w.members[id].sent < |Calls(w.members[id])| {
          if Calls(w.members[id])[w.members[id].sent].BudgetCall? {
            BudgetAnsweredKeepsInv(w, id, now, c);
          } else {
            TicketAnsweredKeepsInv(w, id, now, c);
          }
        }
      case SectionEnds(id) => hide Next; SectionEndsKeepsInv(w, id, c);
      case DialReports(id, b) => hide Next; DialReportsKeepsInv(w, id, b, c);
      case BackendEnds(id, b) => hide Next; BackendEndsKeepsInv(w, id, b, c);
      case SessionLeaves(id) => hide Next; SessionLeavesKeepsInv(w, id, c);
      case RelayCloses => hide Next; ClosesKeepsInv(w, c);
    }
  }

  lemma ClosesKeepsInv(w: World, c: Settings)
    requires ValidSettings(c) && WorldInv(w, c)
    ensures WorldInv(Next(w, RelayCloses, c), c)
  {
    hide MembersInv, BackendsInv, LedgerBalanced, StreamCounts, Tickets, ValidLimits;
    var v := w.(closed := true);
    MembersSame(w, v);
    BackendsSame(w, v);
  }

  lemma {:induction false} ReachableInv(events: seq<Event>, c: Settings)
    requires ValidSettings(c)
    ensures WorldInv(RunWorld(events, c), c)
  {
    hide WorldInv, Next, ValidLimits;
    WorldUnfolds(events, c);
    if events == [] {
      NobodyYet(RunWorld(events, c), c);
    } else {
      ReachableInv(events[..|events| - 1], c);
      EventKeepsInv(RunWorld(events[..|events| - 1], c), events[|events| - 1], c);
    }
  }

  lemma NobodyYet(w: World, c: Settings)
    requires ValidSettings(c) && w == EMPTY_WORLD
    ensures WorldInv(w, c)
  {
    hide InvWith, LedgerBalanced, Counts, ValidLimits;
    EmptyLedgerBalanced(c.limits);
    NothingCounted(Tickets(w.backends), TicketProfile);
    NothingCounted(Managers.Dialing(Tickets(w.backends)), TicketProfile);
    assert w.held == map[];
  }


  // ------------------------------------------------------------------------- theorems

  /** No run of any number of sessions and backends, however their sections, calls and reports interleave,
      reaches a panic of the manager: not that of the budget, nor those of dials and streams. */
  lemma ManagerNeverPanics(events: seq<Event>, c: Settings)
    requires ValidSettings(c)
    ensures !RunWorld(events, c).panicked
  {
    hide RunWorld, MembersInv, BackendsInv, LedgerBalanced, CountsInv, ValidLimits;
    ReachableInv(events, c);
  }

  /** What is held in all: its cost under one kind, its items under another. */
  function Whole(h: Split, k: Kind): int {
    if k == UpCost then h.Cost() else if k == UpItems then h.Items() else 0
  }

  lemma {:induction false} WholeSums(held: map<nat, Split>)
    ensures Sum(held, Whole, UpCost)
      == Sum(held, Part, UpCost) + Sum(held, Part, DownCost) + Sum(held, Part, ControlCost)
    ensures Sum(held, Whole, UpItems)
      == Sum(held, Part, UpItems) + Sum(held, Part, DownItems) + Sum(held, Part, ControlItems)
    decreases |held|
  {
    hide Sum;
    if id :| id in held {
      forall k
        ensures Sum(held, Part, k) == Part(held[id], k) + Sum(held - {id}, Part, k)
        ensures Sum(held, Whole, k) == Whole(held[id], k) + Sum(held - {id}, Whole, k)
      {
        SumTakeOut(held, Part, k, id);
        SumTakeOut(held, Whole, k, id);
      }
      WholeSums(held - {id});
    } else {
      assert held == map[];
      forall k
        ensures Sum(held, Part, k) == 0 && Sum(held, Whole, k) == 0
      {
        SumOfNothing(held, Part, k);
        SumOfNothing(held, Whole, k);
      }
    }
  }

  /** At every call, the relay-wide ledger is the sum of what the sessions hold at that moment. A session
      between its sections holds what it has pending; a closed one nothing. */
  lemma LedgerIsSumOfSessions(events: seq<Event>, c: Settings)
    requires ValidSettings(c)
    ensures var w := RunWorld(events, c);
      && w.held.Keys == w.members.Keys
      && w.ledger.cost == Sum(w.held, Whole, UpCost) && w.ledger.items == Sum(w.held, Whole, UpItems)
      && (forall id :: id in w.held ==> NonNegative(w.held[id]))
      && (forall id :: Resting(w, id) ==>
            && w.held[id].Cost() == w.members[id].s.pendingCost && w.held[id].Items() == w.members[id].s.pendingItems
            && (w.members[id].s.closed ==> w.members[id].s.pendingCost == 0 && w.members[id].s.pendingItems == 0))
  {
    hide RunWorld, BackendsInv, CountsInv, ValidLimits, InvWith, HeldSplit, SameSplit, Sum, NonNegative, MemberInv,
        HoldingInv;
    ReachableInv(events, c);
    var w := RunWorld(events, c);
    WholeSums(w.held);
    forall id | Resting(w, id)
      ensures w.held[id].Cost() == w.members[id].s.pendingCost && w.held[id].Items() == w.members[id].s.pendingItems
      ensures w.members[id].s.closed ==> w.members[id].s.pendingCost == 0 && w.members[id].s.pendingItems == 0
    {
      var s := w.members[id].s;
      RestingMeans(w, id);
      HeldIsPending(s);
      SameTotals(HeldBy(s), w.held[id]);
      if s.closed { ClosedPending(s); }
    }
  }

  /** The next call of a section, at whatever point of the run it comes, is a charge of one class or gives
      back part of what its session holds; whatever the ledger's answer, it does not panic. */
  lemma NextCallIsSound(events: seq<Event>, c: Settings, id: nat)
    requires ValidSettings(c) && id in RunWorld(events, c).members
    requires var m := RunWorld(events, c).members[id]; m.sent < |Calls(m)|
    ensures var w := RunWorld(events, c);
      var m := w.members[id];
      var call := Calls(m)[m.sent];
      && id in w.held && (exists g: Split :: SoundStep(w.held[id], call, g))
      && (call.BudgetCall? ==> !ChangeLedger(c.limits, w.ledger, call.cost, call.items, call.pool).panicked)
  {
    hide RunWorld, BackendsInv, CountsInv, ValidLimits, MembersInv, MemberInv, HoldingInv, Calls, SoundStep, NextHeld;
    ReachableInv(events, c);
    var w := RunWorld(events, c);
    var m := w.members[id];
    DoingSome(m);
    MembersMean(w, id);
    var g := NextHeld(w.held[id], Calls(m)[m.sent..], After(m));
    SentInv(m, w.held[id], g);
    if Calls(m)[m.sent].BudgetCall? {
      AnyAnswer(c.limits, w.ledger, w.held, id, Calls(m)[m.sent], g);
    }
  }

  lemma AnyAnswer(l: Limits, ledger: Amount, shares: map<nat, Split>, id: nat, call: ManagerCall, g: Split)
    requires ValidLimits(l) && l.maxSessionsGlobal > 0 && LedgerBalanced(l, ledger, shares) && id in shares
        && call.BudgetCall?
    requires SoundStep(shares[id], call, g)
    ensures !ChangeLedger(l, ledger, call.cost, call.items, call.pool).panicked
  {
    hide SoundStep, ValidLimits, LedgerBalanced;
    if ChangeLedger(l, ledger, call.cost, call.items, call.pool).allowed == call.allowed {
      CallKeepsBalance(l, ledger, shares, id, call, g);
    } else {
      OnlyChargesRefused(shares[id], call, g, ChangeLedger(l, ledger, call.cost, call.items, call.pool).allowed, l,
          ledger);
      LedgerNonNegative(l, ledger, shares);
    }
  }

  lemma OnlyChargesRefused(h: Split, call: ManagerCall, g: Split, answer: bool, l: Limits, ledger: Amount)
    requires l.maxSessionsGlobal > 0 && call.BudgetCall? && SoundStep(h, call, g)
    requires answer == ChangeLedger(l, ledger, call.cost, call.items, call.pool).allowed && answer != call.allowed
    ensures answer ==> call.cost > 0 && call.items >= 0
  {
    hide GlobalAdmits;
  }

  lemma LedgerNonNegative(l: Limits, ledger: Amount, shares: map<nat, Split>)
    requires l.maxSessionsGlobal > 0 && LedgerBalanced(l, ledger, shares)
    ensures ledger.cost >= 0 && ledger.items >= 0
  {
    hide GlobalLimit;
    forall k
      ensures Sum(shares, Part, k) >= 0
    {
      forall i | i in shares
        ensures Part(shares[i], k) >= 0
      {
        assert NonNegative(shares[i]);
      }
      SumCovers(shares, Part, k);
    }
    hide Sum, Part, NonNegative;
  }

  /** Outstanding tickets are exactly the backends that have not ended: the manager counts those that have
      a ticket, relay-wide and per profile, and every backend a session has begun is one of them or has
      ended, and not both. */
  lemma TicketsAreBackends(events: seq<Event>, c: Settings)
    requires ValidSettings(c)
    ensures var w := RunWorld(events, c);
      && w.live == |w.backends| && w.dials == |Managers.Dialing(Tickets(w.backends))| && w.dials <= w.live
      && (forall name :: Lookup(w.streamsPerProfile, name) == Tally(Tickets(w.backends), TicketProfile, name))
      && (forall name ::
            Lookup(w.dialsPerProfile, name) == Tally(Managers.Dialing(Tickets(w.backends)), TicketProfile, name))
      && (forall id, b :: id in w.members && 0 <= b < w.members[id].s.nextBackend ==>
            ((id, b) in w.backends <==> (id, b) !in w.finished))
      && (forall id, b :: Resting(w, id) && (id, b) in w.backends ==>
            b < w.members[id].s.nextBackend && w.backends[(id, b)].phase != Granted)
  {
    hide RunWorld, LedgerBalanced, ValidLimits, Tally, Given, MemberInv, HoldingInv;
    ReachableInv(events, c);
    var w := RunWorld(events, c);
    var tickets := Tickets(w.backends);
    DialsWithinStreams(c, w.live, w.dials, tickets, w.streamsPerProfile, w.dialsPerProfile);
    assert tickets.Keys == w.backends.Keys;
    assert |tickets| == |tickets.Keys| && |w.backends| == |w.backends.Keys|;
    forall id, b | Resting(w, id) && (id, b) in w.backends
      ensures b < w.members[id].s.nextBackend && w.backends[(id, b)].phase != Granted
    {
      NothingGivenAtRest(w, id);
      BackendsAt(w, id);
      assert (id, b).0 == id && (id, b).1 == b;
    }
    hide Tickets;
  }

  lemma NothingGivenAtRest(w: World, id: nat)
    requires MembersInv(w) && Resting(w, id)
    ensures Given(w.members[id]) == 0
  {
    hide MembersInv;
    RestingMeans(w, id);
    NothingGiven(w.members[id]);
  }

  // ------------------------------------------------------------------ room for control frames

  lemma {:induction false} SumAtMost<T>(m: map<nat, T>, f: (T, Kind) -> int, k: Kind, bound: int)
    requires forall i :: i in m ==> f(m[i], k) <= bound
    ensures Sum(m, f, k) <= Times(bound, |m|)
    decreases |m|
  {
    hide Times, Sum;
    if i :| i in m {
      var n := m - {i};
      SumTakeOut(m, f, k, i);
      assert m.Keys == n.Keys + {i};
      SumAtMost(n, f, k, bound);
      OneMore(bound, |n|);
    } else {
      SumOfNothing(m, f, k);
      OneMore(bound, 0);
    }
  }

  lemma SumBounded<T>(m: map<nat, T>, f: (T, Kind) -> int, k: Kind, bound: int, id: nat, extra: int)
    requires id in m && f(m[id], k) + extra <= bound
    requires forall i :: i in m && i != id ==> f(m[i], k) <= bound
    ensures Sum(m, f, k) + extra <= Times(bound, |m|)
  {
    hide Times, Sum;
    var n := m - {id};
    SumTakeOut(m, f, k, id);
    assert |m| == |n| + 1 by { assert m.Keys == n.Keys + {id}; }
    assert forall i :: i in n ==> f(n[i], k) <= bound;
    SumAtMost(n, f, k, bound);
    OneMore(bound, |n|);
  }

  function Times(a: int, n: nat): int { a * n }

  lemma OneMore(a: int, n: nat)
    ensures Times(a, n + 1) == Times(a, n) + a && Times(a, 0) == 0
  {
  }

  lemma TimesMonotone(a: int, n: nat, m: nat)
    requires a >= 0 && n <= m
    ensures Times(a, n) <= Times(a, m)
  {
  }

  /** Control frames find room at the relay: whenever a section asks for one, the manager grants it,
      however much uplink and downlink data the sessions hold, as long as no session's control frames
      exceed its control reserve, with the new one counted where it is queued. */
  lemma ControlFrameIsGranted(events: seq<Event>, c: Settings, id: nat, cost: nat, items: nat)
    requires ValidSettings(c) && BudgetValidated(c.limits) && id in RunWorld(events, c).held
    requires |RunWorld(events, c).held| <= c.limits.maxSessionsGlobal && cost > 0
    requires forall i :: i in RunWorld(events, c).held ==>
      var held := RunWorld(events, c).held[i];
      && held.control.cost + (if i == id then cost else 0) <= ControlReserve(c.limits).cost
      && held.control.items + (if i == id then items else 0) <= ControlReserve(c.limits).items
    ensures ChangeLedger(c.limits, RunWorld(events, c).ledger, cost, items, PendingControl).allowed
  {
    hide RunWorld, ControlReserve, GlobalAdmits, GlobalLimit, BudgetValidated, MembersInv, BackendsInv, CountsInv;
    ReachableInv(events, c);
    var w := RunWorld(events, c);
    ReservesNonNegative(c.limits);
    var reserve := ControlReserve(c.limits);
    forall i | i in w.held
      ensures Part(w.held[i], ControlCost) + (if i == id then cost else 0) <= reserve.cost
      ensures Part(w.held[i], ControlItems) + (if i == id then items else 0) <= reserve.items
    {
    }
    SumBounded(w.held, Part, ControlCost, reserve.cost, id, cost);
    SumBounded(w.held, Part, ControlItems, reserve.items, id, items);
    TimesMonotone(reserve.cost, |w.held|, c.limits.maxSessionsGlobal);
    TimesMonotone(reserve.items, |w.held|, c.limits.maxSessionsGlobal);
    hide Sum, Part;
    if !GlobalAdmits(c.limits, w.ledger, cost, items, PendingControl) {
      GlobalControlHeadroom(c.limits, w.ledger, w.held, cost, items);
    }
  }

  lemma ReservesNonNegative(l: Limits)
    requires ValidLimits(l)
    ensures ControlReserve(l).cost >= 0 && ControlReserve(l).items >= 0
  {
  }
}
