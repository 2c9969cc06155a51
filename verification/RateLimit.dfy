/** The coupled token buckets of `internal/session/manager.go`: `takeRate` and
    `allowProfileRateLocked`. One request must be admitted by the relay-wide bucket and by the
    bucket of its profile; refusal by either leaves both as they were, unrefilled.

    Token counts are reals (the program's floating point is not modelled), time is in seconds. */
module RateLimit {
  import opened Options

  /** `rateState`; `last` is `None` while the program's time stamp is still zero. */
  datatype RateState = RateState(tokens: real, last: Option<real>)

  const FRESH := RateState(0.0, None)

  /** The configured limits: the relay-wide bucket's and each profile's. */
  datatype Config = Config(perMinute: nat, burst: nat, profilePerMinute: string -> nat, profileBurst: string -> nat)

  /** The same limits with each rate as the tokens it earns in a number of seconds. */
  datatype RateLimits = RateLimits(earn: real -> real, burst: nat,
                                   profileEarn: string -> (real -> real), profileBurst: string -> nat)

  datatype Request = Request(profile: string, now: real)

  datatype Buckets = Buckets(global: RateState, profiles: map<string, RateState>)

  function PerMinute(n: nat): real -> real {
    (elapsed: real) => elapsed * (n as real / 60.0)
  }

  function LimitsOf(c: Config): RateLimits {
    RateLimits(PerMinute(c.perMinute), c.burst, (name: string) => PerMinute(c.profilePerMinute(name)), c.profileBurst)
  }

  function Refilled(state: RateState, now: real, earn: real -> real, burst: nat): RateState {
    match state.last
    case None => RateState(burst as real, Some(now))
    case Some(last) =>
      var tokens := state.tokens + earn(now - last);
      RateState(if tokens > burst as real then burst as real else tokens, Some(now))
  }

  /** What `takeRate` returns: the refilled state, with one token taken if there was one. */
  function TakeRate(state: RateState, now: real, earn: real -> real, burst: nat): (RateState, bool) {
    var r := Refilled(state, now, earn, burst);
    if r.tokens < 1.0 then (r, false) else (r.(tokens := r.tokens - 1.0), true)
  }

  /** Go's lookup of a missing key yields the zero state. */
  function ProfileState(b: Buckets, profile: string): RateState {
    if profile in b.profiles then b.profiles[profile] else FRESH
  }

  /** What `allowProfileRateLocked` does to both buckets, and its answer. */
  function Allow(b: Buckets, q: Request, limits: RateLimits): (Buckets, bool) {
    var (g, globalOk) := TakeRate(b.global, q.now, limits.earn, limits.burst);
    var (p, profileOk) := TakeRate(ProfileState(b, q.profile), q.now,
                                   limits.profileEarn(q.profile), limits.profileBurst(q.profile));
    if globalOk && profileOk then (Buckets(g, b.profiles[q.profile := p]), true) else (b, false)
  }

  /** The answers to a run of requests, and the buckets after it. */
  function Run(b: Buckets, requests: seq<Request>, limits: RateLimits): (r: (Buckets, seq<bool>))
    ensures |r.1| == |requests|
    decreases |requests|
  {
    if requests == [] then (b, [])
    else
      var (b1, ok) := Allow(b, requests[0], limits);
      var (b2, oks) := Run(b1, requests[1..], limits);
      (b2, [ok] + oks)
  }

  // ------------------------------------------- one bucket, seen through a run

  /** The relay-wide bucket, or one profile's. */
  datatype Bucket = Global | Profile(name: string)

  function StateOf(b: Buckets, k: Bucket): RateState {
    match k case Global => b.global case Profile(name) => ProfileState(b, name)
  }

  function EarnOf(k: Bucket, limits: RateLimits): real -> real {
    match k case Global => limits.earn case Profile(name) => limits.profileEarn(name)
  }

  /** Tokens are earned in proportion to time. */
  ghost predicate Steady(earn: real -> real) {
    forall x: real, y: real :: EarnsInTwo(earn, x, y)
  }

  predicate EarnsInTwo(earn: real -> real, x: real, y: real) {
    x >= 0.0 && y >= 0.0 ==> earn(x) >= 0.0 && earn(y) >= 0.0 && earn(x + y) == earn(x) + earn(y)
  }

  ghost predicate AllSteady(limits: RateLimits) {
    forall k :: Steady(EarnOf(k, limits))
  }

  function BurstOf(k: Bucket, limits: RateLimits): nat {
    match k case Global => limits.burst case Profile(name) => limits.profileBurst(name)
  }

  predicate Draws(k: Bucket, q: Request) {
    k.Profile? ==> k.name == q.profile
  }

  /** Tokens the bucket would hold at time `t`. */
  function Level(b: Buckets, k: Bucket, t: real, limits: RateLimits): real {
    Refilled(StateOf(b, k), t, EarnOf(k, limits), BurstOf(k, limits)).tokens
  }

  /** The bucket was last touched no later than `t` and is within its capacity. */
  predicate SoundState(s: RateState, t: real, burst: nat) {
    s.last.Some? ==> s.last.value <= t && 0.0 <= s.tokens <= burst as real
  }

  predicate Sound(b: Buckets, k: Bucket, t: real, limits: RateLimits) {
    SoundState(StateOf(b, k), t, BurstOf(k, limits))
  }

  predicate NonDecreasing(requests: seq<Request>) {
    forall i, j :: 0 <= i <= j < |requests| ==> requests[i].now <= requests[j].now
  }

  /** How many of the requests that draw on `k` were admitted. */
  function Admitted(requests: seq<Request>, answers: seq<bool>, k: Bucket): nat
    requires |requests| == |answers|
  {
    if requests == [] then 0
    else (if answers[0] && Draws(k, requests[0]) then 1 else 0) + Admitted(requests[1..], answers[1..], k)
  }

  function Count(admitted: nat): real { admitted as real }

  /** Refilling in two goes is refilling in one. */
  lemma RefillCompose(s: RateState, t: real, u: real, earn: real -> real, burst: nat)
    requires t <= u && SoundState(s, t, burst) && Steady(earn)
    ensures Refilled(Refilled(s, t, earn, burst), u, earn, burst) == Refilled(s, u, earn, burst)
    ensures SoundState(Refilled(s, t, earn, burst), t, burst)
    ensures Refilled(s, u, earn, burst).tokens <= Refilled(s, t, earn, burst).tokens + earn(u - t)
  {
    assert EarnsInTwo(earn, u - t, 0.0);
    if s.last.Some? {
      var x, y := t - s.last.value, u - t;
      assert EarnsInTwo(earn, x, y);
      assert x + y == u - s.last.value;
    }
  }

  lemma LevelGrows(b: Buckets, k: Bucket, t: real, u: real, limits: RateLimits)
    requires t <= u && Sound(b, k, t, limits) && AllSteady(limits)
    ensures 0.0 <= Level(b, k, t, limits) <= BurstOf(k, limits) as real
    ensures Level(b, k, u, limits) <= Level(b, k, t, limits) + EarnOf(k, limits)(u - t)
    ensures Sound(b, k, u, limits)
  {
    assert Steady(EarnOf(k, limits));
    RefillCompose(StateOf(b, k), t, u, EarnOf(k, limits), BurstOf(k, limits));
  }

  lemma TakeDebits(s: RateState, now: real, earn: real -> real, burst: nat)
    requires SoundState(s, now, burst) && Steady(earn)
    ensures var (s1, ok) := TakeRate(s, now, earn, burst);
      && SoundState(s1, now, burst)
      && Refilled(s1, now, earn, burst).tokens == Refilled(s, now, earn, burst).tokens - (if ok then 1.0 else 0.0)
      && ok == (Refilled(s, now, earn, burst).tokens >= 1.0)
  {
    RefillCompose(s, now, now, earn, burst);
    assert EarnsInTwo(earn, 0.0, 0.0);
    assert now - now == 0.0;
  }

  lemma RefusalChangesNothing(b: Buckets, q: Request, limits: RateLimits)
    ensures !Allow(b, q, limits).1 ==> Allow(b, q, limits).0 == b
  {
  }

  /** An admission takes one token from each bucket it draws on; a refusal takes none from any. */
  lemma AllowDebits(b: Buckets, k: Bucket, q: Request, limits: RateLimits)
    requires AllSteady(limits) && Sound(b, Global, q.now, limits) && Sound(b, Profile(q.profile), q.now, limits)
        && Sound(b, k, q.now, limits)
    ensures var (b1, ok) := Allow(b, q, limits);
      && Sound(b1, k, q.now, limits)
      && Level(b1, k, q.now, limits) == Level(b, k, q.now, limits) - (if ok && Draws(k, q) then 1.0 else 0.0)
      && (!ok ==> b1 == b)
      && ok == (Level(b, Global, q.now, limits) >= 1.0 && Level(b, Profile(q.profile), q.now, limits) >= 1.0)
  {
    assert Steady(EarnOf(Global, limits)) && Steady(EarnOf(Profile(q.profile), limits));
    TakeDebits(b.global, q.now, limits.earn, limits.burst);
    TakeDebits(ProfileState(b, q.profile), q.now, limits.profileEarn(q.profile), limits.profileBurst(q.profile));
  }

  ghost predicate AllSound(b: Buckets, t: real, limits: RateLimits) {
    forall k :: Sound(b, k, t, limits)
  }

  lemma AllowKeepsSound(b: Buckets, q: Request, limits: RateLimits)
    requires AllSound(b, q.now, limits) && AllSteady(limits)
    ensures AllSound(Allow(b, q, limits).0, q.now, limits)
  {
    forall k
      ensures Sound(Allow(b, q, limits).0, k, q.now, limits)
    {
      AllowDebits(b, k, q, limits);
    }
  }

  lemma SoundLater(b: Buckets, t: real, u: real, limits: RateLimits)
    requires t <= u && AllSound(b, t, limits)
    ensures AllSound(b, u, limits)
  {
    forall k
      ensures Sound(b, k, u, limits)
    {
      assert Sound(b, k, t, limits);
    }
  }

  /** One request at the head of a run, as seen by one bucket. */
  lemma FirstRequest(b: Buckets, k: Bucket, requests: seq<Request>, from: real, limits: RateLimits)
    requires requests != [] && from <= requests[0].now && AllSound(b, from, limits) && AllSteady(limits)
    ensures var q := requests[0];
      var (b1, ok) := Allow(b, q, limits);
      var (b2, oks) := Run(b1, requests[1..], limits);
      && Run(b, requests, limits) == (b2, [ok] + oks)
      && AllSound(b1, q.now, limits)
      && Admitted(requests, [ok] + oks, k) == (if ok && Draws(k, q) then 1 else 0) + Admitted(requests[1..], oks, k)
      && Level(b1, k, q.now, limits) + (if ok && Draws(k, q) then 1.0 else 0.0)
         <= Level(b, k, from, limits) + EarnOf(k, limits)(q.now - from)
  {
    hide Level, EarnOf, Steady, BurstOf, Allow, SoundState;
    var q := requests[0];
    assert Sound(b, k, from, limits);
    LevelGrows(b, k, from, q.now, limits);
    SoundLater(b, from, q.now, limits);
    AllowDebits(b, k, q, limits);
    AllowKeepsSound(b, q, limits);
    var (b1, ok) := Allow(b, q, limits);
    var oks := Run(b1, requests[1..], limits).1;
    assert ([ok] + oks)[1..] == oks;
  }

  /** The requests come in order, none before `from` and none after `to`. */
  predicate Between(from: real, requests: seq<Request>, to: real) {
    && from <= to
    && (forall i :: 0 <= i < |requests| ==> from <= requests[i].now <= to)
    && NonDecreasing(requests)
  }

  lemma {:induction false} RunWithinLevel(b: Buckets, k: Bucket, requests: seq<Request>, from: real, to: real,
      limits: RateLimits)
    requires Between(from, requests, to) && AllSound(b, from, limits) && AllSteady(limits)
    ensures var (b1, answers) := Run(b, requests, limits);
      && AllSound(b1, to, limits)
      && Count(Admitted(requests, answers, k)) + Level(b1, k, to, limits)
         <= Level(b, k, from, limits) + EarnOf(k, limits)(to - from)
    decreases |requests|
  {
    if requests == [] {
      assert Sound(b, k, from, limits);
      LevelGrows(b, k, from, to, limits);
      SoundLater(b, from, to, limits);
    } else {
      var now, earn := requests[0].now, EarnOf(k, limits);
      FirstRequest(b, k, requests, from, limits);
      assert Between(now, requests[1..], to);
      RunWithinLevel(Allow(b, requests[0], limits).0, k, requests[1..], now, to, limits);
      assert Steady(earn) && EarnsInTwo(earn, now - from, to - now);
      assert (now - from) + (to - now) == to - from;
    }
  }

  lemma {:induction false} RunSplit(b: Buckets, head: seq<Request>, tail: seq<Request>, limits: RateLimits)
    ensures var (b1, first) := Run(b, head, limits);
      var (b2, second) := Run(b1, tail, limits);
      Run(b, head + tail, limits) == (b2, first + second)
    decreases |head|
  {
    if head == [] {
      assert head + tail == tail;
      var second := Run(b, tail, limits).1;
      assert [] + second == second;
    } else {
      assert (head + tail)[1..] == head[1..] + tail;
      var (b1, ok) := Allow(b, head[0], limits);
      RunSplit(b1, head[1..], tail, limits);
      var (b2, first) := Run(b1, head[1..], limits);
      var (_, second) := Run(b2, tail, limits);
      assert [ok] + (first + second) == ([ok] + first) + second;
    }
  }

  lemma MiddleOf(first: seq<bool>, second: seq<bool>, third: seq<bool>)
    ensures (first + (second + third))[|first|..|first| + |second|] == second
  {
  }

  /** The buckets are sound whenever a run reaches its next request. */
  lemma SoundAt(requests: seq<Request>, i: nat, limits: RateLimits)
    requires i < |requests| && NonDecreasing(requests) && AllSteady(limits)
    ensures AllSound(Run(Buckets(FRESH, map[]), requests[..i], limits).0, requests[i].now, limits)
  {
    var initial := Buckets(FRESH, map[]);
    assert AllSound(initial, requests[0].now, limits);
    hide AllSteady, Sound;
    if i == 0 {
      assert requests[..i] == [];
    } else {
      RunWithinLevel(initial, Global, requests[..i], requests[0].now, requests[i].now, limits);
    }
  }

  /** A stretch of a run is itself a run, from some sound state. */
  lemma StretchIsRun(requests: seq<Request>, i: nat, j: nat, limits: RateLimits) returns (b: Buckets)
    requires i < j <= |requests| && NonDecreasing(requests) && AllSteady(limits)
    ensures AllSound(b, requests[i].now, limits)
    ensures Run(Buckets(FRESH, map[]), requests, limits).1[i..j] == Run(b, requests[i..j], limits).1
  {
    hide Run, AllSteady, AllSound, NonDecreasing;
    var initial := Buckets(FRESH, map[]);
    SoundAt(requests, i, limits);
    RunSplit(initial, requests[..i], requests[i..], limits);
    assert requests[..i] + requests[i..] == requests;
    var run := Run(initial, requests[..i], limits);
    b := run.0;
    RunSplit(b, requests[i..j], requests[j..], limits);
    assert requests[i..j] + requests[j..] == requests[i..];
    var (b2, second) := Run(b, requests[i..j], limits);
    MiddleOf(run.1, second, Run(b2, requests[j..], limits).1);
  }

  lemma StretchBounded(requests: seq<Request>, i: nat, j: nat, k: Bucket, limits: RateLimits)
    requires i < j <= |requests| && NonDecreasing(requests) && AllSteady(limits)
    ensures var answers := Run(Buckets(FRESH, map[]), requests, limits).1;
      Count(Admitted(requests[i..j], answers[i..j], k))
        <= BurstOf(k, limits) as real + EarnOf(k, limits)(requests[j - 1].now - requests[i].now)
  {
    var start, end := requests[i].now, requests[j - 1].now;
    var b := StretchIsRun(requests, i, j, limits);
    RunWithinLevel(b, k, requests[i..j], start, end, limits);
    var b1 := Run(b, requests[i..j], limits).0;
    assert Sound(b, k, start, limits) && Sound(b1, k, end, limits);
    LevelGrows(b, k, start, start, limits);
    LevelGrows(b1, k, end, end, limits);
  }

  lemma PerMinuteOf(n: nat)
    ensures forall elapsed: real :: PerMinute(n)(elapsed) == elapsed * (n as real / 60.0)
  {
  }

  lemma PerMinuteIsSteady(n: nat)
    ensures Steady(PerMinute(n))
  {
    forall x: real, y: real
      ensures EarnsInTwo(PerMinute(n), x, y)
    {
      if x >= 0.0 && y >= 0.0 {
        Proportional(x, y, n as real / 60.0);
      }
    }
  }

  lemma Proportional(x: real, y: real, rate: real)
    requires x >= 0.0 && y >= 0.0 && rate >= 0.0
    ensures x * rate >= 0.0 && (x + y) * rate == x * rate + y * rate
  {
  }

  lemma ConfiguredLimitsAreSteady(c: Config)
    ensures AllSteady(LimitsOf(c))
  {
    forall k
      ensures Steady(EarnOf(k, LimitsOf(c)))
    {
      match k
      case Global => PerMinuteIsSteady(c.perMinute);
      case Profile(name) => PerMinuteIsSteady(c.profilePerMinute(name));
    }
  }

  /** In every run from fresh buckets with a clock that never goes back, and for every stretch of
      it, the admissions that drew on a bucket number at most its burst plus its rate times the
      time the stretch took. It holds of the relay-wide bucket and of every profile's. */
  lemma AdmissionsBounded(requests: seq<Request>, i: nat, j: nat, c: Config, profile: string)
    requires i < j <= |requests| && NonDecreasing(requests)
    ensures var answers := Run(Buckets(FRESH, map[]), requests, LimitsOf(c)).1[i..j];
      var elapsed := requests[j - 1].now - requests[i].now;
      && Count(Admitted(requests[i..j], answers, Global))
         <= c.burst as real + PerMinute(c.perMinute)(elapsed)
      && Count(Admitted(requests[i..j], answers, Profile(profile)))
         <= c.profileBurst(profile) as real + PerMinute(c.profilePerMinute(profile))(elapsed)
  {
    ConfiguredLimitsAreSteady(c);
    StretchBounded(requests, i, j, Global, LimitsOf(c));
    StretchBounded(requests, i, j, Profile(profile), LimitsOf(c));
  }

  // ------------------------------------------------------------------- it refills

  function Min(a: real, b: real): real { if a < b then a else b }

  /** Refilled, a bucket has what it had and what it has earned since, up to its capacity. */
  lemma RefillAdds(s: RateState, t: real, u: real, earn: real -> real, burst: nat)
    requires t <= u && SoundState(s, t, burst) && Steady(earn)
    ensures Refilled(s, u, earn, burst).tokens == Min(burst as real, Refilled(s, t, earn, burst).tokens + earn(u - t))
  {
    assert EarnsInTwo(earn, u - t, 0.0);
    if s.last.Some? {
      var x, y := t - s.last.value, u - t;
      assert EarnsInTwo(earn, x, y);
      assert x + y == u - s.last.value;
    }
  }

  function PerMinuteFor(k: Bucket, c: Config): nat {
    match k case Global => c.perMinute case Profile(name) => c.profilePerMinute(name)
  }

  function BurstFor(k: Bucket, c: Config): nat {
    match k case Global => c.burst case Profile(name) => c.profileBurst(name)
  }

  lemma ConfiguredFor(k: Bucket, elapsed: real, c: Config)
    ensures EarnOf(k, LimitsOf(c))(elapsed) == elapsed * (PerMinuteFor(k, c) as real / 60.0)
    ensures BurstOf(k, LimitsOf(c)) == BurstFor(k, c)
  {
    PerMinuteOf(PerMinuteFor(k, c));
    hide PerMinute;
    assert EarnOf(k, LimitsOf(c)) == PerMinute(PerMinuteFor(k, c));
  }

  /** Between two moments a bucket gains its rate times the time between them, up to its burst; a bucket
      never used is full. */
  lemma LevelRises(b: Buckets, k: Bucket, t: real, u: real, c: Config)
    requires t <= u && Sound(b, k, t, LimitsOf(c))
    ensures Level(b, k, u, LimitsOf(c))
         == Min(BurstFor(k, c) as real, Level(b, k, t, LimitsOf(c)) + (u - t) * (PerMinuteFor(k, c) as real / 60.0))
    ensures StateOf(b, k).last.None? ==> Level(b, k, t, LimitsOf(c)) == BurstFor(k, c) as real
  {
    ConfiguredLimitsAreSteady(c);
    ConfiguredFor(k, u - t, c);
    hide LimitsOf, EarnOf, BurstOf, Steady, AllSteady;
    LevelLater(b, k, t, u, LimitsOf(c));
    if StateOf(b, k).last.Some? {
      hide Level;
    }
  }

  /** The admissions of `k` in the stretch from request `i` on, and the tokens it had to spend them from. */
  ghost predicate Spent(requests: seq<Request>, answers: seq<bool>, i: nat, k: Bucket, level: real, t: real,
      limits: RateLimits)
    requires i < |requests| == |answers|
  {
    level == BurstOf(k, limits) as real + EarnOf(k, limits)(t - requests[i].now)
               - Count(Admitted(requests[i..], answers[i..], k))
  }

  /** A bucket is full, or has not been since some request: then it has what a full bucket has left. */
  ghost predicate FullSince(requests: seq<Request>, answers: seq<bool>, k: Bucket, level: real, t: real,
      limits: RateLimits)
    requires |requests| == |answers|
  {
    || level == BurstOf(k, limits) as real
    || exists i :: 0 <= i < |requests| && Spent(requests, answers, i, k, level, t, limits)
  }

  lemma {:induction false} AdmittedSplit(requests: seq<Request>, answers: seq<bool>, q: Request, ok: bool, k: Bucket)
    requires |requests| == |answers|
    ensures Admitted(requests + [q], answers + [ok], k)
         == Admitted(requests, answers, k) + (if ok && Draws(k, q) then 1 else 0)
    decreases |requests|
  {
    if requests == [] {
      assert requests + [q] == [q] && answers + [ok] == [ok];
      assert Admitted([q][1..], [ok][1..], k) == 0;
    } else {
      assert (requests + [q])[1..] == requests[1..] + [q] && (answers + [ok])[1..] == answers[1..] + [ok];
      AdmittedSplit(requests[1..], answers[1..], q, ok, k);
    }
  }

  lemma AdmittedOne(requests: seq<Request>, answers: seq<bool>, k: Bucket)
    requires |requests| == |answers| == 1
    ensures Admitted(requests, answers, k) == if answers[0] && Draws(k, requests[0]) then 1 else 0
  {
    assert requests[1..] == [];
  }

  /** Time passes. */
  lemma FullSinceLater(requests: seq<Request>, answers: seq<bool>, k: Bucket, level: real, t: real, u: real,
      limits: RateLimits)
    requires |requests| == |answers| && t <= u && AllSteady(limits)
    requires forall i :: 0 <= i < |requests| ==> requests[i].now <= t
    requires FullSince(requests, answers, k, level, t, limits)
    ensures FullSince(requests, answers, k, Min(BurstOf(k, limits) as real, level + EarnOf(k, limits)(u - t)), u,
        limits)
  {
    var burst, earn := BurstOf(k, limits) as real, EarnOf(k, limits);
    assert Steady(earn) && EarnsInTwo(earn, u - t, 0.0);
    var later := Min(burst, level + earn(u - t));
    if level != burst && later != burst {
      var i :| 0 <= i < |requests| && Spent(requests, answers, i, k, level, t, limits);
      assert EarnsInTwo(earn, t - requests[i].now, u - t);
      assert (t - requests[i].now) + (u - t) == u - requests[i].now;
      assert Spent(requests, answers, i, k, later, u, limits);
    }
  }

  /** A request is answered. */
  lemma FullSinceNext(requests: seq<Request>, answers: seq<bool>, q: Request, ok: bool, k: Bucket, level: real,
      limits: RateLimits)
    requires |requests| == |answers| && AllSteady(limits)
    requires FullSince(requests, answers, k, level, q.now, limits)
    ensures FullSince(requests + [q], answers + [ok], k, level - (if ok && Draws(k, q) then 1.0 else 0.0), q.now,
        limits)
  {
    var burst, earn := BurstOf(k, limits) as real, EarnOf(k, limits);
    var more, all := requests + [q], answers + [ok];
    var after := level - (if ok && Draws(k, q) then 1.0 else 0.0);
    assert Steady(earn) && EarnsInTwo(earn, 0.0, 0.0);
    if level == burst {
      var n := |requests|;
      assert more[n..] == [q] && all[n..] == [ok];
      AdmittedOne([q], [ok], k);
      hide Admitted;
      assert q.now - more[n].now == 0.0;
      assert Spent(more, all, n, k, after, q.now, limits);
    } else {
      var i :| 0 <= i < |requests| && Spent(requests, answers, i, k, level, q.now, limits);
      assert more[i..] == requests[i..] + [q] && all[i..] == answers[i..] + [ok];
      AdmittedSplit(requests[i..], answers[i..], q, ok, k);
      hide Admitted;
      assert Spent(more, all, i, k, after, q.now, limits);
    }
  }

  lemma RunOneMore(b: Buckets, past: seq<Request>, q: Request, limits: RateLimits)
    ensures var (b1, answers) := Run(b, past, limits);
      var (b2, ok) := Allow(b1, q, limits);
      Run(b, past + [q], limits) == (b2, answers + [ok])
  {
    var b1 := Run(b, past, limits).0;
    RunSplit(b, past, [q], limits);
    RunOne(b1, [q], limits);
    hide Run, Allow;
    assert [q][0] == q;
    assert Run(b1, [q], limits).0 == Allow(b1, q, limits).0;
    assert Run(b1, [q], limits).1 == [Allow(b1, q, limits).1];
  }

  lemma RunOne(b: Buckets, requests: seq<Request>, limits: RateLimits)
    requires |requests| == 1
    ensures Run(b, requests, limits) == (Allow(b, requests[0], limits).0, [Allow(b, requests[0], limits).1])
  {
    hide Allow;
    var b1 := Allow(b, requests[0], limits).0;
    assert requests[1..] == [];
    var none := Run(b1, requests[1..], limits).1;
    assert [Allow(b, requests[0], limits).1] + none == [Allow(b, requests[0], limits).1];
  }

  /** Before each request of a run from fresh buckets, every bucket is as full as its history says. */
  lemma {:induction false} LevelsAreSpent(requests: seq<Request>, n: nat, t: real, k: Bucket, limits: RateLimits)
    requires n <= |requests| && NonDecreasing(requests) && AllSteady(limits)
    requires forall i :: 0 <= i < n ==> requests[i].now <= t
    ensures var (b, answers) := Run(Buckets(FRESH, map[]), requests[..n], limits);
      && Sound(b, k, t, limits)
      && FullSince(requests[..n], answers, k, Level(b, k, t, limits), t, limits)
    decreases n
  {
    if n > 0 {
      var past, q := requests[..n - 1], requests[n - 1];
      LevelsAreSpent(requests, n - 1, q.now, k, limits);
      LevelsAreSpent(requests, n - 1, q.now, Global, limits);
      LevelsAreSpent(requests, n - 1, q.now, Profile(q.profile), limits);
      assert requests[..n] == past + [q];
      RunOneMore(Buckets(FRESH, map[]), past, q, limits);
      var (b, answers) := Run(Buckets(FRESH, map[]), past, limits);
      hide Run, NonDecreasing;
      LevelIsSpent(b, past, answers, q, t, k, limits);
    }
  }

  lemma LevelIsSpent(b: Buckets, past: seq<Request>, answers: seq<bool>, q: Request, t: real, k: Bucket,
      limits: RateLimits)
    requires |past| == |answers| && AllSteady(limits) && q.now <= t
    requires forall i :: 0 <= i < |past| ==> past[i].now <= q.now
    requires Sound(b, k, q.now, limits) && Sound(b, Global, q.now, limits)
        && Sound(b, Profile(q.profile), q.now, limits)
    requires FullSince(past, answers, k, Level(b, k, q.now, limits), q.now, limits)
    ensures var (b1, ok) := Allow(b, q, limits);
      && Sound(b1, k, t, limits)
      && FullSince(past + [q], answers + [ok], k, Level(b1, k, t, limits), t, limits)
  {
    hide Allow, FullSince, AllSteady, Level, Sound;
    var (b1, ok) := Allow(b, q, limits);
    AllowDebits(b, k, q, limits);
    FullSinceNext(past, answers, q, ok, k, Level(b, k, q.now, limits), limits);
    LevelLater(b1, k, q.now, t, limits);
    FullSinceLater(past + [q], answers + [ok], k, Level(b1, k, q.now, limits), q.now, t, limits);
  }

  lemma LevelLater(b: Buckets, k: Bucket, t: real, u: real, limits: RateLimits)
    requires t <= u && Sound(b, k, t, limits) && AllSteady(limits)
    ensures Sound(b, k, u, limits)
    ensures Level(b, k, u, limits) == Min(BurstOf(k, limits) as real, Level(b, k, t, limits) + EarnOf(k, limits)(u - t))
  {
    assert Steady(EarnOf(k, limits));
    RefillAdds(StateOf(b, k), t, u, EarnOf(k, limits), BurstOf(k, limits));
  }

  /** One more admission at `t` would exceed, in the stretch from request `i` on, what the bucket's burst
      and rate allow. */
  ghost predicate Exceeds(requests: seq<Request>, answers: seq<bool>, i: nat, t: real, k: Bucket, c: Config)
    requires i <= |requests| == |answers|
  {
    var from := if i < |requests| then requests[i].now else t;
    Count(Admitted(requests[i..], answers[i..], k)) + 1.0
      > BurstFor(k, c) as real + (t - from) * (PerMinuteFor(k, c) as real / 60.0)
  }

  ghost predicate Over(requests: seq<Request>, answers: seq<bool>, i: nat, t: real, k: Bucket, limits: RateLimits)
    requires i <= |requests| == |answers|
  {
    var from := if i < |requests| then requests[i].now else t;
    Count(Admitted(requests[i..], answers[i..], k)) + 1.0 > BurstOf(k, limits) as real + EarnOf(k, limits)(t - from)
  }

  lemma ExceedsMeans(requests: seq<Request>, answers: seq<bool>, i: nat, t: real, k: Bucket, c: Config)
    requires i <= |requests| == |answers|
    ensures Exceeds(requests, answers, i, t, k, c) <==> Over(requests, answers, i, t, k, LimitsOf(c))
  {
    ConfiguredFor(k, t - (if i < |requests| then requests[i].now else t), c);
    hide LimitsOf, EarnOf, BurstOf, Admitted;
  }

  /** What is left in a bucket, with what a stretch up to now has taken, is no more than it could hold. */
  lemma StretchLeaves(requests: seq<Request>, i: nat, t: real, k: Bucket, limits: RateLimits)
    requires i <= |requests| && NonDecreasing(requests) && AllSteady(limits)
    requires forall j :: 0 <= j < |requests| ==> requests[j].now <= t
    ensures var (b, answers) := Run(Buckets(FRESH, map[]), requests, limits);
      var from := if i < |requests| then requests[i].now else t;
      Count(Admitted(requests[i..], answers[i..], k)) + Level(b, k, t, limits)
        <= BurstOf(k, limits) as real + EarnOf(k, limits)(t - from)
  {
    hide Run, AllSteady, Level, Admitted, NonDecreasing, Between, AllSound;
    var initial := Buckets(FRESH, map[]);
    var from := if i < |requests| then requests[i].now else t;
    var (b, past) := Run(initial, requests[..i], limits);
    RunSplit(initial, requests[..i], requests[i..], limits);
    assert requests[..i] + requests[i..] == requests;
    TailBetween(requests, i, t);
    SoundFrom(requests, i, from, limits);
    TailLeaves(b, requests[i..], from, t, k, limits);
    assert (past + Run(b, requests[i..], limits).1)[i..] == Run(b, requests[i..], limits).1;
  }

  lemma TailBetween(requests: seq<Request>, i: nat, t: real)
    requires i <= |requests| && NonDecreasing(requests) && forall j :: 0 <= j < |requests| ==> requests[j].now <= t
    ensures var from := if i < |requests| then requests[i].now else t;
      Between(from, requests[i..], t) && forall j :: 0 <= j < i ==> requests[j].now <= from
  {
  }

  lemma TailLeaves(b: Buckets, tail: seq<Request>, from: real, t: real, k: Bucket, limits: RateLimits)
    requires Between(from, tail, t) && AllSound(b, from, limits) && AllSteady(limits)
    ensures var (b1, answers) := Run(b, tail, limits);
      Count(Admitted(tail, answers, k)) + Level(b1, k, t, limits)
        <= BurstOf(k, limits) as real + EarnOf(k, limits)(t - from)
  {
    hide Run, AllSteady, Level, Admitted;
    RunWithinLevel(b, k, tail, from, t, limits);
    assert Sound(b, k, from, limits);
    LevelGrows(b, k, from, from, limits);
  }

  lemma SoundFrom(requests: seq<Request>, i: nat, t: real, limits: RateLimits)
    requires i <= |requests| && NonDecreasing(requests) && AllSteady(limits)
    requires forall j :: 0 <= j < i ==> requests[j].now <= t
    ensures AllSound(Run(Buckets(FRESH, map[]), requests[..i], limits).0, t, limits)
  {
    var initial := Buckets(FRESH, map[]);
    hide AllSteady;
    if i == 0 {
      assert requests[..i] == [];
    } else {
      hide Run;
      assert AllSound(initial, requests[0].now, limits);
      RunWithinLevel(initial, Global, requests[..i], requests[0].now, t, limits);
    }
  }

  /** A bucket has a token exactly if no stretch of its history forbids one more admission. */
  lemma TokenExactly(requests: seq<Request>, t: real, k: Bucket, limits: RateLimits)
    requires NonDecreasing(requests) && (forall j :: 0 <= j < |requests| ==> requests[j].now <= t)
    requires AllSteady(limits)
    ensures var (b, answers) := Run(Buckets(FRESH, map[]), requests, limits);
      && Sound(b, k, t, limits)
      && (Level(b, k, t, limits) >= 1.0 <==>
            forall i :: 0 <= i <= |requests| ==> !Over(requests, answers, i, t, k, limits))
  {
    var n := |requests|;
    hide Run, Level, Sound, NonDecreasing, AllSteady, Over, FullSince, Admitted;
    assert requests[..n] == requests;
    LevelsAreSpent(requests, n, t, k, limits);
    var (b, answers) := Run(Buckets(FRESH, map[]), requests, limits);
    var level := Level(b, k, t, limits);
    if level >= 1.0 {
      forall i | 0 <= i <= n
        ensures !Over(requests, answers, i, t, k, limits)
      {
        TokenLeft(requests, i, t, k, limits);
      }
    } else {
      TokenMissing(requests, answers, level, t, k, limits);
    }
  }

  lemma TokenLeft(requests: seq<Request>, i: nat, t: real, k: Bucket, limits: RateLimits)
    requires i <= |requests| && NonDecreasing(requests) && AllSteady(limits)
    requires forall j :: 0 <= j < |requests| ==> requests[j].now <= t
    requires Level(Run(Buckets(FRESH, map[]), requests, limits).0, k, t, limits) >= 1.0
    ensures !Over(requests, Run(Buckets(FRESH, map[]), requests, limits).1, i, t, k, limits)
  {
    hide Run, Level, NonDecreasing, AllSteady, Admitted;
    StretchLeaves(requests, i, t, k, limits);
  }

  lemma TokenMissing(requests: seq<Request>, answers: seq<bool>, level: real, t: real, k: Bucket, limits: RateLimits)
    requires |requests| == |answers| && level < 1.0 && AllSteady(limits)
    requires FullSince(requests, answers, k, level, t, limits)
    ensures exists i :: 0 <= i <= |requests| && Over(requests, answers, i, t, k, limits)
  {
    var n := |requests|;
    assert Steady(EarnOf(k, limits)) && EarnsInTwo(EarnOf(k, limits), 0.0, 0.0) && t - t == 0.0;
    hide AllSteady, Steady;
    if level == BurstOf(k, limits) as real {
      assert requests[n..] == [] && answers[n..] == [];
      assert Over(requests, answers, n, t, k, limits);
    } else {
      var i :| 0 <= i < n && Spent(requests, answers, i, k, level, t, limits);
      assert Over(requests, answers, i, t, k, limits);
    }
  }

  lemma AnswerExactly(requests: seq<Request>, j: nat, limits: RateLimits)
    requires j < |requests| && NonDecreasing(requests) && AllSteady(limits)
    ensures var answers := Run(Buckets(FRESH, map[]), requests, limits).1;
      var q := requests[j];
      answers[j] <==>
        && (forall i :: 0 <= i <= j ==> !Over(requests[..j], answers[..j], i, q.now, Global, limits))
        && (forall i :: 0 <= i <= j ==> !Over(requests[..j], answers[..j], i, q.now, Profile(q.profile), limits))
  {
    var q, initial := requests[j], Buckets(FRESH, map[]);
    assert NonDecreasing(requests[..j]);
    TokenExactly(requests[..j], q.now, Global, limits);
    TokenExactly(requests[..j], q.now, Profile(q.profile), limits);
    hide Run, Over, Level, AllSteady, Allow, Sound, NonDecreasing;
    AnswerOf(initial, requests, j, limits);
    AllowDebits(Run(initial, requests[..j], limits).0, Global, q, limits);
  }

  /** An answer is that of the buckets the requests before it leave. */
  lemma AnswerOf(b: Buckets, requests: seq<Request>, j: nat, limits: RateLimits)
    requires j < |requests|
    ensures var answers := Run(b, requests, limits).1;
      var (b1, past) := Run(b, requests[..j], limits);
      answers[..j] == past && answers[j] == Allow(b1, requests[j], limits).1
  {
    hide Run, Allow;
    RunOneMore(b, requests[..j], requests[j], limits);
    assert requests[..j] + [requests[j]] == requests[..j + 1];
    RunSplit(b, requests[..j + 1], requests[j + 1..], limits);
    assert requests[..j + 1] + requests[j + 1..] == requests;
  }

  /** Exactly: a request is admitted if and only if, for neither of its two buckets, some stretch of the run
      that ends with it would have more admissions than burst plus rate times the time it took. */
  lemma AdmittedExactly(requests: seq<Request>, j: nat, c: Config)
    requires j < |requests| && NonDecreasing(requests)
    ensures var answers := Run(Buckets(FRESH, map[]), requests, LimitsOf(c)).1;
      var q := requests[j];
      answers[j] <==>
        && (forall i :: 0 <= i <= j ==> !Exceeds(requests[..j], answers[..j], i, q.now, Global, c))
        && (forall i :: 0 <= i <= j ==> !Exceeds(requests[..j], answers[..j], i, q.now, Profile(q.profile), c))
  {
    ConfiguredLimitsAreSteady(c);
    AnswerExactly(requests, j, LimitsOf(c));
    hide Run, Over, Exceeds, LimitsOf, NonDecreasing;
    var answers, q := Run(Buckets(FRESH, map[]), requests, LimitsOf(c)).1, requests[j];
    forall i | 0 <= i <= j
      ensures Exceeds(requests[..j], answers[..j], i, q.now, Global, c)
        <==> Over(requests[..j], answers[..j], i, q.now, Global, LimitsOf(c))
      ensures Exceeds(requests[..j], answers[..j], i, q.now, Profile(q.profile), c)
        <==> Over(requests[..j], answers[..j], i, q.now, Profile(q.profile), LimitsOf(c))
    {
      ExceedsMeans(requests[..j], answers[..j], i, q.now, Global, c);
      ExceedsMeans(requests[..j], answers[..j], i, q.now, Profile(q.profile), c);
    }
  }

  // ------------------------------------------ lazy refilling equals eager refilling

  /** The same buckets refilled on every request, admitted or not. */
  function AllowEagerly(b: Buckets, q: Request, limits: RateLimits): (Buckets, bool) {
    var (g, globalOk) := TakeRate(b.global, q.now, limits.earn, limits.burst);
    var (p, profileOk) := TakeRate(ProfileState(b, q.profile), q.now,
                                   limits.profileEarn(q.profile), limits.profileBurst(q.profile));
    if globalOk && profileOk then (Buckets(g, b.profiles[q.profile := p]), true)
    else
      (Buckets(Refilled(b.global, q.now, limits.earn, limits.burst),
               b.profiles[q.profile := Refilled(ProfileState(b, q.profile), q.now,
                                                limits.profileEarn(q.profile), limits.profileBurst(q.profile))]),
       false)
  }

  function RunEagerly(b: Buckets, requests: seq<Request>, limits: RateLimits): (r: seq<bool>)
    ensures |r| == |requests|
    decreases |requests|
  {
    if requests == [] then []
    else
      var (b1, ok) := AllowEagerly(b, requests[0], limits);
      [ok] + RunEagerly(b1, requests[1..], limits)
  }

  /** Nobody who only sees answers from time `t` on can tell the two apart. */
  ghost predicate Alike(a: Buckets, b: Buckets, t: real, limits: RateLimits) {
    forall k :: Sound(a, k, t, limits) && Sound(b, k, t, limits) && Level(a, k, t, limits) == Level(b, k, t, limits)
  }

  lemma AlikeLater(a: Buckets, b: Buckets, t: real, u: real, limits: RateLimits)
    requires t <= u && AllSteady(limits) && Alike(a, b, t, limits)
    ensures Alike(a, b, u, limits)
  {
    forall k
      ensures Sound(a, k, u, limits) && Sound(b, k, u, limits) && Level(a, k, u, limits) == Level(b, k, u, limits)
    {
      assert Sound(a, k, t, limits) && Sound(b, k, t, limits);
      RefillCompose(StateOf(a, k), t, u, EarnOf(k, limits), BurstOf(k, limits));
      RefillCompose(StateOf(b, k), t, u, EarnOf(k, limits), BurstOf(k, limits));
    }
  }

  lemma AlikeStep(a: Buckets, b: Buckets, q: Request, limits: RateLimits)
    requires AllSteady(limits) && Alike(a, b, q.now, limits)
    ensures Allow(a, q, limits).1 == AllowEagerly(b, q, limits).1
    ensures Alike(Allow(a, q, limits).0, AllowEagerly(b, q, limits).0, q.now, limits)
  {
    var global, profile := Bucket.Global, Profile(q.profile);
    assert Level(a, global, q.now, limits) == Level(b, global, q.now, limits);
    assert Level(a, profile, q.now, limits) == Level(b, profile, q.now, limits);
    assert Sound(a, global, q.now, limits) && Sound(b, global, q.now, limits);
    assert Sound(a, profile, q.now, limits) && Sound(b, profile, q.now, limits);
    AllowDebits(a, global, q, limits);
    AllowDebits(b, global, q, limits);
    var a1, b1 := Allow(a, q, limits).0, AllowEagerly(b, q, limits).0;
    forall k
      ensures Sound(a1, k, q.now, limits) && Sound(b1, k, q.now, limits)
      ensures Level(a1, k, q.now, limits) == Level(b1, k, q.now, limits)
    {
      assert Sound(a, k, q.now, limits) && Sound(b, k, q.now, limits)
          && Level(a, k, q.now, limits) == Level(b, k, q.now, limits);
      AllowDebits(a, k, q, limits);
      AllowDebits(b, k, q, limits);
      RefillCompose(StateOf(b, k), q.now, q.now, EarnOf(k, limits), BurstOf(k, limits));
    }
  }

  /** Leaving a bucket unrefilled when a request is refused changes no answer, now or later. */
  lemma {:induction false} LazyRefillIsEager(a: Buckets, b: Buckets, requests: seq<Request>, t: real,
      limits: RateLimits)
    requires NonDecreasing(requests) && (requests != [] ==> t <= requests[0].now) && AllSteady(limits)
        && Alike(a, b, t, limits)
    ensures Run(a, requests, limits).1 == RunEagerly(b, requests, limits)
    decreases |requests|
  {
    if requests != [] {
      var q := requests[0];
      AlikeLater(a, b, t, q.now, limits);
      AlikeStep(a, b, q, limits);
      LazyRefillIsEager(Allow(a, q, limits).0, AllowEagerly(b, q, limits).0, requests[1..], q.now, limits);
    }
  }

  // ------------------------------------------------------------ the program's state

  /** A relay-wide bucket with its per-profile map, as the manager keeps for sessions and streams. */
  class CoupledBuckets {
    var global: RateState
    var profiles: map<string, RateState>

    function View(): Buckets
      reads this
    {
      Buckets(global, profiles)
    }

    constructor ()
      ensures View() == Buckets(FRESH, map[])
    {
      global, profiles := FRESH, map[];
    }

    /** `allowProfileRateLocked`. */
    method AllowProfile(q: Request, c: Config) returns (allowed: bool)
      modifies this
      ensures (View(), allowed) == Allow(old(View()), q, LimitsOf(c))
    {
      var updatedGlobal, globalAllowed := Take(global, q.now, c.perMinute, c.burst);
      var current := if q.profile in profiles then profiles[q.profile] else FRESH;
      var updatedProfile, profileAllowed :=
        Take(current, q.now, c.profilePerMinute(q.profile), c.profileBurst(q.profile));
      if !globalAllowed || !profileAllowed {
        return false;
      }
      global := updatedGlobal;
      profiles := profiles[q.profile := updatedProfile];
      return true;
    }

    /** `takeRate`. */
    static method Take(state: RateState, now: real, perMinute: nat, burstLimit: nat) returns (updated: RateState,
        allowed: bool)
      ensures (updated, allowed) == TakeRate(state, now, PerMinute(perMinute), burstLimit)
    {
      hide PerMinute;
      PerMinuteOf(perMinute);
      var burst := burstLimit as real;
      updated := state;
      if updated.last.None? {
        updated := RateState(burst, Some(now));
      } else {
        var perSecond := perMinute as real / 60.0;
        var tokens := updated.tokens + (now - updated.last.value) * perSecond;
        assert tokens == state.tokens + PerMinute(perMinute)(now - state.last.value);
        if tokens > burst {
          tokens := burst;
        }
        updated := RateState(tokens, Some(now));
      }
      if updated.tokens < 1.0 {
        return updated, false;
      }
      updated := updated.(tokens := updated.tokens - 1.0);
      return updated, true;
    }
  }
}
