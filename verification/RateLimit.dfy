/** The per-key token-bucket limiter: the limiter object, the step function it refines, and
    what holds of it over whole runs of calls.

    Time is in seconds since Go's zero time and tokens are reals. A call carries the three
    clock readings it may take, and a run's readings never go backwards. */
module RateLimit {

  const STALE_BUCKET_TTL := 300.0
  const DEFAULT_MAX_BUCKETS := 65_536
  const CLEANUP_INTERVAL := 256
  // The longest time.Duration, in seconds: time.Sub saturates there instead of overflowing.
  const MAX_DURATION := 9223372036.854775807
  const UINT64_RANGE := 0x1_0000_0000_0000_0000

  datatype Bucket = Bucket(tokens: real, lastCheck: real)
  datatype Params = Params(rps: real, burst: int, maxBuckets: int)
  datatype Table = Table(buckets: map<string, Bucket>, callCount: int)
  datatype Call = Call(key: string, sweepAt: real, retryAt: real, now: real)
  datatype Verdict = Granted | Denied | AtCapacity

  const FRESH := Table(map[], 0)

  // ---------- The limiter as a step function ----------

  function Elapsed(now: real, last: real): real {
    if now - last > MAX_DURATION then MAX_DURATION
    else if now - last < -MAX_DURATION then -MAX_DURATION
    else now - last
  }

  function RealMin(a: real, b: real): real {
    if a > b then b else a
  }

  // The tokens earned in that many seconds.
  function Earned(p: Params, seconds: real): real {
    p.rps * seconds
  }

  function Refill(p: Params, b: Bucket, now: real): Bucket {
    Bucket(RealMin(b.tokens + Earned(p, Elapsed(now, b.lastCheck)), p.burst as real), now)
  }

  function Charge(p: Params, b: Bucket, now: real): (Bucket, Verdict) {
    var filled := Refill(p, b, now);
    if filled.tokens < 1.0 then (filled, Denied)
    else (filled.(tokens := filled.tokens - 1.0), Granted)
  }

  predicate Stale(b: Bucket, at: real) {
    b.lastCheck < at - STALE_BUCKET_TTL
  }

  function Sweep(buckets: map<string, Bucket>, at: real): map<string, Bucket> {
    map k | k in buckets && !Stale(buckets[k], at) :: buckets[k]
  }

  function NewBucket(p: Params): Bucket {
    Bucket(p.burst as real, 0.0)
  }

  function AfterPeriodicSweep(s: Table, c: Call): Table {
    var count := (s.callCount + 1) % UINT64_RANGE;
    Table(if count % CLEANUP_INTERVAL == 0 then Sweep(s.buckets, c.sweepAt) else s.buckets, count)
  }

  function Step(p: Params, s: Table, c: Call): (Table, Verdict) {
    var s0 := AfterPeriodicSweep(s, c);
    if c.key in s0.buckets then
      var (b, v) := Charge(p, s0.buckets[c.key], c.now);
      (s0.(buckets := s0.buckets[c.key := b]), v)
    else
      var roomy := if |s0.buckets| >= p.maxBuckets then Sweep(s0.buckets, c.retryAt) else s0.buckets;
      if |roomy| >= p.maxBuckets then
        (s0.(buckets := roomy), AtCapacity)
      else
        var (b, v) := Charge(p, NewBucket(p), c.now);
        (s0.(buckets := roomy[c.key := b]), v)
  }

  function Run(p: Params, s: Table, calls: seq<Call>): (r: (Table, seq<Verdict>))
    ensures |r.1| == |calls|
    decreases |calls|
  {
    if calls == [] then (s, [])
    else
      var (s1, v) := Step(p, s, calls[0]);
      var (s2, vs) := Run(p, s1, calls[1..]);
      (s2, [v] + vs)
  }

  // How many calls with this key were granted.
  function GrantedFor(key: string, calls: seq<Call>, verdicts: seq<Verdict>): nat {
    if calls == [] || verdicts == [] then 0
    else (if calls[0].key == key && verdicts[0] == Granted then 1 else 0)
         + GrantedFor(key, calls[1..], verdicts[1..])
  }

  // ---------- The object ----------

  class Limiter {
    var buckets: map<string, Bucket>
    var callCount: int
    const params: Params

    constructor (rps: real, burst: int)
      ensures State() == FRESH && params == Params(rps, burst, DEFAULT_MAX_BUCKETS)
    {
      buckets, callCount := map[], 0;
      params := Params(rps, burst, DEFAULT_MAX_BUCKETS);
    }

    ghost function State(): Table
      reads this
    {
      Table(buckets, callCount)
    }

    // Deletes the stale buckets one key at a time.
    method CleanupStaleBuckets(at: real)
      modifies `buckets
      ensures buckets == Sweep(old(buckets), at)
    {
      ghost var was := buckets;
      var todo := buckets.Keys;
      while todo != {}
        invariant todo <= was.Keys
        invariant buckets == map k | k in was && (k in todo || !Stale(was[k], at)) :: was[k]
        decreases |todo|
      {
        var key :| key in todo;
        if buckets[key].lastCheck < at - STALE_BUCKET_TTL {
          buckets := buckets - {key};
        }
        todo := todo - {key};
      }
    }

    method Allow(call: Call) returns (ok: bool)
      modifies this
      ensures State() == Step(params, old(State()), call).0
      ensures ok <==> Step(params, old(State()), call).1 == Granted
    {
      callCount := (callCount + 1) % UINT64_RANGE;
      if callCount % CLEANUP_INTERVAL == 0 {
        CleanupStaleBuckets(call.sweepAt);
      }
      var b: Bucket;
      if call.key in buckets {
        b := buckets[call.key];
      } else {
        if |buckets| >= params.maxBuckets {
          CleanupStaleBuckets(call.retryAt);
          if |buckets| >= params.maxBuckets {
            return false;
          }
        }
        b := NewBucket(params);
      }
      var elapsed := Elapsed(call.now, b.lastCheck);
      b := b.(lastCheck := call.now);
      b := b.(tokens := b.tokens + Earned(params, elapsed));
      if b.tokens > params.burst as real {
        b := b.(tokens := params.burst as real);
      }
      ok := b.tokens >= 1.0;
      if ok {
        b := b.(tokens := b.tokens - 1.0);
      }
      buckets := buckets[call.key := b];
    }
  }

  // ---------- Runs ----------

  // The clock readings of a call come in order and not before t.
  predicate ClockFrom(c: Call, t: real) {
    t <= c.sweepAt <= c.retryAt <= c.now
  }

  predicate ClockRuns(calls: seq<Call>, t: real) {
    calls == [] || (ClockFrom(calls[0], t) && ClockRuns(calls[1..], calls[0].now))
  }

  function LastTime(calls: seq<Call>): real
    requires calls != []
  {
    calls[|calls| - 1].now
  }

  // What every reachable state keeps, at time t.
  ghost predicate Sane(p: Params, buckets: map<string, Bucket>, t: real) {
    forall k :: k in buckets ==> 0.0 <= buckets[k].tokens <= p.burst as real && 0.0 <= buckets[k].lastCheck <= t
  }

  predicate Refilling(p: Params) {
    p.rps >= 0.0 && p.burst >= 0
  }

  // An idle bucket is full again before it can be swept.
  predicate RefillsBeforeStale(p: Params) {
    Earned(p, STALE_BUCKET_TTL) >= p.burst as real
  }

  // What the key could spend at time t; a key without a bucket would start full.
  function Level(p: Params, buckets: map<string, Bucket>, key: string, t: real): real {
    if key in buckets then Refill(p, buckets[key], t).tokens else p.burst as real
  }

  lemma {:induction false} RefillSlack(p: Params, b: Bucket, t: real, u: real)
    requires Refilling(p) && b.lastCheck <= t <= u && 0.0 <= b.tokens <= p.burst as real
    ensures 0.0 <= Refill(p, b, t).tokens <= Refill(p, b, u).tokens <= p.burst as real
    ensures Refill(p, b, u).tokens <= Refill(p, b, t).tokens + Earned(p, u - t)
  {
    var e, f := Elapsed(t, b.lastCheck), Elapsed(u, b.lastCheck);
    assert 0.0 <= e <= f <= e + (u - t);
    EarnedGrows(p, 0.0, e);
    EarnedGrows(p, e, f);
    EarnedGrows(p, f - e, u - t);
  }

  lemma {:induction false} EarnedGrows(p: Params, a: real, b: real)
    requires p.rps >= 0.0 && a <= b
    ensures Earned(p, a) <= Earned(p, b) == Earned(p, a) + Earned(p, b - a)
    ensures Earned(p, 0.0) == 0.0
  {
    assert p.rps * (b - a) >= 0.0;
  }

  // A stale bucket is already full, so dropping it changes no key's level.
  lemma {:induction false} SweepKeepsLevel(p: Params, buckets: map<string, Bucket>, key: string, at: real, t: real)
    requires Refilling(p) && RefillsBeforeStale(p) && Sane(p, buckets, at) && at <= t
    ensures Level(p, Sweep(buckets, at), key, t) == Level(p, buckets, key, t)
  {
    if key in buckets && Stale(buckets[key], at) {
      StaleIsFull(p, buckets[key], t);
    }
  }

  lemma {:induction false} StaleIsFull(p: Params, b: Bucket, t: real)
    requires Refilling(p) && RefillsBeforeStale(p) && 0.0 <= b.tokens <= p.burst as real
    requires b.lastCheck + STALE_BUCKET_TTL <= t
    ensures Refill(p, b, t) == Bucket(p.burst as real, t)
  {
    EarnedGrows(p, STALE_BUCKET_TTL, Elapsed(t, b.lastCheck));
  }

  lemma {:induction false} NewIsFull(p: Params, t: real)
    requires Refilling(p) && 0.0 <= t
    ensures Refill(p, NewBucket(p), t) == Bucket(p.burst as real, t)
  {
    EarnedGrows(p, 0.0, Elapsed(t, 0.0));
  }

  lemma {:induction false} ChargeKeepsSane(p: Params, b: Bucket, now: real)
    requires Refilling(p) && 0.0 <= b.lastCheck <= now && 0.0 <= b.tokens <= p.burst as real
    ensures var b' := Charge(p, b, now).0; 0.0 <= b'.tokens <= p.burst as real && b'.lastCheck == now
  {
    RefillSlack(p, b, now, now);
  }

  lemma {:induction false} StepKeepsSane(p: Params, s: Table, c: Call, t: real)
    requires Refilling(p) && 0.0 <= t && Sane(p, s.buckets, t) && ClockFrom(c, t)
    ensures Sane(p, Step(p, s, c).0.buckets, c.now)
  {
    var s0 := AfterPeriodicSweep(s, c);
    ChargeKeepsSane(p, NewBucket(p), c.now);
    if c.key in s0.buckets {
      ChargeKeepsSane(p, s0.buckets[c.key], c.now);
    }
  }

  predicate Roomy(p: Params, buckets: map<string, Bucket>) {
    |buckets| <= if p.maxBuckets > 0 then p.maxBuckets else 0
  }

  // No step grows the map past its bound, whatever the clock and the rates.
  lemma {:induction false} StepKeepsRoomy(p: Params, s: Table, c: Call)
    requires Roomy(p, s.buckets)
    ensures Roomy(p, Step(p, s, c).0.buckets)
  {
    var s0 := AfterPeriodicSweep(s, c);
    SweepShrinks(s.buckets, c.sweepAt);
    SweepShrinks(s0.buckets, c.retryAt);
    if c.key in s0.buckets {
      assert s0.buckets[c.key := Charge(p, s0.buckets[c.key], c.now).0].Keys == s0.buckets.Keys;
      assert |Step(p, s, c).0.buckets.Keys| == |s0.buckets.Keys|;
    } else {
      var roomy := if |s0.buckets| >= p.maxBuckets then Sweep(s0.buckets, c.retryAt) else s0.buckets;
      assert roomy[c.key := Charge(p, NewBucket(p), c.now).0].Keys == roomy.Keys + {c.key};
    }
  }

  lemma {:induction false} SweepShrinks(buckets: map<string, Bucket>, at: real)
    ensures |Sweep(buckets, at)| <= |buckets|
  {
    SubsetSize(Sweep(buckets, at).Keys, buckets.Keys);
  }

  lemma {:induction false} SubsetSize<T>(a: set<T>, b: set<T>)
    requires a <= b
    ensures |a| <= |b|
  {
    assert b == a + (b - a);
  }

  // A grant costs one token, a refusal nothing, and no other key's level moves.
  lemma {:induction false} StepSpendsLevel(p: Params, s: Table, c: Call, t: real, key: string)
    requires Refilling(p) && RefillsBeforeStale(p) && 0.0 <= t && Sane(p, s.buckets, t) && ClockFrom(c, t)
    ensures var (s1, v) := Step(p, s, c);
            Level(p, s1.buckets, key, c.now)
              == Level(p, s.buckets, key, c.now) - (if c.key == key && v == Granted then 1.0 else 0.0)
  {
    var s0 := AfterPeriodicSweep(s, c);
    SweepKeepsLevel(p, s.buckets, key, c.sweepAt, c.now);
    SweepKeepsLevel(p, s0.buckets, key, c.retryAt, c.now);
    NewIsFull(p, c.now);
  }

  lemma {:induction false} LevelBounds(p: Params, s: Table, key: string, t: real, u: real)
    requires Refilling(p) && Sane(p, s.buckets, t) && t <= u
    ensures 0.0 <= Level(p, s.buckets, key, t) <= p.burst as real
    ensures Level(p, s.buckets, key, u) <= Level(p, s.buckets, key, t) + Earned(p, u - t)
  {
    EarnedGrows(p, 0.0, u - t);
    if key in s.buckets {
      RefillSlack(p, s.buckets[key], t, u);
    }
  }

  // One call, and the wait until u: what is granted is paid for.
  lemma {:induction false} StepIsFunded(p: Params, s: Table, c: Call, t: real, key: string, u: real)
    requires Refilling(p) && RefillsBeforeStale(p) && 0.0 <= t && Sane(p, s.buckets, t) && ClockFrom(c, t) && c.now <= u
    ensures var (s1, v) := Step(p, s, c);
            && Sane(p, s1.buckets, c.now)
            && 0.0 <= Level(p, s1.buckets, key, u)
            && Level(p, s1.buckets, key, u) + (if c.key == key && v == Granted then 1.0 else 0.0)
                 <= Level(p, s.buckets, key, c.now) + Earned(p, u - c.now)
  {
    StepKeepsSane(p, s, c, t);
    StepSpendsLevel(p, s, c, t, key);
    var s1 := Step(p, s, c).0;
    LevelBounds(p, s1, key, c.now, u);
    LevelBounds(p, s1, key, u, u);
  }

  // What a stretch of calls is granted is paid for by the level at its first call and what
  // is refilled until its last.
  predicate Funded(p: Params, s: Table, calls: seq<Call>, key: string)
    requires calls != []
  {
    GrantedFor(key, calls, Run(p, s, calls).1) as real
      <= Level(p, s.buckets, key, calls[0].now) + Earned(p, LastTime(calls) - calls[0].now)
  }

  lemma {:induction false} GrantsAreFunded(p: Params, s: Table, calls: seq<Call>, t: real, key: string)
    requires Refilling(p) && RefillsBeforeStale(p) && 0.0 <= t && Sane(p, s.buckets, t)
    requires calls != [] && ClockRuns(calls, t)
    ensures Funded(p, s, calls, key)
    decreases |calls|
  {
    var c, rest := calls[0], calls[1..];
    var u := if rest == [] then c.now else rest[0].now;
    var (s1, v) := Step(p, s, c);
    StepIsFunded(p, s, c, t, key, u);
    GrantedHead(p, s, calls, s1, v, key);
    if rest != [] {
      GrantsAreFunded(p, s1, rest, c.now, key);
      LastTimeAfter(rest, c.now);
    }
    OneMoreFunded(p, s, calls, key, s1, if c.key == key && v == Granted then 1 else 0, u);
  }

  lemma {:induction false} OneMoreFunded(p: Params, s: Table, calls: seq<Call>, key: string, s1: Table, paid: nat, u: real)
    requires p.rps >= 0.0 && calls != [] && calls[0].now <= u <= LastTime(calls)
    requires u == if |calls| > 1 then calls[1].now else calls[0].now
    requires 0.0 <= Level(p, s1.buckets, key, u)
    requires Level(p, s1.buckets, key, u) + paid as real <= Level(p, s.buckets, key, calls[0].now) + Earned(p, u - calls[0].now)
    requires GrantedFor(key, calls, Run(p, s, calls).1) == paid + GrantedFor(key, calls[1..], Run(p, s1, calls[1..]).1)
    requires |calls| > 1 ==> Funded(p, s1, calls[1..], key)
    ensures Funded(p, s, calls, key)
  {
    var rest := calls[1..];
    var later := GrantedFor(key, rest, Run(p, s1, rest).1);
    EarnedGrows(p, 0.0, LastTime(calls) - u);
    SumsUp(p, Level(p, s.buckets, key, calls[0].now), Level(p, s1.buckets, key, u), paid, later, calls[0].now, u, LastTime(calls));
  }

  // One call and the wait until u, and then the rest until last.
  lemma {:induction false} SumsUp(p: Params, level: real, left: real, paid: nat, later: nat, now: real, u: real, last: real)
    requires p.rps >= 0.0 && now <= u <= last
    requires left + paid as real <= level + Earned(p, u - now)
    requires later as real <= left + Earned(p, last - u)
    ensures (paid + later) as real <= level + Earned(p, last - now)
  {
    EarnedSplits(p, now, u, last);
  }

  lemma {:induction false} EarnedSplits(p: Params, t: real, u: real, v: real)
    requires p.rps >= 0.0 && t <= u <= v
    ensures Earned(p, v - t) == Earned(p, u - t) + Earned(p, v - u)
  {
    EarnedGrows(p, u - t, v - t);
  }

  lemma {:induction false} GrantedHead(p: Params, s: Table, calls: seq<Call>, next: Table, v: Verdict, key: string)
    requires calls != [] && (next, v) == Step(p, s, calls[0])
    ensures GrantedFor(key, calls, Run(p, s, calls).1)
         == (if calls[0].key == key && v == Granted then 1 else 0) + GrantedFor(key, calls[1..], Run(p, next, calls[1..]).1)
  {
    RunHead(p, s, calls, next, v);
    var vs := Run(p, next, calls[1..]).1;
    assert ([v] + vs)[1..] == vs;
  }

  lemma {:induction false} LastTimeAfter(calls: seq<Call>, t: real)
    requires calls != [] && ClockRuns(calls, t)
    ensures LastTime(calls) >= calls[0].now >= t
    decreases |calls|
  {
    if |calls| > 1 {
      LastTimeAfter(calls[1..], calls[0].now);
    }
  }

  // The state after a prefix of a run, with what it keeps.
  lemma {:induction false} RunKeepsSane(p: Params, s: Table, calls: seq<Call>, t: real)
    requires Refilling(p) && 0.0 <= t && Sane(p, s.buckets, t) && ClockRuns(calls, t)
    ensures var s' := Run(p, s, calls).0;
            Sane(p, s'.buckets, if calls == [] then t else LastTime(calls))
    ensures calls != [] ==> LastTime(calls) >= t
    decreases |calls|
  {
    if calls != [] {
      StepKeepsSane(p, s, calls[0], t);
      RunKeepsSane(p, Step(p, s, calls[0]).0, calls[1..], calls[0].now);
    }
  }

  lemma {:induction false} RunHead(p: Params, s: Table, calls: seq<Call>, next: Table, v: Verdict)
    requires calls != [] && (next, v) == Step(p, s, calls[0])
    ensures Run(p, s, calls) == (Run(p, next, calls[1..]).0, [v] + Run(p, next, calls[1..]).1)
  {
  }

  lemma {:induction false} RunSplitHead(p: Params, s: Table, before: seq<Call>, after: seq<Call>, next: Table, v: Verdict)
    requires before != [] && (next, v) == Step(p, s, before[0])
    ensures Run(p, s, before) == (Run(p, next, before[1..]).0, [v] + Run(p, next, before[1..]).1)
    ensures Run(p, s, before + after) == (Run(p, next, before[1..] + after).0, [v] + Run(p, next, before[1..] + after).1)
  {
    RunHead(p, s, before, next, v);
    assert (before + after)[1..] == before[1..] + after;
    RunHead(p, s, before + after, next, v);
  }

  lemma {:induction false} RunSplit(p: Params, s: Table, before: seq<Call>, after: seq<Call>)
    ensures Run(p, s, before + after).0 == Run(p, Run(p, s, before).0, after).0
    ensures Run(p, s, before + after).1 == Run(p, s, before).1 + Run(p, Run(p, s, before).0, after).1
    decreases |before|
  {
    if before == [] {
      assert before + after == after;
    } else {
      var (next, v) := Step(p, s, before[0]);
      RunSplit(p, next, before[1..], after);
      RunSplitHead(p, s, before, after, next, v);
    }
  }

  lemma {:induction false} ClockSplit(before: seq<Call>, after: seq<Call>, t: real)
    requires ClockRuns(before + after, t)
    ensures ClockRuns(before, t)
    ensures ClockRuns(after, if before == [] then t else LastTime(before))
  {
    if before == [] {
      assert before + after == after;
    } else {
      assert (before + after)[1..] == before[1..] + after;
      ClockSplit(before[1..], after, before[0].now);
    }
  }

  // In every window of every run a key is granted at most burst + rps * length requests.
  lemma {:induction false} RateBound(p: Params, before: seq<Call>, window: seq<Call>, key: string)
    requires Refilling(p) && RefillsBeforeStale(p)
    requires window != [] && ClockRuns(before + window, 0.0)
    ensures GrantedFor(key, window, Run(p, FRESH, before + window).1[|before|..]) as real
              <= p.burst as real + Earned(p, LastTime(window) - window[0].now)
  {
    ClockSplit(before, window, 0.0);
    RunKeepsSane(p, FRESH, before, 0.0);
    RunSplit(p, FRESH, before, window);
    var s := Run(p, FRESH, before).0;
    var t := if before == [] then 0.0 else LastTime(before);
    GrantsAreFunded(p, s, window, t, key);
    assert Sane(p, s.buckets, window[0].now);
    LevelBounds(p, s, key, window[0].now, window[0].now);
  }

  // Where there is room for the key, a call is granted exactly when a whole token is there.
  lemma {:induction false} GrantedIff(p: Params, s: Table, c: Call, t: real)
    requires Refilling(p) && RefillsBeforeStale(p) && 0.0 <= t && Sane(p, s.buckets, t) && ClockFrom(c, t)
    ensures var v := Step(p, s, c).1;
            v != AtCapacity ==> (v == Granted <==> Level(p, s.buckets, c.key, c.now) >= 1.0)
    ensures Step(p, s, c).1 == AtCapacity ==> c.key !in Step(p, s, c).0.buckets && |Step(p, s, c).0.buckets| >= p.maxBuckets
  {
    var s0 := AfterPeriodicSweep(s, c);
    SweepKeepsLevel(p, s.buckets, c.key, c.sweepAt, c.now);
    SweepKeepsLevel(p, s0.buckets, c.key, c.retryAt, c.now);
    NewIsFull(p, c.now);
  }

  // ---------- A caller who keeps to the rate is never denied ----------

  // A bucket was last checked by a call with its key.
  ghost predicate CheckedByCalls(buckets: map<string, Bucket>, calls: seq<Call>) {
    forall k :: k in buckets ==> exists c :: c in calls && c.key == k && c.now == buckets[k].lastCheck
  }

  lemma {:induction false} StepIsChecked(p: Params, s: Table, before: seq<Call>, c: Call)
    requires CheckedByCalls(s.buckets, before)
    ensures CheckedByCalls(Step(p, s, c).0.buckets, before + [c])
  {
    var after := Step(p, s, c).0.buckets;
    forall k | k in after ensures exists d :: d in before + [c] && d.key == k && d.now == after[k].lastCheck {
      if k in s.buckets && after[k] == s.buckets[k] {
        var d :| d in before && d.key == k && d.now == s.buckets[k].lastCheck;
        assert d in before + [c];
      } else {
        assert c in before + [c] && after[k].lastCheck == c.now;
      }
    }
  }

  lemma {:induction false} RunIsChecked(p: Params, calls: seq<Call>)
    ensures CheckedByCalls(Run(p, FRESH, calls).0.buckets, calls)
    decreases |calls|
  {
    if calls != [] {
      var front, last := calls[..|calls| - 1], calls[|calls| - 1];
      RunIsChecked(p, front);
      StepIsChecked(p, Run(p, FRESH, front).0, front, last);
      assert calls == front + [last];
      RunSplit(p, FRESH, front, [last]);
    }
  }

  // A token earned since the last check is there to spend.
  lemma {:induction false} TokenIsThere(p: Params, b: Bucket, now: real, gap: real)
    requires Refilling(p) && p.burst >= 1 && 0.0 <= b.tokens
    requires b.lastCheck + gap <= now && 0.0 <= gap <= MAX_DURATION && Earned(p, gap) >= 1.0
    ensures Charge(p, b, now).1 == Granted
  {
    EarnedGrows(p, gap, Elapsed(now, b.lastCheck));
  }

  // A call that comes a token's time after the key's calls before it is granted, if there is
  // room for the key at all, however many other keys are about and whatever was swept.
  lemma {:induction false} SpacedCallPasses(p: Params, before: seq<Call>, c: Call, gap: real)
    requires Refilling(p) && p.burst >= 1 && ClockRuns(before + [c], 0.0)
    requires 0.0 <= gap <= MAX_DURATION && Earned(p, gap) >= 1.0
    requires forall d :: d in before && d.key == c.key ==> d.now + gap <= c.now
    ensures Step(p, Run(p, FRESH, before).0, c).1 in {Granted, AtCapacity}
  {
    var s := Run(p, FRESH, before).0;
    ClockSplit(before, [c], 0.0);
    RunKeepsSane(p, FRESH, before, 0.0);
    RunIsChecked(p, before);
    NewIsFull(p, c.now);
    if c.key in AfterPeriodicSweep(s, c).buckets {
      TokenIsThere(p, s.buckets[c.key], c.now, gap);
    }
  }

  // ---------- Without the condition the bound is broken ----------

  function Repeat(c: Call, n: nat): seq<Call> {
    seq(n, _ => c)
  }

  function CallAt(key: string, t: real): Call {
    Call(key, t, t, t)
  }

  // A key last checked now is granted as many calls as it has tokens.
  lemma {:induction false} Spend(p: Params, s: Table, key: string, t: real, n: nat)
    requires key in s.buckets && s.buckets[key].lastCheck == t
    requires n as real <= s.buckets[key].tokens <= p.burst as real
    requires s.buckets.Keys <= {"k", "f"} && key in {"k", "f"}
    ensures GrantedFor(key, Repeat(CallAt(key, t), n), Run(p, s, Repeat(CallAt(key, t), n)).1) == n
    ensures Run(p, s, Repeat(CallAt(key, t), n)).0.buckets.Keys <= {"k", "f"}
    decreases n
  {
    if n > 0 {
      var c := CallAt(key, t);
      assert Repeat(c, n)[1..] == Repeat(c, n - 1);
      Spend(p, Step(p, s, c).0, key, t, n - 1);
    }
  }

  // The first call of a key without a bucket.
  lemma {:induction false} FirstSpend(p: Params, s: Table, key: string, t: real)
    requires p.rps >= 0.0 && p.burst >= 1 && p.maxBuckets >= 2 && t >= 0.0
    requires key !in s.buckets && s.buckets.Keys <= {"k", "f"} && key in {"k", "f"}
    ensures var (s1, v) := Step(p, s, CallAt(key, t));
            && v == Granted && s1.buckets.Keys <= {"k", "f"} && key in s1.buckets
            && s1.buckets[key] == Bucket(p.burst as real - 1.0, t)
  {
    var others := if key == "k" then {"f"} else {"k"};
    SubsetSize(s.buckets.Keys, others);
    assert |others| == 1;
    SweepShrinks(s.buckets, t);
    NewIsFull(p, t);
  }

  // A key with no bucket, or whose bucket is about to be swept, is granted a whole burst.
  lemma {:induction false} SpendFresh(p: Params, s: Table, key: string, t: real)
    requires p.rps >= 0.0 && p.burst >= 1 && p.maxBuckets >= 2 && t >= 0.0
    requires key !in s.buckets && s.buckets.Keys <= {"k", "f"} && key in {"k", "f"}
    ensures var calls := Repeat(CallAt(key, t), p.burst);
            GrantedFor(key, calls, Run(p, s, calls).1) == p.burst && Run(p, s, calls).0.buckets.Keys <= {"k", "f"}
  {
    var c := CallAt(key, t);
    var calls := Repeat(c, p.burst);
    var (s1, v) := Step(p, s, c);
    FirstSpend(p, s, key, t);
    assert calls[1..] == Repeat(c, p.burst - 1);
    Spend(p, s1, key, t, p.burst - 1);
    GrantedHead(p, s, calls, s1, v, key);
    RunHead(p, s, calls, s1, v);
  }

  // Once 256 calls of another key have passed, a stale key has been swept.
  lemma {:induction false} FillersEvict(p: Params, s: Table, t: real, n: nat)
    requires s.buckets.Keys <= {"k", "f"} && 0 <= s.callCount
    requires "k" in s.buckets ==> Stale(s.buckets["k"], t) && s.callCount % CLEANUP_INTERVAL + n >= CLEANUP_INTERVAL
    ensures Run(p, s, Repeat(CallAt("f", t), n)).0.buckets.Keys <= {"f"}
    decreases n
  {
    if n > 0 {
      var c := CallAt("f", t);
      assert Repeat(c, n)[1..] == Repeat(c, n - 1);
      var s1 := Step(p, s, c).0;
      CountModulo(s.callCount);
      FillersEvict(p, s1, t, n - 1);
    }
  }

  lemma {:induction false} CountModulo(n: int)
    requires 0 <= n
    ensures var m := (n + 1) % UINT64_RANGE;
            0 <= m && m % CLEANUP_INTERVAL == (if n % CLEANUP_INTERVAL == CLEANUP_INTERVAL - 1 then 0 else n % CLEANUP_INTERVAL + 1)
  {
    var m, q := (n + 1) % UINT64_RANGE, (n + 1) / UINT64_RANGE;
    assert n + 1 == q * UINT64_RANGE + m == (q * (UINT64_RANGE / CLEANUP_INTERVAL)) * CLEANUP_INTERVAL + m;
    ModShift(q * (UINT64_RANGE / CLEANUP_INTERVAL), m);
  }

  lemma {:induction false} ModShift(q: int, m: int)
    ensures (q * CLEANUP_INTERVAL + m) % CLEANUP_INTERVAL == m % CLEANUP_INTERVAL
  {
  }

  lemma {:induction false} GrantedSplit(key: string, a: seq<Call>, b: seq<Call>, va: seq<Verdict>, vb: seq<Verdict>)
    requires |a| == |va|
    ensures GrantedFor(key, a + b, va + vb) == GrantedFor(key, a, va) + GrantedFor(key, b, vb)
  {
    if a == [] {
      assert a + b == b && va + vb == vb;
    } else {
      assert (a + b)[1..] == a[1..] + b && (va + vb)[1..] == va[1..] + vb;
      GrantedSplit(key, a[1..], b, va[1..], vb);
    }
  }

  lemma {:induction false} RepeatClock(c: Call, n: nat, t: real, rest: seq<Call>)
    requires c.sweepAt == c.retryAt == c.now && t <= c.now && ClockRuns(rest, c.now)
    requires n > 0
    ensures ClockRuns(Repeat(c, n) + rest, t)
  {
    assert (Repeat(c, n) + rest)[1..] == Repeat(c, n - 1) + rest;
    if n == 1 {
      assert Repeat(c, 0) + rest == rest;
    } else {
      RepeatClock(c, n - 1, c.now, rest);
    }
  }

  // How long to wait after spending a burst so that the bucket is swept before it refills.
  function Pause(p: Params): real {
    if p.rps <= 0.0 then STALE_BUCKET_TTL + 1.0
    else (STALE_BUCKET_TTL + p.burst as real / p.rps) / 2.0
  }

  lemma {:induction false} PauseIsShort(p: Params)
    requires p.rps >= 0.0 && p.burst >= 1 && !RefillsBeforeStale(p)
    ensures Pause(p) > STALE_BUCKET_TTL && Earned(p, Pause(p)) < p.burst as real
  {
    if p.rps > 0.0 {
      var full := p.burst as real / p.rps;
      assert Earned(p, full) == p.burst as real;
      if full <= STALE_BUCKET_TTL {
        EarnedGrows(p, full, STALE_BUCKET_TTL);
      }
      assert Earned(p, Pause(p)) == (Earned(p, STALE_BUCKET_TTL) + Earned(p, full)) / 2.0;
    }
  }

  // A burst, a pause long enough to be swept, and another burst.
  function EvictionRun(p: Params): seq<Call>
    requires p.burst >= 1
  {
    Repeat(CallAt("k", 1.0), p.burst)
    + (Repeat(CallAt("f", 1.0 + Pause(p)), CLEANUP_INTERVAL) + Repeat(CallAt("k", 1.0 + Pause(p)), p.burst))
  }

  lemma {:induction false} EvictionRunGrants(p: Params)
    requires p.rps >= 0.0 && p.burst >= 1 && p.maxBuckets >= 2 && !RefillsBeforeStale(p)
    ensures ClockRuns(EvictionRun(p), 0.0)
    ensures GrantedFor("k", EvictionRun(p), Run(p, FRESH, EvictionRun(p)).1) >= 2 * p.burst
  {
    PauseIsShort(p);
    var u := 1.0 + Pause(p);
    var a, b, c := Repeat(CallAt("k", 1.0), p.burst), Repeat(CallAt("f", u), CLEANUP_INTERVAL), Repeat(CallAt("k", u), p.burst);
    assert c + [] == c;
    RepeatClock(CallAt("k", u), p.burst, u, []);
    RepeatClock(CallAt("f", u), CLEANUP_INTERVAL, 1.0, c);
    RepeatClock(CallAt("k", 1.0), p.burst, 0.0, b + c);
    EvictionRunCounts(p, u, a, b, c);
  }

  lemma {:induction false} EvictionRunCounts(p: Params, u: real, a: seq<Call>, b: seq<Call>, c: seq<Call>)
    requires p.rps >= 0.0 && p.burst >= 1 && p.maxBuckets >= 2 && u > 1.0 + STALE_BUCKET_TTL
    requires a == Repeat(CallAt("k", 1.0), p.burst) && c == Repeat(CallAt("k", u), p.burst)
    requires b == Repeat(CallAt("f", u), CLEANUP_INTERVAL)
    ensures GrantedFor("k", a + (b + c), Run(p, FRESH, a + (b + c)).1) >= 2 * p.burst
  {
    var s1 := Run(p, FRESH, a).0;
    var s2 := Run(p, s1, b).0;
    var va, vb, vc := Run(p, FRESH, a).1, Run(p, s1, b).1, Run(p, s2, c).1;
    assert GrantedFor("k", a, va) == p.burst by {
      SpendFresh(p, FRESH, "k", 1.0);
    }
    assert s2.buckets.Keys <= {"f"} by {
      BurstLeavesOneKey(p, FRESH, 1.0, p.burst);
      FillersEvict(p, s1, u, CLEANUP_INTERVAL);
    }
    assert GrantedFor("k", c, vc) == p.burst by {
      SpendFresh(p, s2, "k", u);
    }
    RunSplit(p, FRESH, a, b + c);
    RunSplit(p, s1, b, c);
    GrantedSplit("k", b, c, vb, vc);
    GrantedSplit("k", a, b + c, va, vb + vc);
  }

  lemma {:induction false} BurstLeavesOneKey(p: Params, s: Table, t: real, n: nat)
    requires s.buckets.Keys <= {"k"} && 0 <= s.callCount
    requires "k" in s.buckets ==> s.buckets["k"].lastCheck <= t
    ensures var s' := Run(p, s, Repeat(CallAt("k", t), n)).0;
            && s'.buckets.Keys <= {"k"} && 0 <= s'.callCount
            && ("k" in s'.buckets ==> s'.buckets["k"].lastCheck <= t)
    decreases n
  {
    if n > 0 {
      var c := CallAt("k", t);
      assert Repeat(c, n)[1..] == Repeat(c, n - 1);
      BurstLeavesOneKey(p, Step(p, s, c).0, t, n - 1);
    }
  }

  ghost predicate BoundAlwaysHolds(p: Params) {
    forall before: seq<Call>, window: seq<Call>, key: string ::
      window != [] && ClockRuns(before + window, 0.0) ==>
        GrantedFor(key, window, Run(p, FRESH, before + window).1[|before|..]) as real
          <= p.burst as real + Earned(p, LastTime(window) - window[0].now)
  }

  // The rate bound holds of every window of every run exactly when the burst is not negative
  // and an idle bucket refills before it goes stale.
  lemma {:induction false} RateBoundIff(p: Params)
    requires p.rps >= 0.0 && p.maxBuckets >= 2
    ensures BoundAlwaysHolds(p) <==> p.burst >= 0 && RefillsBeforeStale(p)
  {
    if p.burst < 0 {
      NegativeBurst(p);
    } else if RefillsBeforeStale(p) {
      forall before: seq<Call>, window: seq<Call>, key: string | window != [] && ClockRuns(before + window, 0.0)
        ensures GrantedFor(key, window, Run(p, FRESH, before + window).1[|before|..]) as real
                  <= p.burst as real + Earned(p, LastTime(window) - window[0].now)
      {
        RateBound(p, before, window, key);
      }
    } else {
      BoundBroken(p);
    }
  }

  // Nothing is still more than a negative number.
  lemma {:induction false} NegativeBurst(p: Params)
    requires p.burst < 0
    ensures !BoundAlwaysHolds(p)
  {
    var none: seq<Call>, window := [], [CallAt("k", 1.0)];
    assert none + window == window;
    assert ClockRuns(window, 0.0);
    assert LastTime(window) - window[0].now == 0.0 && Earned(p, 0.0) == 0.0;
    assert GrantedFor("k", window, Run(p, FRESH, none + window).1[|none|..]) as real
             > p.burst as real + Earned(p, LastTime(window) - window[0].now);
  }

  lemma {:induction false} BoundBroken(p: Params)
    requires p.rps >= 0.0 && p.burst >= 0 && p.maxBuckets >= 2 && !RefillsBeforeStale(p)
    ensures !BoundAlwaysHolds(p)
  {
    EarnedGrows(p, 0.0, STALE_BUCKET_TTL);
    EvictionRunGrants(p);
    PauseIsShort(p);
    var calls := EvictionRun(p);
    assert calls[0].now == 1.0 && LastTime(calls) == 1.0 + Pause(p);
    var none: seq<Call> := [];
    assert none + calls == calls && Run(p, FRESH, calls).1[|none|..] == Run(p, FRESH, calls).1;
  }

  // ---------- Eviction is invisible ----------

  // The same limiter with neither sweeps nor a bound on the number of buckets.
  function UnboundedStep(p: Params, buckets: map<string, Bucket>, c: Call): (map<string, Bucket>, Verdict) {
    var (b, v) := Charge(p, if c.key in buckets then buckets[c.key] else NewBucket(p), c.now);
    (buckets[c.key := b], v)
  }

  // The unbounded limiter's verdicts on the calls that the bounded one did not turn away for
  // lack of room; it does not see the others.
  function UnboundedRun(p: Params, buckets: map<string, Bucket>, calls: seq<Call>, bounded: seq<Verdict>): seq<Verdict>
    requires |calls| == |bounded|
    decreases |calls|
  {
    if calls == [] then []
    else if bounded[0] == AtCapacity then [AtCapacity] + UnboundedRun(p, buckets, calls[1..], bounded[1..])
    else
      var (next, v) := UnboundedStep(p, buckets, calls[0]);
      [v] + UnboundedRun(p, next, calls[1..], bounded[1..])
  }

  // The bounded map holds the same buckets, but for some that were stale by t.
  ghost predicate SameButStale(bounded: map<string, Bucket>, unbounded: map<string, Bucket>, t: real) {
    && (forall k :: k in bounded ==> k in unbounded && unbounded[k] == bounded[k])
    && (forall k :: k in unbounded && k !in bounded ==> unbounded[k].lastCheck + STALE_BUCKET_TTL <= t)
  }

  lemma {:induction false} StepMatchesUnbounded(p: Params, s: Table, m: map<string, Bucket>, c: Call, t: real)
    requires Refilling(p) && RefillsBeforeStale(p) && 0.0 <= t
    requires Sane(p, m, t) && SameButStale(s.buckets, m, t) && ClockFrom(c, t)
    ensures var (s1, v) := Step(p, s, c);
            if v == AtCapacity then SameButStale(s1.buckets, m, c.now)
            else var (m1, w) := UnboundedStep(p, m, c);
                 v == w && SameButStale(s1.buckets, m1, c.now) && Sane(p, m1, c.now)
  {
    NewIsFull(p, c.now);
    if c.key in m {
      RefillSlack(p, m[c.key], c.now, c.now);
      if m[c.key].lastCheck + STALE_BUCKET_TTL <= c.now {
        StaleIsFull(p, m[c.key], c.now);
      }
    }
  }

  lemma {:induction false} RunMatchesUnbounded(p: Params, s: Table, m: map<string, Bucket>, calls: seq<Call>, t: real)
    requires Refilling(p) && RefillsBeforeStale(p) && 0.0 <= t
    requires Sane(p, m, t) && SameButStale(s.buckets, m, t) && ClockRuns(calls, t)
    ensures UnboundedRun(p, m, calls, Run(p, s, calls).1) == Run(p, s, calls).1
    decreases |calls|
  {
    if calls != [] {
      var c := calls[0];
      StepMatchesUnbounded(p, s, m, c, t);
      var (s1, v) := Step(p, s, c);
      assert Run(p, s, calls).1 == [v] + Run(p, s1, calls[1..]).1;
      assert Run(p, s, calls).1[1..] == Run(p, s1, calls[1..]).1;
      RunMatchesUnbounded(p, s1, if v == AtCapacity then m else UnboundedStep(p, m, c).0, calls[1..], c.now);
    }
  }

  // Provided idle buckets refill before they go stale, no client can tell the limiter from
  // one that never forgets a key, except by being turned away for lack of room.
  lemma {:induction false} EvictionIsInvisible(p: Params, calls: seq<Call>)
    requires Refilling(p) && RefillsBeforeStale(p) && ClockRuns(calls, 0.0)
    ensures UnboundedRun(p, map[], calls, Run(p, FRESH, calls).1) == Run(p, FRESH, calls).1
  {
    RunMatchesUnbounded(p, FRESH, map[], calls, 0.0);
  }

  // However many keys call, the map never holds more than maxBuckets of them.
  lemma {:induction false} MapStaysBounded(p: Params, s: Table, calls: seq<Call>)
    requires Roomy(p, s.buckets)
    ensures Roomy(p, Run(p, s, calls).0.buckets)
    decreases |calls|
  {
    if calls != [] {
      StepKeepsRoomy(p, s, calls[0]);
      MapStaysBounded(p, Step(p, s, calls[0]).0, calls[1..]);
    }
  }
}
