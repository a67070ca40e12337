/**
The token-bucket rate limiter, over real numbers.

Clocks are read before buckets are locked, so checks and evictions may reach a bucket out of clock order.
The laws below are for arbitrary clocks: eviction is invisible as long as no check is more than the
minute of grace behind an eviction, and a key's clock going backwards costs at most its rate times the
way back.
*/
module RateLimit {
  import opened Wrappers

  type Key = nat

  datatype Bucket = Bucket(tokens: real, lastRefill: real)

  type Buckets = map<Key, Bucket>

  datatype Limits = Limits(rate: real, burst: real)

  predicate Sane(l: Limits) {
    l.rate >= 0.1 && l.burst >= 1.0
  }

  datatype Answer = Allowed | Retry(after: real)

  function Max(a: real, b: real): real {
    if a > b then a else b
  }

  function Min(a: real, b: real): real {
    if a < b then a else b
  }

  /** `duration_since` of a later instant is zero. */
  function Elapsed(now: real, then_: real): real {
    Max(now - then_, 0.0)
  }

  /** Tokens a key can draw on at time x; a key without a bucket gets a full one. */
  function Available(l: Limits, b: Option<Bucket>, x: real): real {
    match b
    case None => l.burst
    case Some(bucket) => Min(bucket.tokens + Elapsed(x, bucket.lastRefill) * l.rate, l.burst)
  }

  function CheckBucket(l: Limits, b: Option<Bucket>, now: real): (Bucket, Answer)
    requires l.rate != 0.0
  {
    var tokens := Available(l, b, now);
    if tokens >= 1.0 then (Bucket(tokens - 1.0, now), Allowed)
    else (Bucket(tokens, now), Retry((1.0 - tokens) / l.rate))
  }

  function Lookup(m: Buckets, key: Key): Option<Bucket> {
    if key in m then Some(m[key]) else None
  }

  /** Seconds a bucket is kept after it must be full again. */
  const GRACE: real := 60.0

  predicate Stale(l: Limits, b: Bucket, now: real)
    requires l.rate != 0.0
  {
    Elapsed(now, b.lastRefill) >= l.burst / l.rate + GRACE
  }

  class RateLimiter {
    const limits: Limits
    var buckets: Buckets

    constructor (rate: real, burst: real)
      ensures Sane(limits) && buckets == map[]
      ensures limits == Limits(Max(rate, 0.1), Max(burst, 1.0))
    {
      limits := Limits(Max(rate, 0.1), Max(burst, 1.0));
      buckets := map[];
    }

    method Check(key: Key, now: real) returns (answer: Answer)
      requires Sane(limits)
      modifies this
      ensures var (bucket, a) := CheckBucket(limits, Lookup(old(buckets), key), now);
              buckets == old(buckets)[key := bucket] && answer == a
    {
      var bucket := if key in buckets then buckets[key] else Bucket(limits.burst, now);
      NewBucketFull(limits, now);
      var tokens := Min(bucket.tokens + Elapsed(now, bucket.lastRefill) * limits.rate, limits.burst);
      assert tokens == Available(limits, Lookup(buckets, key), now);
      if tokens >= 1.0 {
        buckets := buckets[key := Bucket(tokens - 1.0, now)];
        return Allowed;
      }
      buckets := buckets[key := Bucket(tokens, now)];
      return Retry((1.0 - tokens) / limits.rate);
    }

    method EvictStale(now: real)
      requires Sane(limits)
      modifies this
      ensures buckets == Evicted(limits, old(buckets), now)
    {
      buckets := map k | k in buckets && Elapsed(now, buckets[k].lastRefill) < limits.burst / limits.rate + GRACE :: buckets[k];
    }
  }

  function Evicted(l: Limits, m: Buckets, now: real): Buckets
    requires l.rate != 0.0
  {
    map k | k in m && !Stale(l, m[k], now) :: m[k]
  }

  // ---- Runs ---------------------------------------------------------------------------------

  datatype Op = CheckOp(key: Key, now: real) | EvictOp(now: real)

  /** The buckets after one operation.  With `evicting` off, eviction does nothing. */
  function Step(l: Limits, m: Buckets, op: Op, evicting: bool): Buckets
    requires l.rate != 0.0
  {
    match op
    case CheckOp(key, now) => m[key := CheckBucket(l, Lookup(m, key), now).0]
    case EvictOp(now) => if evicting then Evicted(l, m, now) else m
  }

  /** What each operation of a run answers; eviction answers nothing. */
  function Answers(l: Limits, m: Buckets, ops: seq<Op>, evicting: bool): seq<Option<Answer>>
    requires l.rate != 0.0
    decreases |ops|
  {
    if ops == [] then []
    else
      [if ops[0].CheckOp? then Some(CheckBucket(l, Lookup(m, ops[0].key), ops[0].now).1) else None] +
      Answers(l, Step(l, m, ops[0], evicting), ops[1..], evicting)
  }

  predicate TokensOk(l: Limits, b: Option<Bucket>) {
    b.Some? ==> 0.0 <= b.value.tokens <= l.burst
  }

  // ---- Arithmetic ---------------------------------------------------------------------------

  lemma MulMono(a: real, b: real, c: real)
    requires a <= b && c >= 0.0
    ensures a * c <= b * c
  {
  }

  lemma MulNonNegative(a: real, b: real)
    requires a >= 0.0 && b >= 0.0
    ensures a * b >= 0.0
  {
  }

  lemma MulSplit(a: real, b: real, c: real)
    ensures (a + b) * c == a * c + b * c
  {
  }

  /** Comparing quotients. */
  lemma DivLe(a: real, b: real, c: real)
    requires c > 0.0
    ensures a / c <= b / c <==> a <= b
  {
    var x, y := a / c, b / c;
    assert x * c == a && y * c == b;
    if x <= y {
      MulMono(x, y, c);
    } else {
      assert (x - y) * c > 0.0;
      MulSplit(x - y, y, c);
    }
  }

  lemma DivSplit(a: real, b: real, c: real)
    requires c > 0.0
    ensures (a + b) / c == a / c + b / c
  {
  }

  lemma NewBucketFull(l: Limits, now: real)
    ensures Available(l, Some(Bucket(l.burst, now)), now) == l.burst
  {
    assert 0.0 * l.rate == 0.0;
  }

  lemma CheckTokens(l: Limits, b: Option<Bucket>, now: real)
    requires Sane(l) && TokensOk(l, b)
    ensures 0.0 <= Available(l, b, now) <= l.burst
    ensures TokensOk(l, Some(CheckBucket(l, b, now).0))
  {
    if b.Some? {
      MulNonNegative(Elapsed(now, b.value.lastRefill), l.rate);
    }
  }

  /** Once burst / rate has passed, a bucket is full. */
  lemma FullAgain(l: Limits, b: Bucket, x: real)
    requires Sane(l) && b.tokens >= 0.0 && x - b.lastRefill >= l.burst / l.rate
    ensures Available(l, Some(b), x) == l.burst
  {
    var full := l.burst / l.rate;
    assert full * l.rate == l.burst;
    assert full >= 0.0;
    MulMono(full, x - b.lastRefill, l.rate);
  }

  // ---- Eviction is transparent ----------------------------------------------------------------

  /** The largest eviction clock so far. */
  function Later(latest: Option<real>, op: Op): Option<real> {
    match op
    case CheckOp(_, _) => latest
    case EvictOp(now) => Some(if latest.Some? then Max(latest.value, now) else now)
  }

  /** No check is more than `lag` behind an earlier eviction.  Checks of one key, of different keys, and
      evictions may otherwise come in any clock order. */
  predicate Within(lag: real, latest: Option<real>, ops: seq<Op>)
    decreases |ops|
  {
    ops == [] ||
    ((ops[0].CheckOp? && latest.Some? ==> ops[0].now >= latest.value - lag) && Within(lag, Later(latest, ops[0]), ops[1..]))
  }

  /** An evicting and a never-evicting limiter agree on a key: same bucket, or the evicting one has
      dropped a bucket that was stale for some eviction. */
  predicate Agree(l: Limits, e: Option<Bucket>, n: Option<Bucket>, latest: Option<real>)
    requires l.rate != 0.0
  {
    && TokensOk(l, n)
    && (e == n || (e.None? && latest.Some? && latest.value - n.value.lastRefill >= l.burst / l.rate + GRACE))
  }

  lemma AgreeCheck(l: Limits, e: Option<Bucket>, n: Option<Bucket>, latest: Option<real>, now: real)
    requires Sane(l) && Agree(l, e, n, latest) && (latest.Some? ==> now >= latest.value - GRACE)
    ensures CheckBucket(l, e, now) == CheckBucket(l, n, now)
    ensures TokensOk(l, Some(CheckBucket(l, n, now).0))
  {
    if e != n {
      FullAgain(l, n.value, now);
    }
    CheckTokens(l, n, now);
  }

  lemma {:induction false} SameAnswers(l: Limits, latest: Option<real>, e: Buckets, n: Buckets, ops: seq<Op>)
    requires Sane(l) && Within(GRACE, latest, ops)
    requires forall k :: Agree(l, Lookup(e, k), Lookup(n, k), latest)
    ensures Answers(l, e, ops, true) == Answers(l, n, ops, false)
    decreases |ops|
  {
    if ops != [] {
      var op := ops[0];
      var e', n' := Step(l, e, op, true), Step(l, n, op, false);
      if op.CheckOp? {
        AgreeCheck(l, Lookup(e, op.key), Lookup(n, op.key), latest, op.now);
      }
      forall k
        ensures Agree(l, Lookup(e', k), Lookup(n', k), Later(latest, op))
      {
        assert Agree(l, Lookup(e, k), Lookup(n, k), latest);
      }
      SameAnswers(l, Later(latest, op), e', n', ops[1..]);
    }
  }

  /** A limiter that evicts answers every check like one that never evicts, whatever the clocks of the
      evictions, as long as no check is more than the grace behind one of them. */
  lemma EvictionTransparent(l: Limits, ops: seq<Op>)
    requires Sane(l) && Within(GRACE, None, ops)
    ensures Answers(l, map[], ops, true) == Answers(l, map[], ops, false)
  {
    SameAnswers(l, None, map[], map[], ops);
  }

  /** A check that comes in later than that can be answered differently. */
  lemma LateCheckDiffers(k: Key, lag: real)
    requires GRACE < lag <= GRACE + 1.0
    ensures var l := Limits(1.0, 1.0); var ops := [CheckOp(k, 0.0), EvictOp(61.0), CheckOp(k, 61.0 - lag)];
            Within(lag, None, ops) && Answers(l, map[], ops, true) != Answers(l, map[], ops, false)
  {
    var l := Limits(1.0, 1.0);
    var ops := [CheckOp(k, 0.0), EvictOp(61.0), CheckOp(k, 61.0 - lag)];
    assert ops[1..][1..] == [ops[2]] && [ops[2]][1..] == [];
    assert Within(lag, Some(61.0), [ops[2]]) && Within(lag, None, ops[1..]);
    var m := Step(l, map[], ops[0], true);
    assert m == map[k := Bucket(0.0, 0.0)];
    assert Stale(l, m[k], 61.0);
    assert Step(l, m, ops[1], true) == map[] && Step(l, m, ops[1], false) == m;
    assert Available(l, Some(m[k]), 61.0 - lag) < 1.0;
    LastAnswer(l, ops, true);
    LastAnswer(l, ops, false);
  }

  lemma LastAnswer(l: Limits, ops: seq<Op>, evicting: bool)
    requires l.rate != 0.0 && |ops| == 3
    ensures var m := Step(l, Step(l, map[], ops[0], evicting), ops[1], evicting);
            |Answers(l, map[], ops, evicting)| == 3 && Answers(l, map[], ops, evicting)[2] == Answers(l, m, [ops[2]], evicting)[0]
  {
    var m1 := Step(l, map[], ops[0], evicting);
    var m2 := Step(l, m1, ops[1], evicting);
    assert ops[1..][1..] == [ops[2]] && [ops[2]][1..] == [];
    assert Answers(l, Step(l, m2, ops[2], evicting), [], evicting) == [];
    assert |Answers(l, m2, [ops[2]], evicting)| == 1;
    assert |Answers(l, m1, ops[1..], evicting)| == 2;
  }

  /** The grace is exactly what eviction needs: a lag is safe for all limits and all runs if and only if
      it is within the grace. */
  lemma GraceIsExact(lag: real)
    ensures (forall l, ops :: Sane(l) && Within(lag, None, ops) ==> Answers(l, map[], ops, true) == Answers(l, map[], ops, false))
            <==> lag <= GRACE
  {
    if lag <= GRACE {
      forall l, ops | Sane(l) && Within(lag, None, ops)
        ensures Answers(l, map[], ops, true) == Answers(l, map[], ops, false)
      {
        WithinMore(lag, GRACE, None, ops);
        EvictionTransparent(l, ops);
      }
    } else {
      var small := Min(lag, GRACE + 1.0);
      var ops := [CheckOp(0, 0.0), EvictOp(61.0), CheckOp(0, 61.0 - small)];
      LateCheckDiffers(0, small);
      WithinMore(small, lag, None, ops);
      assert Sane(Limits(1.0, 1.0));
    }
  }

  lemma {:induction false} WithinMore(lag: real, more: real, latest: Option<real>, ops: seq<Op>)
    requires lag <= more && Within(lag, latest, ops)
    ensures Within(more, latest, ops)
    decreases |ops|
  {
    if ops != [] {
      WithinMore(lag, more, Later(latest, ops[0]), ops[1..]);
    }
  }

  // ---- The rate bound -------------------------------------------------------------------------

  /** Checks of key k answered `Allowed` at times within [s, t]. */
  function AllowedWithin(l: Limits, m: Buckets, ops: seq<Op>, k: Key, s: real, t: real): nat
    requires l.rate != 0.0
    decreases |ops|
  {
    if ops == [] then 0
    else
      (if ops[0].CheckOp? && ops[0].key == k && s <= ops[0].now <= t &&
          Answers(l, m, ops, true)[0] == Some(Allowed) then 1 else 0) +
      AllowedWithin(l, Step(l, m, ops[0], true), ops[1..], k, s, t)
  }

  /** Where k's clock stands: at its last check, or at the latest eviction less the grace. */
  function Position(k: Key, at: Option<real>, op: Op): Option<real> {
    match op
    case CheckOp(key, now) => if key == k then Some(now) else at
    case EvictOp(now) => if at.Some? then Some(Max(at.value, now - GRACE)) else None
  }

  /** How far an operation moves k's clock back. */
  function Back(k: Key, at: Option<real>, op: Op): (d: real)
    ensures d >= 0.0
  {
    if op.CheckOp? && op.key == k && at.Some? then Max(at.value - op.now, 0.0) else 0.0
  }

  /** How far a run moves k's clock back, in all. */
  function Rewound(k: Key, at: Option<real>, ops: seq<Op>): (d: real)
    ensures d >= 0.0
    decreases |ops|
  {
    if ops == [] then 0.0 else Back(k, at, ops[0]) + Rewound(k, Position(k, at, ops[0]), ops[1..])
  }

  /** k's clock never moves back: its checks are in order, and none is more than the grace behind an
      eviction. */
  predicate InOrder(k: Key, at: Option<real>, ops: seq<Op>)
    decreases |ops|
  {
    ops == [] ||
    ((ops[0].CheckOp? && ops[0].key == k && at.Some? ==> at.value <= ops[0].now) && InOrder(k, Position(k, at, ops[0]), ops[1..]))
  }

  lemma {:induction false} InOrderIffNotRewound(k: Key, at: Option<real>, ops: seq<Op>)
    ensures InOrder(k, at, ops) <==> Rewound(k, at, ops) == 0.0
    decreases |ops|
  {
    if ops != [] {
      InOrderIffNotRewound(k, Position(k, at, ops[0]), ops[1..]);
    }
  }

  // ---- Buckets as meters ----------------------------------------------------------------------

  // Measured in the seconds until it is full, a bucket moves at unit speed, and one token is `1 / rate`
  // seconds.  In this measure the argument is linear.

  datatype Meter = Meter(lack: real, at: real)

  function MeterOf(l: Limits, b: Option<Bucket>): Option<Meter>
    requires l.rate != 0.0
  {
    if b.Some? then Some(Meter((l.burst - b.value.tokens) / l.rate, b.value.lastRefill)) else None
  }

  function LackAt(m: Option<Meter>, x: real): real {
    if m.Some? then Max(m.value.lack - Elapsed(x, m.value.at), 0.0) else 0.0
  }

  lemma LackIs(l: Limits, b: Option<Bucket>, x: real)
    requires Sane(l) && TokensOk(l, b)
    ensures LackAt(MeterOf(l, b), x) == (l.burst - Available(l, b, x)) / l.rate
  {
    if b.Some? {
      var elapsed := Elapsed(x, b.value.lastRefill);
      var lack := l.burst - b.value.tokens;
      assert elapsed * l.rate / l.rate == elapsed;
      DivSplit(lack - elapsed * l.rate, elapsed * l.rate, l.rate);
      DivLe(0.0, lack - elapsed * l.rate, l.rate);
    }
  }

  /** A check, on the meter. */
  lemma CheckMeter(l: Limits, b: Option<Bucket>, now: real)
    requires Sane(l) && TokensOk(l, b)
    ensures var (bucket, answer) := CheckBucket(l, b, now);
            var lack := LackAt(MeterOf(l, b), now);
            && (answer.Allowed? <==> lack + 1.0 / l.rate <= l.burst / l.rate)
            && MeterOf(l, Some(bucket)) == Some(Meter(lack + if answer.Allowed? then 1.0 / l.rate else 0.0, now))
  {
    LackIs(l, b, now);
    var short := l.burst - Available(l, b, now);
    DivSplit(short, 1.0, l.rate);
    DivLe(short + 1.0, l.burst, l.rate);
  }

  lemma MeterOk(l: Limits, b: Option<Bucket>)
    requires Sane(l) && TokensOk(l, b)
    ensures MeterOf(l, b).Some? ==> 0.0 <= MeterOf(l, b).value.lack <= l.burst / l.rate
  {
    if b.Some? {
      DivLe(0.0, l.burst - b.value.tokens, l.rate);
      DivLe(l.burst - b.value.tokens, l.burst, l.rate);
    }
  }

  /** Seconds of credit up to time t, seen from x, with a full meter worth `full`.  It is a debt when x
      is far beyond t. */
  function Room(full: real, m: Option<Meter>, x: real, t: real): real {
    full - LackAt(m, x) + (t - x)
  }

  /** Does this answer count in [s, t]? */
  predicate Counted(allowed: bool, now: real, s: real, t: real) {
    allowed && s <= now <= t
  }

  /** A check pays for what it allows, up to the way it moves the clock back. */
  lemma CheckRoom(full: real, unit: real, m: Option<Meter>, at: real, now: real, s: real, t: real, allowed: bool)
    requires unit > 0.0 && s <= t && (m.Some? ==> m.value.lack >= 0.0 && m.value.at <= at)
    requires allowed ==> LackAt(m, now) + unit <= full
    ensures var n := Some(Meter(LackAt(m, now) + if allowed then unit else 0.0, now));
            && Room(full, n, Max(now, s), t) + (if Counted(allowed, now, s, t) then unit else 0.0) <=
               Room(full, m, Max(at, s), t) + Max(at - now, 0.0)
            && (Counted(allowed, now, s, t) ==> Room(full, n, Max(now, s), t) >= 0.0)
  {
  }

  /** An eviction leaves the credit, or takes some away. */
  lemma EvictRoom(full: real, m: Option<Meter>, at: real, now: real, s: real, t: real)
    requires m.Some? ==> 0.0 <= m.value.lack <= full && m.value.at <= at
    ensures var n := if m.Some? && Elapsed(now, m.value.at) >= full + GRACE then None else m;
            var to := Max(at, now - GRACE);
            (n.Some? ==> n.value.at <= to) && (full >= 0.0 ==> Room(full, n, Max(to, s), t) <= Room(full, m, Max(at, s), t))
  {
  }

  /** Where the interval starts for a key whose clock stands there. */
  function Start(at: Option<real>, s: real): real {
    if at.Some? then Max(at.value, s) else s
  }

  predicate Standing(l: Limits, b: Option<Bucket>, at: Option<real>) {
    && TokensOk(l, b)
    && (b.Some? ==> at.Some? && b.value.lastRefill <= at.value)
  }

  /** One operation, in seconds of k's credit. */
  lemma StepRoom(l: Limits, m: Buckets, op: Op, k: Key, at: Option<real>, s: real, t: real)
    requires Sane(l) && Standing(l, Lookup(m, k), at) && s <= t
    ensures var b, b', at' := Lookup(m, k), Lookup(Step(l, m, op, true), k), Position(k, at, op);
            var full, unit := l.burst / l.rate, 1.0 / l.rate;
            var counted := op.CheckOp? && op.key == k && Counted(CheckBucket(l, b, op.now).1.Allowed?, op.now, s, t);
            && Standing(l, b', at')
            && Room(full, MeterOf(l, b'), Start(at', s), t) + (if counted then unit else 0.0) <=
               Room(full, MeterOf(l, b), Start(at, s), t) + Back(k, at, op)
            && (counted ==> Room(full, MeterOf(l, b'), Start(at', s), t) >= 0.0)
  {
    var b := Lookup(m, k);
    DivLe(0.0, l.burst, l.rate);
    DivLe(0.0, 1.0, l.rate);
    DivLe(1.0, 0.0, l.rate);
    MeterOk(l, b);
    if op.EvictOp? {
      assert Lookup(Step(l, m, op, true), k) == if b.Some? && Stale(l, b.value, op.now) then None else b;
      if at.Some? {
        EvictRoom(l.burst / l.rate, MeterOf(l, b), at.value, op.now, s, t);
      }
    } else if op.key == k {
      CheckTokens(l, b, op.now);
      CheckMeter(l, b, op.now);
      CheckRoom(l.burst / l.rate, 1.0 / l.rate, MeterOf(l, b), if at.Some? then at.value else Min(op.now, s), op.now, s, t,
                CheckBucket(l, b, op.now).1.Allowed?);
    }
  }

  /** `count` tokens of `unit` seconds. */
  function Seconds(count: nat, unit: real): real {
    if count == 0 then 0.0 else unit + Seconds(count - 1, unit)
  }

  lemma {:induction false} SecondsIs(count: nat, unit: real)
    ensures Seconds(count, unit) == count as real * unit
  {
    if count > 0 {
      SecondsIs(count - 1, unit);
      MulSplit((count - 1) as real, 1.0, unit);
    }
  }

  lemma {:induction false} BoundFrom(l: Limits, m: Buckets, ops: seq<Op>, k: Key, at: Option<real>, s: real, t: real)
    requires Sane(l) && Standing(l, Lookup(m, k), at) && s <= t
    ensures var count := AllowedWithin(l, m, ops, k, s, t);
            count == 0 || Seconds(count, 1.0 / l.rate) <=
                          Room(l.burst / l.rate, MeterOf(l, Lookup(m, k)), Start(at, s), t) + Rewound(k, at, ops)
    decreases |ops|
  {
    if ops != [] {
      StepRoom(l, m, ops[0], k, at, s, t);
      BoundFrom(l, Step(l, m, ops[0], true), ops[1..], k, Position(k, at, ops[0]), s, t);
    }
  }

  /** Do the full bucket and what it earns in a + b seconds pay for the count? */
  predicate Covered(l: Limits, count: nat, a: real, b: real)
    requires l.rate != 0.0
  {
    count == 0 || Seconds(count, 1.0 / l.rate) <= l.burst / l.rate + (a + b)
  }

  lemma BoundFromStart(l: Limits, ops: seq<Op>, k: Key, s: real, t: real)
    requires Sane(l) && s <= t
    ensures var count := AllowedWithin(l, map[], ops, k, s, t);
            Covered(l, count, t - s, Rewound(k, None, ops))
  {
    BoundFrom(l, map[], ops, k, None, s, t);
    assert Lookup(map[], k) == None && MeterOf(l, None) == None;
    assert Room(l.burst / l.rate, None, s, t) == l.burst / l.rate + (t - s);
  }

  /** Back from seconds to tokens. */
  lemma Tokens(l: Limits, count: nat, a: real, b: real)
    requires Sane(l) && a >= 0.0 && b >= 0.0
    requires Covered(l, count, a, b)
    ensures count as real <= l.burst + l.rate * a + l.rate * b
  {
    MulNonNegative(a, l.rate);
    MulNonNegative(b, l.rate);
    if count > 0 {
      var unit := 1.0 / l.rate;
      SecondsIs(count, unit);
      assert unit * l.rate == 1.0;
      assert count as real * unit * l.rate == count as real * (unit * l.rate);
      MulMono(count as real * unit, l.burst / l.rate + (a + b), l.rate);
      MulSplit(l.burst / l.rate, a + b, l.rate);
      MulSplit(a, b, l.rate);
    }
  }

  lemma BoundInTokens(l: Limits, ops: seq<Op>, k: Key, s: real, length: real, rewound: real)
    requires Sane(l) && length >= 0.0 && rewound == Rewound(k, None, ops)
    ensures AllowedWithin(l, map[], ops, k, s, s + length) as real <= l.burst + l.rate * length + l.rate * rewound
  {
    BoundFromStart(l, ops, k, s, s + length);
    Tokens(l, AllowedWithin(l, map[], ops, k, s, s + length), length, rewound);
  }

  /** In every run, with any interleaving of other keys and evictions and with clocks in any order, the
      requests of one key allowed in an interval number at most burst + rate * length, plus the rate
      times the way the key's clock was moved back. */
  lemma RewindBound(l: Limits, ops: seq<Op>, k: Key, s: real, length: real)
    requires Sane(l) && length >= 0.0
    ensures AllowedWithin(l, map[], ops, k, s, s + length) as real <=
            l.burst + l.rate * length + l.rate * Rewound(k, None, ops)
  {
    BoundInTokens(l, ops, k, s, length, Rewound(k, None, ops));
  }

  /** While the key's clock is not moved back, they number at most burst + rate * length. */
  lemma RateBound(l: Limits, ops: seq<Op>, k: Key, s: real, length: real)
    requires Sane(l) && length >= 0.0 && InOrder(k, None, ops)
    ensures AllowedWithin(l, map[], ops, k, s, s + length) as real <= l.burst + l.rate * length
  {
    BoundInTokens(l, ops, k, s, length, 0.0) by {
      InOrderIffNotRewound(k, None, ops);
    }
    assert l.rate * 0.0 == 0.0;
  }

  /** n checks of one key at one moment. */
  function Checks(key: Key, now: real, n: nat): seq<Op> {
    if n == 0 then [] else [CheckOp(key, now)] + Checks(key, now, n - 1)
  }

  /** As many checks are allowed at one moment as there are tokens. */
  lemma {:induction false} TokensServe(l: Limits, m: Buckets, key: Key, now: real, n: nat)
    requires Sane(l) && TokensOk(l, Lookup(m, key)) && n as real <= Available(l, Lookup(m, key), now)
    ensures AllowedWithin(l, m, Checks(key, now, n), key, now, now) == n
    decreases n
  {
    if n > 0 {
      var b := Lookup(m, key);
      CheckTokens(l, b, now);
      var next := Step(l, m, CheckOp(key, now), true);
      assert 0.0 * l.rate == 0.0;
      assert Available(l, Lookup(next, key), now) == Available(l, b, now) - 1.0;
      TokensServe(l, next, key, now, n - 1);
      assert ([CheckOp(key, now)] + Checks(key, now, n - 1))[1..] == Checks(key, now, n - 1);
    }
  }

  lemma {:induction false} ChecksInOrder(key: Key, now: real, n: nat, at: Option<real>)
    requires at.Some? ==> at.value == now
    ensures InOrder(key, at, Checks(key, now, n))
    decreases n
  {
    if n > 0 {
      ChecksInOrder(key, now, n - 1, Some(now));
      assert ([CheckOp(key, now)] + Checks(key, now, n - 1))[1..] == Checks(key, now, n - 1);
    }
  }

  /** A new key's burst: n requests at once are all allowed if and only if n is at most the burst. */
  lemma BurstIsServed(l: Limits, key: Key, now: real, n: nat)
    requires Sane(l)
    ensures AllowedWithin(l, map[], Checks(key, now, n), key, now, now) == n <==> n as real <= l.burst
  {
    if n as real <= l.burst {
      TokensServe(l, map[], key, now, n);
    } else {
      ChecksInOrder(key, now, n, None);
      RateBound(l, Checks(key, now, n), key, now, 0.0);
      assert l.rate * 0.0 == 0.0;
    }
  }

  /** Limits under which moving the clock back by d is felt at once. */
  function Tight(d: real): Limits
    requires d > 0.0
  {
    Limits(Max(0.1, 1.0 / d), 1.0)
  }

  function BackAndForth(k: Key, lo: real, hi: real): seq<Op> {
    [CheckOp(k, hi), CheckOp(k, lo), CheckOp(k, hi)]
  }

  lemma TightPays(d: real)
    requires d > 0.0
    ensures Sane(Tight(d)) && d * Tight(d).rate >= 1.0
    ensures d <= 10.0 ==> Tight(d).rate * d == 1.0
  {
    assert 1.0 / d * d == 1.0;
    MulMono(1.0 / d, Tight(d).rate, d);
    if d <= 10.0 && 1.0 / d < 0.1 {
      MulMono(d, 10.0, 0.1);
      assert (0.1 - 1.0 / d) * d > 0.0;
      assert (0.1 - 1.0 / d) * d == 0.1 * d - 1.0 / d * d;
    }
  }

  /** The checks of `BackAndForth`, one by one. */
  lemma BackAndForthRun(k: Key, lo: real, hi: real)
    requires lo < hi
    ensures AllowedWithin(Tight(hi - lo), map[], BackAndForth(k, lo, hi), k, hi, hi) == 2
  {
    var l, ops := Tight(hi - lo), BackAndForth(k, lo, hi);
    TightPays(hi - lo);
    assert 0.0 * l.rate == 0.0;
    var m1, m2 := map[k := Bucket(0.0, hi)], map[k := Bucket(0.0, lo)];
    assert ops[1..] == [ops[1], ops[2]] && ops[1..][1..] == [ops[2]] && ops[1..][1..][1..] == [];
    assert Step(l, map[], ops[0], true) == m1 && Answers(l, map[], ops, true)[0] == Some(Allowed);
    assert Step(l, m1, ops[1], true) == m2;
    assert Available(l, Some(m2[k]), hi) == 1.0;
    assert Answers(l, m2, [ops[2]], true)[0] == Some(Allowed);
    assert AllowedWithin(l, m2, [ops[2]], k, hi, hi) == 1;
    assert AllowedWithin(l, m1, ops[1..], k, hi, hi) == 1;
  }

  /** For every key and every step back, however small, there are limits under which a check that carries
      the earlier time lets the next one through too early.  For steps of up to ten seconds the excess is
      exactly the rate times the step. */
  lemma OutOfOrderBreaksBound(k: Key, lo: real, hi: real)
    requires lo < hi
    ensures var l, ops := Tight(hi - lo), BackAndForth(k, lo, hi);
            var count := AllowedWithin(l, map[], ops, k, hi, hi) as real;
            && Sane(l) && Rewound(k, None, ops) == hi - lo
            && count > l.burst + l.rate * 0.0
            && (hi - lo <= 10.0 ==> count == l.burst + l.rate * 0.0 + l.rate * Rewound(k, None, ops))
  {
    var l, ops := Tight(hi - lo), BackAndForth(k, lo, hi);
    BackAndForthRun(k, lo, hi);
    TightPays(hi - lo);
    assert ops[1..] == [ops[1], ops[2]] && ops[1..][1..] == [ops[2]] && ops[1..][1..][1..] == [];
    assert Rewound(k, Some(lo), [ops[2]]) == 0.0;
    assert Rewound(k, Some(hi), ops[1..]) == hi - lo;
    assert l.rate * 0.0 == 0.0;
  }

  predicate Bounded(l: Limits, ops: seq<Op>, k: Key, s: real, length: real)
    requires l.rate != 0.0
  {
    AllowedWithin(l, map[], ops, k, s, s + length) as real <= l.burst + l.rate * length
  }

  /** How much moving back the plain bound tolerates: none at all. */
  lemma RateBoundIsExact(d: real)
    requires d >= 0.0
    ensures (forall l, ops, k, s, length :: Sane(l) && length >= 0.0 && Rewound(k, None, ops) <= d ==> Bounded(l, ops, k, s, length))
            <==> d == 0.0
  {
    if d == 0.0 {
      forall l, ops, k, s, length | Sane(l) && length >= 0.0 && Rewound(k, None, ops) <= d
        ensures Bounded(l, ops, k, s, length)
      {
        InOrderIffNotRewound(k, None, ops);
        RateBound(l, ops, k, s, length);
      }
    } else {
      OutOfOrderBreaksBound(0, 0.0, d);
      assert !Bounded(Tight(d), BackAndForth(0, 0.0, d), 0, d, 0.0);
    }
  }

  // ---- Retry-After ----------------------------------------------------------------------------

  /** The Retry-After answer is exact: left alone, the key is allowed again at that moment and not
      before. */
  lemma RetryAfterExact(l: Limits, b: Option<Bucket>, now: real, later: real)
    requires Sane(l) && TokensOk(l, b) && now <= later
    requires CheckBucket(l, b, now).1.Retry?
    ensures var (bucket, answer) := CheckBucket(l, b, now);
            && answer.after > 0.0
            && (CheckBucket(l, Some(bucket), later).1.Allowed? <==> later >= now + answer.after)
  {
    var (bucket, answer) := CheckBucket(l, b, now);
    CheckTokens(l, b, now);
    CheckMeter(l, b, now);
    CheckMeter(l, Some(bucket), later);
    var missing, room := 1.0 - bucket.tokens, l.burst - bucket.tokens;
    DivLe(missing, 0.0, l.rate);
    DivSplit(missing, l.burst - 1.0, l.rate);
    DivSplit(l.burst - 1.0, 1.0, l.rate);
    DivLe(0.0, l.burst - 1.0, l.rate);
  }
}
