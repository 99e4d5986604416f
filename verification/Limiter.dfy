/**
  The per-address message limiter: a token bucket with idle eviction, in exact arithmetic. Time is
  in nanoseconds and a bucket level in units of 1e-8 token, so the refill of ten tokens per second
  is one unit per nanosecond.
 */
module Limiter {
  import opened Common

  /** What `n` messages cost, in units. */
  function Cost(n: int): int {
    n * 100_000_000
  }

  const CAPACITY: int := Cost(20)
  const IDLE_EXPIRY: int := 60_000_000_000

  type Instant = nat

  datatype Bucket = Bucket(tokens: int, lastRefill: Instant)

  /** A duration between two clock readings; it is zero when they are out of order. */
  function Since(now: Instant, earlier: Instant): nat {
    if now >= earlier then now - earlier else 0
  }

  function Full(now: Instant): Bucket {
    Bucket(CAPACITY, now)
  }

  function Refill(b: Bucket, now: Instant): Bucket {
    var level := b.tokens + Since(now, b.lastRefill);
    Bucket(if level > CAPACITY then CAPACITY else level, now)
  }

  /** One request: whether it is allowed, and the bucket it leaves. */
  function Ask(b: Bucket, now: Instant): (bool, Bucket) {
    var refilled := Refill(b, now);
    if refilled.tokens < Cost(1) then (false, refilled)
    else (true, refilled.(tokens := refilled.tokens - Cost(1)))
  }

  type Buckets = map<Ip, Bucket>

  function BucketOf(buckets: Buckets, ip: Ip, now: Instant): Bucket {
    if ip in buckets then buckets[ip] else Full(now)
  }

  function Allow(buckets: Buckets, ip: Ip, now: Instant): (bool, Buckets) {
    var (allowed, b) := Ask(BucketOf(buckets, ip, now), now);
    (allowed, buckets[ip := b])
  }

  function Retained(buckets: Buckets, now: Instant): Buckets {
    map ip | ip in buckets && Since(now, buckets[ip].lastRefill) < IDLE_EXPIRY :: buckets[ip]
  }

  /** The limiter state of the server, guarded by one mutex. */
  class RateLimits {
    var buckets: Buckets

    constructor ()
      ensures buckets == map[]
    {
      buckets := map[];
    }

    method AllowMessage(ip: Ip, now: Instant) returns (allowed: bool)
      modifies this
      ensures (allowed, buckets) == Allow(old(buckets), ip, now)
    {
      if ip !in buckets {
        buckets := buckets[ip := Bucket(CAPACITY, now)];
      }
      var limiter := buckets[ip];
      var elapsed := Since(now, limiter.lastRefill);
      var tokens := limiter.tokens + elapsed;
      if tokens > CAPACITY {
        tokens := CAPACITY;
      }
      if tokens < Cost(1) {
        buckets := buckets[ip := Bucket(tokens, now)];
        assert buckets == Allow(old(buckets), ip, now).1;
        return false;
      }
      buckets := buckets[ip := Bucket(tokens - Cost(1), now)];
      assert buckets == Allow(old(buckets), ip, now).1;
      return true;
    }

    method Cleanup(now: Instant)
      modifies this
      ensures buckets == Retained(old(buckets), now)
    {
      var todo := buckets.Keys;
      while todo != {}
        invariant todo <= old(buckets).Keys
        invariant buckets == map ip | ip in old(buckets)
            && (ip in todo || Since(now, old(buckets)[ip].lastRefill) < IDLE_EXPIRY) :: old(buckets)[ip]
        decreases |todo|
      {
        var ip :| ip in todo;
        if Since(now, buckets[ip].lastRefill) >= IDLE_EXPIRY {
          buckets := buckets - {ip};
        }
        todo := todo - {ip};
      }
    }
  }

  // ---- Whole runs -----------------------------------------------------------------------------

  /**
    The calls in the order in which they get the mutex. `now` is the clock reading of the call: an
    `Asked` reads the clock while holding the mutex, a `Swept` reads it before waiting for it.
   */
  datatype Call = Asked(ip: Ip, now: Instant) | Swept(now: Instant)

  /** The clock never runs backwards: a request reads it later than every call before it did. */
  predicate InClockOrder(calls: seq<Call>) {
    forall i, j | 0 <= i < j < |calls| && calls[j].Asked? :: calls[i].now <= calls[j].now
  }

  function Step(buckets: Buckets, call: Call, evicting: bool): Buckets {
    match call
    case Asked(ip, now) => Allow(buckets, ip, now).1
    case Swept(now) => if evicting then Retained(buckets, now) else buckets
  }

  function After(calls: seq<Call>, evicting: bool): Buckets {
    if calls == [] then map[]
    else Step(After(calls[..|calls| - 1], evicting), calls[|calls| - 1], evicting)
  }

  /** Whether a request made after `calls` is allowed. */
  function Allowed(calls: seq<Call>, ip: Ip, now: Instant, evicting: bool): bool {
    Allow(After(calls, evicting), ip, now).0
  }

  /** What the evicting limiter forgot is a bucket that will be full whenever it is asked for. */
  ghost predicate Agree(evicting: Buckets, keeping: Buckets, now: Instant) {
    && evicting.Keys <= keeping.Keys
    && (forall ip | ip in evicting :: evicting[ip] == keeping[ip])
    && (forall ip | ip in keeping && ip !in evicting :: keeping[ip].lastRefill + IDLE_EXPIRY <= now)
    && (forall ip | ip in keeping :: 0 <= keeping[ip].tokens)
  }

  lemma AgreeStep(evicting: Buckets, keeping: Buckets, before: Instant, call: Call, now: Instant)
    requires Agree(evicting, keeping, before)
    requires before <= now && call.now <= now
    requires call.Asked? ==> call.now == now
    ensures Agree(Step(evicting, call, true), Step(keeping, call, false), now)
    ensures call.Asked? ==> Allow(evicting, call.ip, now).0 == Allow(keeping, call.ip, now).0
  {
    if call.Asked? {
      assert Refill(BucketOf(evicting, call.ip, now), now) == Refill(BucketOf(keeping, call.ip, now), now);
    }
  }

  /** The latest clock reading of some calls. */
  function Latest(calls: seq<Call>): Instant {
    if calls == [] then 0
    else
      var earlier, last := Latest(calls[..|calls| - 1]), calls[|calls| - 1].now;
      if last > earlier then last else earlier
  }

  lemma {:induction false} LatestIsReached(calls: seq<Call>, bound: Instant)
    requires forall i | 0 <= i < |calls| :: calls[i].now <= bound
    ensures Latest(calls) <= bound
  {
    if calls != [] { LatestIsReached(calls[..|calls| - 1], bound); }
  }

  lemma {:induction false} AgreeAfter(calls: seq<Call>)
    requires InClockOrder(calls)
    ensures Agree(After(calls, true), After(calls, false), Latest(calls))
  {
    if calls != [] {
      var front, last := calls[..|calls| - 1], calls[|calls| - 1];
      AgreeAfter(front);
      if last.Asked? { LatestIsReached(front, last.now); }
      AgreeStep(After(front, true), After(front, false), Latest(front), last, Latest(calls));
    }
  }

  /** Idle eviction is invisible: every decision is that of a limiter that never evicts. */
  lemma EvictionIsInvisible(calls: seq<Call>, ip: Ip, now: Instant)
    requires InClockOrder(calls + [Asked(ip, now)])
    ensures Allowed(calls, ip, now, true) == Allowed(calls, ip, now, false)
  {
    var all := calls + [Asked(ip, now)];
    assert forall i | 0 <= i < |calls| :: all[i] == calls[i];
    assert InClockOrder(calls) by {
      assert forall j | 0 <= j < |calls| && calls[j].Asked? :: all[j].Asked?;
    }
    assert forall i | 0 <= i < |calls| :: all[i].now <= all[|calls|].now;
    AgreeAfter(calls);
    LatestIsReached(calls, now);
    AgreeStep(After(calls, true), After(calls, false), Latest(calls), Asked(ip, now), now);
  }

  /** When the requests of one address that were allowed came in, as the evicting limiter decides. */
  function Admitted(calls: seq<Call>, ip: Ip): seq<Instant> {
    if calls == [] then []
    else
      var front, last := calls[..|calls| - 1], calls[|calls| - 1];
      Admitted(front, ip)
      + if last.Asked? && last.ip == ip && Allowed(front, ip, last.now, true) then [last.now] else []
  }

  /**
    The bucket level is the least of the capacity and, for every admitted request, of what a full
    bucket would hold now if it had paid for that request and all later ones.
   */
  ghost predicate Accounts(b: Bucket, admitted: seq<Instant>) {
    && b.tokens <= CAPACITY
    && (forall k | 0 <= k < |admitted| ::
          admitted[k] <= b.lastRefill && b.tokens <= Balance(admitted, k, b.lastRefill))
    && (b.tokens == CAPACITY
        || exists k :: 0 <= k < |admitted| && b.tokens == Balance(admitted, k, b.lastRefill))
  }

  function Balance(admitted: seq<Instant>, k: nat, now: Instant): int
    requires k < |admitted|
  {
    CAPACITY + (now - admitted[k]) - Cost(|admitted| - k)
  }

  /** No admitted request opens a stretch in which this one would be one too many. */
  ghost predicate WithinWindows(admitted: seq<Instant>, now: Instant) {
    forall k | 0 <= k < |admitted| ::
      Cost(|admitted| - k + 1) <= CAPACITY + (now - admitted[k])
  }

  lemma RefillAccounts(b: Bucket, admitted: seq<Instant>, now: Instant)
    requires Accounts(b, admitted) && b.lastRefill <= now
    ensures Accounts(Refill(b, now), admitted)
  {
    var r := Refill(b, now);
    if r.tokens != CAPACITY {
      var k :| 0 <= k < |admitted| && b.tokens == Balance(admitted, k, b.lastRefill);
      assert r.tokens == Balance(admitted, k, now);
    }
    forall k | 0 <= k < |admitted|
      ensures admitted[k] <= r.lastRefill && r.tokens <= Balance(admitted, k, r.lastRefill)
    {
      assert b.tokens <= Balance(admitted, k, b.lastRefill);
    }
  }

  lemma AskAccounts(b: Bucket, admitted: seq<Instant>, now: Instant)
    requires Accounts(b, admitted) && b.lastRefill <= now
    ensures Ask(b, now).0 <==> WithinWindows(admitted, now)
    ensures Accounts(Ask(b, now).1, if Ask(b, now).0 then admitted + [now] else admitted)
  {
    RefillAccounts(b, admitted, now);
    var r := Refill(b, now);
    if r.tokens >= Cost(1) {
      var longer, paid := admitted + [now], r.tokens - Cost(1);
      forall k | 0 <= k < |admitted|
        ensures Balance(longer, k, now) == Balance(admitted, k, now) - Cost(1)
        ensures Cost(|admitted| - k + 1) <= CAPACITY + (now - admitted[k])
      {
        assert r.tokens <= Balance(admitted, k, now);
      }
      assert Balance(longer, |admitted|, now) == CAPACITY - Cost(1);
      if r.tokens != CAPACITY {
        var k :| 0 <= k < |admitted| && r.tokens == Balance(admitted, k, now);
        assert paid == Balance(longer, k, now);
      } else {
        assert paid == Balance(longer, |admitted|, now);
      }
      assert forall k | 0 <= k < |longer| :: longer[k] <= now && paid <= Balance(longer, k, now);
    } else {
      var k :| 0 <= k < |admitted| && r.tokens == Balance(admitted, k, now);
      assert Cost(|admitted| - k + 1) > CAPACITY + (now - admitted[k]);
    }
  }

  /** What the never-evicting limiter holds for one address, and what it admitted. */
  ghost predicate BookOk(calls: seq<Call>, ip: Ip) {
    if ip in After(calls, false) then
      && Accounts(After(calls, false)[ip], Admitted(calls, ip))
      && After(calls, false)[ip].lastRefill <= Latest(calls)
    else Admitted(calls, ip) == []
  }

  lemma FreshAccounts(now: Instant)
    ensures Accounts(Full(now), [])
  {
  }

  /** One request of the address, decided by the never-evicting limiter, is booked correctly. */
  lemma BookAsked(front: seq<Call>, ip: Ip, now: Instant)
    requires BookOk(front, ip) && Latest(front) <= now
    ensures var (allowed, b) := Ask(BucketOf(After(front, false), ip, now), now);
            var admitted := Admitted(front, ip);
            && (allowed <==> WithinWindows(admitted, now))
            && Accounts(b, if allowed then admitted + [now] else admitted)
  {
    FreshAccounts(now);
    AskAccounts(BucketOf(After(front, false), ip, now), Admitted(front, ip), now);
  }

  lemma {:induction false} BookAfter(calls: seq<Call>, ip: Ip)
    requires InClockOrder(calls)
    ensures BookOk(calls, ip)
  {
    if calls != [] {
      var front, last := calls[..|calls| - 1], calls[|calls| - 1];
      assert calls == front + [last];
      BookAfter(front, ip);
      if last.Asked? && last.ip == ip {
        LatestIsReached(front, last.now);
        EvictionIsInvisible(front, ip, last.now);
        BookAsked(front, ip, last.now);
        var (allowed, b) := Ask(BucketOf(After(front, false), ip, last.now), last.now);
        assert After(calls, false)[ip] == b;
        assert Admitted(calls, ip) == if allowed then Admitted(front, ip) + [last.now] else Admitted(front, ip);
      } else {
        assert Admitted(calls, ip) == Admitted(front, ip);
      }
    }
  }

  /**
    The limiter is exactly the sliding-window rule, over every run with evictions and requests of
    other addresses in between: a request is allowed iff, for every admitted request before it, those
    from that one through this one number at most 20 plus 10 per second in between.
   */
  lemma AllowedIffWithinWindows(calls: seq<Call>, ip: Ip, now: Instant)
    requires InClockOrder(calls + [Asked(ip, now)])
    ensures Allowed(calls, ip, now, true) <==> WithinWindows(Admitted(calls, ip), now)
  {
    var all := calls + [Asked(ip, now)];
    assert all[..|calls|] == calls;
    assert InClockOrder(calls) by {
      assert forall j | 0 <= j < |calls| :: calls[j] == all[j];
    }
    assert forall i | 0 <= i < |calls| :: all[i].now <= all[|calls|].now;
    LatestIsReached(calls, now);
    BookAfter(calls, ip);
    EvictionIsInvisible(calls, ip, now);
    BookAsked(calls, ip, now);
  }

  /** No stretch of time admits more than 20 messages plus 10 per second of its length. */
  lemma {:induction false} NoWindowExceeded(calls: seq<Call>, ip: Ip, i: nat, j: nat)
    requires InClockOrder(calls) && i <= j < |Admitted(calls, ip)|
    ensures Cost(j - i + 1) + Admitted(calls, ip)[i] <= CAPACITY + Admitted(calls, ip)[j]
  {
    var front, last := calls[..|calls| - 1], calls[|calls| - 1];
    assert calls == front + [last];
    if j < |Admitted(front, ip)| {
      NoWindowExceeded(front, ip, i, j);
    } else if i < j {
      AllowedIffWithinWindows(front, ip, last.now);
    }
  }

  // ---- In numbers -----------------------------------------------------------------------------

  /**
    Twenty messages at once and ten per second, with a token worth 1e8 nanoseconds: a request is
    allowed iff, for every earlier admitted one, those from that one through this one are paid for.
   */
  lemma AllowedInNumbers(calls: seq<Call>, ip: Ip, now: Instant)
    requires InClockOrder(calls + [Asked(ip, now)])
    ensures var admitted := Admitted(calls, ip);
            Allowed(calls, ip, now, true)
            <==> forall k | 0 <= k < |admitted| ::
                   100_000_000 * (|admitted| - k + 1) + admitted[k] <= 2_000_000_000 + now
  {
    AllowedIffWithinWindows(calls, ip, now);
    var admitted := Admitted(calls, ip);
    assert forall k | 0 <= k < |admitted| ::
        (Cost(|admitted| - k + 1) <= CAPACITY + (now - admitted[k])
         <==> 100_000_000 * (|admitted| - k + 1) + admitted[k] <= 2_000_000_000 + now);
  }

  lemma WindowInNumbers(calls: seq<Call>, ip: Ip, i: nat, j: nat)
    requires InClockOrder(calls) && i <= j < |Admitted(calls, ip)|
    ensures var admitted := Admitted(calls, ip);
            100_000_000 * (j - i + 1) + admitted[i] <= 2_000_000_000 + admitted[j]
  {
    NoWindowExceeded(calls, ip, i, j);
  }

  /** A new address has twenty messages at once, and not one more. */
  lemma BurstInNumbers(b: Bucket, now: Instant)
    requires b == BucketOf(map[], 0, now)
    ensures b.lastRefill == now && b.tokens == 20 * 100_000_000
    ensures Ask(b, now) == (true, Bucket(19 * 100_000_000, now))
    ensures !Ask(Bucket(99_999_999, now), now).0 && Ask(Bucket(99_999_999, now), now + 1).0
  {
  }

  /** A cleanup keeps exactly what was used within the last 60 seconds, as it was. */
  lemma RetainedInNumbers(buckets: Buckets, now: Instant, ip: Ip)
    ensures ip in Retained(buckets, now) <==> ip in buckets && now - buckets[ip].lastRefill < 60_000_000_000
    ensures ip in Retained(buckets, now) ==> Retained(buckets, now)[ip] == buckets[ip]
  {
  }
}
