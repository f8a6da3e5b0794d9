/**
 The keyed rate limiter of middleware/ratelimit.go. A bucket of the token-bucket library is
 kept in credit: tokens times the refill interval, so one nanosecond adds one unit of credit
 and all arithmetic is exact. An interval of zero (an unlimited rate) makes requests free.
 */
module RateLimit {
  type Key = string

  const SECOND := 1_000_000_000
  const LIMITER_IDLE_TTL := 10 * 60 * SECOND

  /** One request costs `interval` credit; a full bucket holds `burst` requests. */
  datatype Rate = Rate(interval: nat, burst: nat) {
    function Capacity(): nat { burst * interval }
  }

  datatype Bucket = Bucket(credit: int, last: int)
  datatype Entry = Entry(bucket: Bucket, lastSeen: int)
  type Entries = map<Key, Entry>

  function Normalized(requests: int, window: nat, burst: int): (rate: Rate)
    ensures rate.burst >= 1
    ensures rate.Capacity() <= window
  {
    var r: int := if requests <= 0 then 1 else requests;
    var b: int := if burst <= 0 || burst > r then r else burst;
    CapacityWithinWindow(r, window, b);
    Rate(window / r, b)
  }

  /** A full refill takes at most the window: burst * floor(window / requests) <= window. */
  lemma CapacityWithinWindow(requests: int, window: nat, burst: int)
    requires 1 <= burst <= requests
    ensures 0 <= window / requests && burst * (window / requests) <= window
  {
    var q := window / requests;
    assert requests * q <= window;
    assert burst * q <= requests * q;
  }

  // ---------------------------------------------------------------- one bucket

  function Available(rate: Rate, b: Bucket, now: int): int {
    var grown := b.credit + if now > b.last then now - b.last else 0;
    if grown > rate.Capacity() then rate.Capacity() else grown
  }

  predicate Granted(rate: Rate, b: Bucket, now: int) {
    Available(rate, b, now) >= rate.interval
  }

  function Spent(rate: Rate, b: Bucket, now: int): Bucket {
    if Granted(rate, b, now) then Bucket(Available(rate, b, now) - rate.interval, now) else b
  }

  // ---------------------------------------------------------------- the table of buckets

  function EntryFor(rate: Rate, entries: Entries, key: Key, now: int): Bucket {
    if key in entries then entries[key].bucket else Bucket(rate.Capacity(), now)
  }

  function AfterRequest(rate: Rate, entries: Entries, key: Key, now: int): Entries {
    entries[key := Entry(Spent(rate, EntryFor(rate, entries, key, now), now), now)]
  }

  function Evicted(entries: Entries, cutoff: int): Entries {
    map k | k in entries && entries[k].lastSeen >= cutoff :: entries[k]
  }

  class KeyedRateLimiter {
    var entries: Entries
    const rate: Rate

    constructor (requests: int, window: nat, burst: int)
      ensures rate == Normalized(requests, window, burst)
      ensures entries == map[]
    {
      var r := requests;
      if r <= 0 {
        r := 1;
      }
      var b := burst;
      if b <= 0 {
        b := r;
      }
      if b > r {
        b := r;
      }
      entries := map[];
      rate := Rate(window / r, b);
    }

    method Allow(key: Key, now: int) returns (ok: bool)
      modifies this
      ensures ok == Granted(rate, EntryFor(rate, old(entries), key, now), now)
      ensures entries == AfterRequest(rate, old(entries), key, now)
    {
      if key !in entries {
        entries := entries[key := Entry(Bucket(rate.Capacity(), now), now)];
      } else {
        entries := entries[key := entries[key].(lastSeen := now)];
      }
      var b := entries[key].bucket;
      ok := Available(rate, b, now) >= rate.interval;
      if ok {
        b := Bucket(Available(rate, b, now) - rate.interval, now);
      }
      entries := entries[key := Entry(b, now)];
    }

    method EvictStale(cutoff: int)
      modifies this
      ensures entries == Evicted(old(entries), cutoff)
    {
      var todo := entries.Keys;
      while todo != {}
        invariant todo <= old(entries).Keys
        invariant forall k :: k in entries <==> k in old(entries) && (k in todo || old(entries)[k].lastSeen >= cutoff)
        invariant forall k :: k in entries ==> entries[k] == old(entries)[k]
        decreases todo
      {
        var k :| k in todo;
        if entries[k].lastSeen < cutoff {
          entries := entries - {k};
        }
        todo := todo - {k};
      }
    }
  }

  // ---------------------------------------------------------------- runs

  datatype Event = Request(key: Key, at: int) | Sweep(at: int)

  /** Times never go backwards, starting from `from`. */
  predicate Timely(events: seq<Event>, from: int) {
    events == [] || (events[0].at >= from && Timely(events[1..], events[0].at))
  }

  function After(rate: Rate, evict: bool, entries: Entries, e: Event): Entries {
    match e
    case Request(key, at) => AfterRequest(rate, entries, key, at)
    case Sweep(at) => if evict then Evicted(entries, at - LIMITER_IDLE_TTL) else entries
  }

  function AfterAll(rate: Rate, evict: bool, entries: Entries, events: seq<Event>): Entries
    decreases |events|
  {
    if events == [] then entries else AfterAll(rate, evict, After(rate, evict, entries, events[0]), events[1..])
  }

  /** What each request of the run is told, with or without idle eviction. */
  function Answers(rate: Rate, evict: bool, entries: Entries, events: seq<Event>): seq<bool>
    decreases |events|
  {
    if events == [] then []
    else
      var rest := Answers(rate, evict, After(rate, evict, entries, events[0]), events[1..]);
      match events[0]
      case Request(key, at) => [Granted(rate, EntryFor(rate, entries, key, at), at)] + rest
      case Sweep(_) => rest
  }

  /** No sequence of requests and sweeps can tell an evicting limiter from one that never evicts. */
  ghost predicate EvictionInvisible(rate: Rate) {
    forall events: seq<Event>, start: int :: Timely(events, start) ==>
      Answers(rate, true, map[], events) == Answers(rate, false, map[], events)
  }

  // ---------------------------------------------------------------- the simulation

  predicate EntryOk(rate: Rate, e: Entry, now: int) {
    0 <= e.bucket.credit <= rate.Capacity() && e.bucket.last <= e.lastSeen <= now
  }

  /** Kept entries agree; a key only the non-evicting limiter still holds has a full bucket. */
  ghost predicate Simulates(rate: Rate, kept: Entries, all: Entries, now: int) {
    && (forall k :: k in all ==> EntryOk(rate, all[k], now))
    && (forall k :: k in kept ==> k in all && kept[k] == all[k])
    && (forall k :: k in all && k !in kept ==> all[k].bucket.credit + (now - all[k].bucket.last) >= rate.Capacity())
  }

  lemma SimulatesRequest(rate: Rate, kept: Entries, all: Entries, now: int, key: Key, at: int)
    requires rate.Capacity() >= rate.interval
    requires Simulates(rate, kept, all, now) && at >= now
    ensures Simulates(rate, AfterRequest(rate, kept, key, at), AfterRequest(rate, all, key, at), at)
    ensures Granted(rate, EntryFor(rate, kept, key, at), at) == Granted(rate, EntryFor(rate, all, key, at), at)
  {
    var b := EntryFor(rate, all, key, at);
    var capacity := rate.Capacity();
    assert 0 <= b.credit <= capacity && b.last <= at;
    assert Granted(rate, b, at) ==> 0 <= Spent(rate, b, at).credit <= capacity;
    if key in all && key !in kept {
      assert Available(rate, b, at) == capacity;
      assert Available(rate, EntryFor(rate, kept, key, at), at) == capacity;
    }
  }

  lemma SimulatesSweep(rate: Rate, kept: Entries, all: Entries, now: int, at: int)
    requires rate.Capacity() <= LIMITER_IDLE_TTL + 1
    requires Simulates(rate, kept, all, now) && at >= now
    ensures Simulates(rate, Evicted(kept, at - LIMITER_IDLE_TTL), all, at)
  {
  }

  lemma {:induction false} SimulationAnswers(rate: Rate, kept: Entries, all: Entries, now: int, events: seq<Event>)
    requires rate.burst >= 1 && rate.Capacity() <= LIMITER_IDLE_TTL + 1
    requires Simulates(rate, kept, all, now) && Timely(events, now)
    ensures Answers(rate, true, kept, events) == Answers(rate, false, all, events)
    decreases |events|
  {
    if events != [] {
      var e := events[0];
      assert rate.burst * rate.interval >= 1 * rate.interval;
      match e {
        case Request(key, at) => SimulatesRequest(rate, kept, all, now, key, at);
        case Sweep(at) => SimulatesSweep(rate, kept, all, now, at);
      }
      SimulationAnswers(rate, After(rate, true, kept, e), After(rate, false, all, e), e.at, events[1..]);
    }
  }

  // ---------------------------------------------------------------- what a limiter grants

  /** When the requests of `key` in this run were granted, without eviction. */
  function GrantTimes(rate: Rate, entries: Entries, events: seq<Event>, key: Key): seq<int>
    decreases |events|
  {
    if events == [] then []
    else
      var rest := GrantTimes(rate, After(rate, false, entries, events[0]), events[1..], key);
      match events[0]
      case Request(k, at) => if k == key && Granted(rate, EntryFor(rate, entries, key, at), at) then [at] + rest else rest
      case Sweep(_) => rest
  }

  /** The credit left at `now` after grants at these times, from a bucket that was full before the first. */
  function Level(rate: Rate, grants: seq<int>, now: int): int {
    if grants == [] then rate.Capacity()
    else
      var last := grants[|grants| - 1];
      var grown := Level(rate, grants[..|grants| - 1], last) - rate.interval + now - last;
      if grown > rate.Capacity() then rate.Capacity() else grown
  }

  /** Counted from grant `i` on, the grants so far and `x` more cost no more than a full bucket and its refill. */
  predicate Fits(rate: Rate, grants: seq<int>, i: nat, now: int, x: int)
    requires i < |grants|
  {
    Cost(rate, |grants| - i) + x <= rate.Capacity() + now - grants[i]
  }

  lemma FitsShifts(rate: Rate, grants: seq<int>, i: nat, now: int, x: int)
    requires i < |grants| - 1
    ensures var n := |grants|;
            Fits(rate, grants, i, now, x) <==> Fits(rate, grants[..n - 1], i, grants[n - 1], x + rate.interval - (now - grants[n - 1]))
  {
    assert Cost(rate, |grants| - i) == rate.interval + Cost(rate, |grants| - i - 1);
  }

  /** The level is at least `x` exactly when no window from an earlier grant on has been overspent by it. */
  lemma {:induction false} LevelIff(rate: Rate, grants: seq<int>, now: int, x: int)
    ensures Level(rate, grants, now) >= x <==>
              x <= rate.Capacity() && forall i :: 0 <= i < |grants| ==> Fits(rate, grants, i, now, x)
    decreases |grants|
  {
    hide Cost;
    var n := |grants|;
    if n > 0 {
      var head, last := grants[..n - 1], grants[n - 1];
      var y := x + rate.interval - (now - last);
      LevelIff(rate, head, last, y);
      forall i | 0 <= i < n - 1 ensures Fits(rate, grants, i, now, x) <==> Fits(rate, head, i, last, y) {
        FitsShifts(rate, grants, i, now, x);
      }
      LastFits(rate, grants, now, x);
      assert Level(rate, grants, now) >= x <==> Level(rate, head, last) >= y && x <= rate.Capacity();
      hide Fits, Level;
      assert (forall i :: 0 <= i < n ==> Fits(rate, grants, i, now, x)) <==>
             Fits(rate, grants, n - 1, now, x) && forall i :: 0 <= i < n - 1 ==> Fits(rate, head, i, last, y);
    }
  }

  lemma LastFits(rate: Rate, grants: seq<int>, now: int, x: int)
    requires grants != []
    ensures var n := |grants|;
            Fits(rate, grants, n - 1, now, x) <==> x + rate.interval - (now - grants[n - 1]) <= rate.Capacity()
  {
    assert Cost(rate, 1) == rate.interval + Cost(rate, 0);
  }

  /** The bucket of `key` is what its grants left of a full one. */
  predicate Tells(rate: Rate, entries: Entries, key: Key, grants: seq<int>, now: int) {
    if key !in entries then grants == []
    else
      && grants != []
      && entries[key].bucket.last == grants[|grants| - 1] <= now
      && entries[key].bucket.credit == Level(rate, grants[..|grants| - 1], grants[|grants| - 1]) - rate.interval
  }

  lemma TellsAvailable(rate: Rate, entries: Entries, key: Key, grants: seq<int>, now: int)
    requires Tells(rate, entries, key, grants, now)
    ensures Available(rate, EntryFor(rate, entries, key, now), now) == Level(rate, grants, now)
  {
  }

  lemma RequestTells(rate: Rate, entries: Entries, key: Key, grants: seq<int>, now: int, k: Key, at: int)
    requires rate.burst >= 1 && Tells(rate, entries, key, grants, now) && now <= at
    ensures var yes := k == key && Granted(rate, EntryFor(rate, entries, key, at), at);
            Tells(rate, AfterRequest(rate, entries, k, at), key, if yes then grants + [at] else grants, at)
  {
    TellsAvailable(rate, entries, key, grants, at);
    assert rate.burst * rate.interval >= 1 * rate.interval;
    assert (grants + [at])[..|grants|] == grants;
  }

  lemma {:induction false} RunTells(rate: Rate, entries: Entries, key: Key, grants: seq<int>, events: seq<Event>, from: int, now: int)
    requires rate.burst >= 1 && Tells(rate, entries, key, grants, from) && from <= now
    requires Timely(events, from) && forall i :: 0 <= i < |events| ==> events[i].at <= now
    ensures Tells(rate, AfterAll(rate, false, entries, events), key, grants + GrantTimes(rate, entries, events, key), now)
    decreases |events|
  {
    if events == [] {
      assert grants + [] == grants;
    } else {
      var e := events[0];
      var m := After(rate, false, entries, e);
      var g := grants;
      if e.Request? {
        RequestTells(rate, entries, key, grants, from, e.key, e.at);
        if e.key == key && Granted(rate, EntryFor(rate, entries, key, e.at), e.at) {
          g := grants + [e.at];
        }
      }
      RunTells(rate, m, key, g, events[1..], e.at, now);
      assert g + GrantTimes(rate, m, events[1..], key) == grants + GrantTimes(rate, entries, events, key);
    }
  }

  /**
   A request is granted exactly when it fits into every window: counted from any earlier grant to
   the same key, the grants up to and including this one cost no more than a full bucket and what
   has been refilled since. Denied requests and other keys do not matter.
   */
  lemma GrantedIffWindowsFit(rate: Rate, events: seq<Event>, key: Key, start: int, now: int)
    requires rate.burst >= 1 && Timely(events, start) && start <= now && forall i :: 0 <= i < |events| ==> events[i].at <= now
    ensures var entries, grants := AfterAll(rate, false, map[], events), GrantTimes(rate, map[], events, key);
            Granted(rate, EntryFor(rate, entries, key, now), now) <==>
              forall i :: 0 <= i < |grants| ==> Fits(rate, grants, i, now, rate.interval)
  {
    hide Level, Cost, GrantTimes, AfterAll, Available, Timely;
    var entries, grants := AfterAll(rate, false, map[], events), GrantTimes(rate, map[], events, key);
    RunTells(rate, map[], key, [], events, start, now);
    assert [] + grants == grants;
    TellsAvailable(rate, entries, key, grants, now);
    LevelIff(rate, grants, now, rate.interval);
    assert rate.burst * rate.interval >= 1 * rate.interval;
  }

  // ---------------------------------------------------------------- the witness when a refill is too slow

  function Burst(key: Key, at: int, n: nat): seq<Event> {
    if n == 0 then [] else [Request(key, at)] + Burst(key, at, n - 1)
  }

  function AllYes(n: nat): seq<bool> {
    if n == 0 then [] else [true] + AllYes(n - 1)
  }

  lemma {:induction false} AnswersConcat(rate: Rate, evict: bool, m: Entries, a: seq<Event>, b: seq<Event>)
    ensures Answers(rate, evict, m, a + b) == Answers(rate, evict, m, a) + Answers(rate, evict, AfterAll(rate, evict, m, a), b)
    ensures AfterAll(rate, evict, m, a + b) == AfterAll(rate, evict, AfterAll(rate, evict, m, a), b)
    decreases |a|
  {
    if a == [] {
      assert a + b == b;
    } else {
      assert (a + b)[1..] == a[1..] + b;
      AnswersConcat(rate, evict, After(rate, evict, m, a[0]), a[1..], b);
    }
  }

  /** The credit `n` requests cost. */
  function Cost(rate: Rate, n: nat): nat {
    if n == 0 then 0 else rate.interval + Cost(rate, n - 1)
  }

  lemma {:induction false} CostIsProduct(rate: Rate, n: nat)
    ensures Cost(rate, n) == n * rate.interval
  {
    if n > 0 {
      CostIsProduct(rate, n - 1);
      assert n * rate.interval == rate.interval + (n - 1) * rate.interval;
    }
  }

  /** A burst at one instant is granted in full exactly when the bucket holds enough credit. */
  lemma {:induction false} BurstIff(rate: Rate, evict: bool, m: Entries, key: Key, at: int, n: nat)
    requires key in m ==> m[key].bucket.last <= at
    ensures var have := Available(rate, EntryFor(rate, m, key, at), at);
            Answers(rate, evict, m, Burst(key, at, n)) == AllYes(n) <==> n == 0 || have >= Cost(rate, n)
    ensures var have := Available(rate, EntryFor(rate, m, key, at), at);
            have >= Cost(rate, n) && n > 0 ==>
              AfterAll(rate, evict, m, Burst(key, at, n)) == m[key := Entry(Bucket(have - Cost(rate, n), at), at)]
    decreases n
  {
    if n > 0 {
      var b := EntryFor(rate, m, key, at);
      var have := Available(rate, b, at);
      var m' := AfterRequest(rate, m, key, at);
      var rest := Burst(key, at, n - 1);
      assert Burst(key, at, n)[1..] == rest;
      assert AllYes(n)[1..] == AllYes(n - 1);
      BurstIff(rate, evict, m', key, at, n - 1);
      var answers := Answers(rate, evict, m, Burst(key, at, n));
      assert answers == [Granted(rate, b, at)] + Answers(rate, evict, m', rest);
      assert answers[1..] == Answers(rate, evict, m', rest);
      if Granted(rate, b, at) {
        assert Available(rate, m'[key].bucket, at) == have - rate.interval;
        var last := Entry(Bucket(have - Cost(rate, n), at), at);
        assert m'[key := last] == m[key := last];
      } else {
        assert answers[0] == false && AllYes(n)[0] == true;
      }
    }
  }

  lemma {:induction false} BurstTimely(key: Key, at: int, n: nat, from: int, rest: seq<Event>)
    requires from <= at && Timely(rest, at)
    ensures Timely(Burst(key, at, n) + rest, from)
  {
    if n == 0 {
      assert Burst(key, at, n) + rest == rest;
      if rest != [] {
        assert rest[0].at >= from;
      }
    } else {
      BurstTimely(key, at, n - 1, at, rest);
      assert (Burst(key, at, n) + rest)[1..] == Burst(key, at, n - 1) + rest;
    }
  }

  lemma SlowRefillShows(rate: Rate, key: Key)
    requires rate.burst >= 1 && rate.Capacity() > LIMITER_IDLE_TTL + 1
    ensures !EvictionInvisible(rate)
  {
    var n, t := rate.burst, LIMITER_IDLE_TTL + 1;
    var head, tail := Burst(key, 0, n) + [Sweep(t)], Burst(key, t, n);
    BurstTimely(key, t, n, t, []);
    assert tail + [] == tail;
    assert Timely([Sweep(t)] + tail, 0);
    BurstTimely(key, 0, n, 0, [Sweep(t)] + tail);
    assert Burst(key, 0, n) + ([Sweep(t)] + tail) == head + tail;
    assert Timely(head + tail, 0);
    CostIsProduct(rate, n);
    var drained := map[key := Entry(Bucket(0, 0), 0)];
    forall evict: bool
      ensures Answers(rate, evict, map[], head + tail)
           == AllYes(n) + Answers(rate, evict, if evict then map[] else drained, tail)
    {
      BurstIff(rate, evict, map[], key, 0, n);
      AnswersConcat(rate, evict, map[], Burst(key, 0, n), [Sweep(t)]);
      assert AfterAll(rate, evict, map[], Burst(key, 0, n)) == drained;
      var swept := After(rate, evict, drained, Sweep(t));
      assert [Sweep(t)][1..] == [];
      assert AfterAll(rate, evict, swept, []) == swept;
      assert AfterAll(rate, evict, drained, [Sweep(t)]) == swept;
      assert swept == if evict then map[] else drained;
      AnswersConcat(rate, evict, map[], head, tail);
      assert Answers(rate, evict, drained, [Sweep(t)]) == [];
    }
    BurstIff(rate, true, map[], key, t, n);
    BurstIff(rate, false, drained, key, t, n);
    var yes, a, b := AllYes(n), Answers(rate, true, map[], tail), Answers(rate, false, drained, tail);
    assert a == AllYes(n) && b != AllYes(n);
    assert (yes + a)[|yes|..] == a && (yes + b)[|yes|..] == b;
  }

  /**
   Idle eviction is invisible exactly when a drained bucket refills within the idle time
   (one nanosecond more, because eviction needs strictly more than the idle time).
   */
  lemma EvictionInvisibleIff(rate: Rate)
    requires rate.burst >= 1
    ensures EvictionInvisible(rate) <==> rate.Capacity() <= LIMITER_IDLE_TTL + 1
  {
    if rate.Capacity() <= LIMITER_IDLE_TTL + 1 {
      forall events: seq<Event>, start: int | Timely(events, start)
        ensures Answers(rate, true, map[], events) == Answers(rate, false, map[], events)
      {
        SimulationAnswers(rate, map[], map[], start, events);
      }
    } else {
      SlowRefillShows(rate, "k");
    }
  }

  function IpRate(requestsPerMinute: int): Rate {
    var r := if requestsPerMinute <= 0 then 60 else requestsPerMinute;
    Normalized(r, 60 * SECOND, r)
  }

  function CertIssueBurst(limit: int): int {
    if limit <= 1 then 1 else if limit < 3 then limit else 3
  }

  function CertIssueRate(limit: int): Rate {
    Normalized(limit, 3600 * SECOND, CertIssueBurst(limit))
  }

  /**
   The per-IP limiter allows its requests per minute at once, the hourly one three at most, and
   each refills one request per equal share of the minute or hour, rounded down to a nanosecond.
   */
  lemma LimitersMean(requestsPerMinute: int, limit: int)
    requires requestsPerMinute > 0 && limit > 0
    ensures var r := IpRate(requestsPerMinute);
            && r.burst == requestsPerMinute
            && r.interval * requestsPerMinute <= 60 * SECOND < (r.interval + 1) * requestsPerMinute
    ensures var r := CertIssueRate(limit);
            && r.burst == (if limit < 3 then limit else 3)
            && r.interval * limit <= 3600 * SECOND < (r.interval + 1) * limit
    ensures IpRate(0) == IpRate(60) && IpRate(-1) == IpRate(60)
  {
    Share(60 * SECOND, requestsPerMinute);
    Share(3600 * SECOND, limit);
  }

  lemma Share(window: nat, requests: int)
    requires requests > 0
    ensures (window / requests) * requests <= window < (window / requests + 1) * requests
  {
    var q := window / requests;
    assert window == q * requests + window % requests;
    assert (q + 1) * requests == q * requests + requests;
  }

  /** The per-IP limiter may always evict; the hourly limiter only from 18 requests an hour up. */
  lemma WhichLimitersMayEvict(requestsPerMinute: int, limit: int)
    ensures EvictionInvisible(IpRate(requestsPerMinute))
    ensures limit > 0 ==> (EvictionInvisible(CertIssueRate(limit)) <==> limit >= 18)
  {
    EvictionInvisibleIff(IpRate(requestsPerMinute));
    if limit > 0 {
      EvictionInvisibleIff(CertIssueRate(limit));
      HourlyCapacity(limit);
    }
  }

  lemma {:induction false} ProductMonotone(k: nat, x: nat, y: nat)
    ensures x <= y ==> k * x <= k * y && x * k <= y * k
  {
    if x <= y {
      assert k * y == k * x + k * (y - x);
    }
  }

  lemma QuotientBounds(a: nat, m: nat, n: nat)
    requires 1 <= m <= n
    ensures a / n <= a / m
  {
    var q, r := a / n, a / m;
    ProductMonotone(q, m, n);
    assert a < m * r + m == m * (r + 1);
    ProductMonotone(m, r + 1, q);
  }

  lemma HourlyCapacity(limit: int)
    requires limit > 0
    ensures CertIssueRate(limit).Capacity() <= LIMITER_IDLE_TTL + 1 <==> limit >= 18
  {
    var rate := CertIssueRate(limit);
    assert rate.interval == 3600 * SECOND / limit && rate.burst == CertIssueBurst(limit);
    if limit >= 18 {
      QuotientBounds(3600 * SECOND, 18, limit);
      assert rate.burst == 3;
    } else if limit >= 3 {
      QuotientBounds(3600 * SECOND, limit, 17);
      assert rate.burst == 3;
    } else {
      assert limit == 1 || limit == 2;
    }
  }
}
