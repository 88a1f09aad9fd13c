/** The take script of internal/ratelimit: one bucket as a value.
    Times are whole milliseconds, token counts exact reals. */
module TokenBucket {
  import opened Wrappers

  /** The two fields the script reads, and when the key dies. */
  datatype Bucket = Bucket(tokens: real, lastMs: int, expiresAt: int)
  type Slot = Option<Bucket>

  datatype Answer = Granted(remaining: int) | Denied(waitMs: int)

  const MAX_PENALTY_MS: int := 300_000

  predicate ValidLimits(capacity: int, rate: real) {
    capacity >= 1 && rate > 0.0
  }

  function Ceil(x: real): (r: int)
    ensures x <= r as real < x + 1.0
  {
    -((-x).Floor)
  }

  function Min(a: real, b: real): real {
    if a <= b then a else b
  }

  /** Tokens that flow in over a span of milliseconds (negative spans drain). */
  function Gain(rate: real, ms: int): real {
    rate * (ms as real / 1000.0)
  }

  /** What Valkey still shows of the key at `now`. */
  function Live(s: Slot, now: int): Slot {
    if s.Some? && now >= s.value.expiresAt then None else s
  }

  /** Tokens after the script's refill; an absent key is a full bucket. */
  function Level(s: Slot, capacity: int, rate: real, now: int): real {
    match s
    case None => capacity as real
    case Some(b) => Min(capacity as real, b.tokens + Gain(rate, now - b.lastMs))
  }

  function TakeTtl(capacity: int, rate: real): int
    requires rate > 0.0
  {
    Ceil(capacity as real / rate * 1000.0) + 5000
  }

  /** The script on whatever HGETALL returned. */
  function TakeLive(s: Slot, capacity: int, rate: real, now: int): (Slot, Answer)
    requires ValidLimits(capacity, rate)
  {
    var tokens := Level(s, capacity, rate, now);
    if tokens >= 1.0 then
      (Some(Bucket(tokens - 1.0, now, now + TakeTtl(capacity, rate))), Granted((tokens - 1.0).Floor))
    else
      (s, Denied(Ceil((1.0 - tokens) / rate * 1000.0)))
  }

  function PenaltyMs(retryAfter: int): int {
    if retryAfter > MAX_PENALTY_MS then MAX_PENALTY_MS else retryAfter
  }

  /** A 429 freeze: no tokens, and a refill clock that starts in the future. */
  function Penalized(s: Slot, now: int, retryAfter: int): Slot {
    if retryAfter <= 0 then s
    else
      var r := PenaltyMs(retryAfter);
      Some(Bucket(0.0, now + r, now + r + 10_000))
  }

  function HeaderTtl(now: int, resetAt: int): int {
    var ttl := resetAt - now + 5000;
    if ttl <= 0 then 5000 else if ttl > MAX_PENALTY_MS then MAX_PENALTY_MS else ttl
  }

  function HeaderTokens(remaining: int): int {
    if remaining < 0 then 0 else remaining
  }

  function Seeded(remaining: int, now: int, resetAt: int): Slot {
    Some(Bucket(HeaderTokens(remaining) as real, now, now + HeaderTtl(now, resetAt)))
  }

  // ---- Histories of one bucket ----

  datatype Event =
    | Take(now: int)
    | Penalize(now: int, retryAfter: int)
    | Headers(now: int, remaining: int, resetAt: int)

  /** One event on a bucket whose key expires, or (expires = false) never does. */
  function Step(s: Slot, e: Event, capacity: int, rate: real, expires: bool): (Slot, Option<Answer>)
    requires ValidLimits(capacity, rate)
  {
    match e
    case Take(now) =>
      var r := TakeLive(if expires then Live(s, now) else s, capacity, rate, now);
      (r.0, Some(r.1))
    case Penalize(now, retryAfter) => (Penalized(s, now, retryAfter), None)
    case Headers(now, remaining, resetAt) => (Seeded(remaining, now, resetAt), None)
  }

  function Answers(s: Slot, es: seq<Event>, capacity: int, rate: real, expires: bool): seq<Option<Answer>>
    requires ValidLimits(capacity, rate)
    decreases es
  {
    if es == [] then []
    else
      var r := Step(s, es[0], capacity, rate, expires);
      [r.1] + Answers(r.0, es[1..], capacity, rate, expires)
  }

  function After(s: Slot, es: seq<Event>, capacity: int, rate: real, expires: bool): Slot
    requires ValidLimits(capacity, rate)
    decreases es
  {
    if es == [] then s else After(Step(s, es[0], capacity, rate, expires).0, es[1..], capacity, rate, expires)
  }

  predicate IsGrant(e: Event, answer: Option<Answer>, a: int, b: int) {
    e.Take? && a <= e.now <= b && answer.Some? && answer.value.Granted?
  }

  /** Takes granted with a timestamp in [a, b]. */
  function Grants(s: Slot, es: seq<Event>, capacity: int, rate: real, expires: bool, a: int, b: int): nat
    requires ValidLimits(capacity, rate)
    decreases es
  {
    if es == [] then 0
    else
      var r := Step(s, es[0], capacity, rate, expires);
      (if IsGrant(es[0], r.1, a, b) then 1 else 0) + Grants(r.0, es[1..], capacity, rate, expires, a, b)
  }

  ghost predicate Monotone(es: seq<Event>, from: int) {
    && (forall i :: 0 <= i < |es| ==> from <= es[i].now)
    && (forall i, j :: 0 <= i < j < |es| ==> es[i].now <= es[j].now)
  }

  /** By the time the key dies the bucket it described is full again. */
  predicate Covered(s: Slot, capacity: int, rate: real) {
    s.Some? ==> s.value.tokens + Gain(rate, s.value.expiresAt - s.value.lastMs) >= capacity as real
  }

  // ---- Arithmetic of refilling ----

  lemma GainAdds(rate: real, x: int, y: int)
    ensures Gain(rate, x + y) == Gain(rate, x) + Gain(rate, y)
  {
  }

  lemma GainGrows(rate: real, x: int, y: int)
    requires rate > 0.0 && x <= y
    ensures Gain(rate, x) <= Gain(rate, y)
  {
    GainAdds(rate, x, y - x);
    assert Gain(rate, y - x) >= 0.0;
  }

  /** A level never grows faster than the refill rate. */
  lemma LevelGrowth(s: Slot, capacity: int, rate: real, t: int, u: int)
    requires ValidLimits(capacity, rate) && t <= u
    ensures Level(s, capacity, rate, t) <= Level(s, capacity, rate, u)
    ensures Level(s, capacity, rate, u) <= Level(s, capacity, rate, t) + Gain(rate, u - t)
  {
    GainGrows(rate, 0, u - t);
    if s.Some? {
      GainAdds(rate, t - s.value.lastMs, u - t);
    }
  }

  /** Dropping the key of a covered bucket at or after its expiry changes nothing a take can see. */
  lemma CoveredLevel(s: Slot, capacity: int, rate: real, now: int)
    requires ValidLimits(capacity, rate) && Covered(s, capacity, rate)
    ensures Level(Live(s, now), capacity, rate, now) == Level(s, capacity, rate, now)
  {
    if s.Some? && now >= s.value.expiresAt {
      GainGrows(rate, s.value.expiresAt - s.value.lastMs, now - s.value.lastMs);
    }
  }

  /** The times a key must outlive so that every writer leaves the bucket covered. */
  predicate Tame(e: Event, capacity: int, rate: real) {
    match e
    case Take(_) => true
    case Penalize(_, _) => capacity as real <= 10.0 * rate
    case Headers(now, remaining, resetAt) => HeaderFills(remaining, now, resetAt, capacity, rate)
  }

  /** The bucket a header seeds refills within the TTL it is given. */
  predicate HeaderFills(remaining: int, now: int, resetAt: int, capacity: int, rate: real) {
    HeaderTokens(remaining) as real + Gain(rate, HeaderTtl(now, resetAt)) >= capacity as real
  }

  ghost predicate AllTame(es: seq<Event>, capacity: int, rate: real) {
    forall i :: 0 <= i < |es| ==> Tame(es[i], capacity, rate)
  }

  lemma TakeTtlCovers(capacity: int, rate: real)
    requires ValidLimits(capacity, rate)
    ensures Gain(rate, TakeTtl(capacity, rate)) >= capacity as real
  {
    var full := capacity as real / rate;
    assert TakeTtl(capacity, rate) as real >= full * 1000.0;
    var over := TakeTtl(capacity, rate) as real / 1000.0 - full;
    assert Gain(rate, TakeTtl(capacity, rate)) == rate * (full + over);
    assert rate * full == capacity as real;
    assert rate * over >= 0.0;
    assert rate * (full + over) == rate * full + rate * over;
  }

  lemma StepStaysCovered(s: Slot, e: Event, capacity: int, rate: real, expires: bool)
    requires ValidLimits(capacity, rate) && Covered(s, capacity, rate) && Tame(e, capacity, rate)
    ensures Covered(Step(s, e, capacity, rate, expires).0, capacity, rate)
  {
    match e
    case Take(now) =>
      TakeTtlCovers(capacity, rate);
    case Penalize(now, retryAfter) =>
      assert Gain(rate, 10_000) == 10.0 * rate;
    case Headers(now, remaining, resetAt) =>
  }

  // ---- TTLs are unobservable ----

  /** A bucket whose key expires answers every history exactly like one that lives for ever. */
  lemma {:induction false} ExpiryUnobservable(s: Slot, es: seq<Event>, capacity: int, rate: real)
    requires ValidLimits(capacity, rate) && Covered(s, capacity, rate)
    requires AllTame(es, capacity, rate)
    ensures Answers(s, es, capacity, rate, true) == Answers(s, es, capacity, rate, false)
    ensures After(s, es, capacity, rate, true) == After(s, es, capacity, rate, false)
    decreases es
  {
    if es != [] {
      if es[0].Take? {
        CoveredLevel(s, capacity, rate, es[0].now);
      }
      assert Tame(es[0], capacity, rate);
      StepStaysCovered(s, es[0], capacity, rate, true);
      ExpiryUnobservable(Step(s, es[0], capacity, rate, true).0, es[1..], capacity, rate);
    }
  }

  /** Route buckets refill in a second, so any reset time that is not in the past is tame. */
  lemma CurrentHeadersAreTame(capacity: int, now: int, remaining: int, resetAt: int)
    requires capacity >= 1 && resetAt >= now
    ensures Tame(Headers(now, remaining, resetAt), capacity, capacity as real)
  {
    GainGrows(capacity as real, 1000, HeaderTtl(now, resetAt));
  }

  function Burst(now: int, n: nat): (es: seq<Event>)
    ensures |es| == n && forall i :: 0 <= i < n ==> es[i] == Take(now)
  {
    if n == 0 then [] else [Take(now)] + Burst(now, n - 1)
  }

  predicate AllGranted(answers: seq<Option<Answer>>) {
    forall i :: 0 <= i < |answers| ==> answers[i].Some? && answers[i].value.Granted?
  }

  /** n takes at one instant all succeed exactly when n tokens are there. */
  lemma {:induction false} BurstNeedsTokens(s: Slot, now: int, n: nat, capacity: int, rate: real, expires: bool)
    requires ValidLimits(capacity, rate)
    ensures AllGranted(Answers(s, Burst(now, n), capacity, rate, expires))
        <==> (n == 0 || Level(if expires then Live(s, now) else s, capacity, rate, now) >= n as real)
    decreases n
  {
    if n > 0 {
      var es := Burst(now, n);
      assert es[1..] == Burst(now, n - 1);
      var r := Step(s, es[0], capacity, rate, expires);
      var rest := Answers(r.0, es[1..], capacity, rate, expires);
      assert Answers(s, es, capacity, rate, expires) == [r.1] + rest;
      assert AllGranted([r.1] + rest) <==> AllGranted([r.1]) && AllGranted(rest) by {
        assert forall i :: 0 <= i < |rest| ==> ([r.1] + rest)[i + 1] == rest[i];
        assert ([r.1] + rest)[0] == r.1;
      }
      if r.1.value.Granted? {
        var ttl := TakeTtl(capacity, rate);
        assert r.0.value.lastMs == now && r.0.value.expiresAt == now + ttl;
        TtlPositive(capacity, rate);
        assert Gain(rate, 0) == 0.0;
        BurstNeedsTokens(r.0, now, n - 1, capacity, rate, expires);
      } else {
        assert [r.1][0].value.Denied?;
      }
    }
  }

  lemma TtlPositive(capacity: int, rate: real)
    requires ValidLimits(capacity, rate)
    ensures TakeTtl(capacity, rate) > 0
  {
    assert capacity as real / rate > 0.0;
  }

  /** A grant's `remaining` is how many more takes would be granted at the same instant. */
  lemma RemainingIsExact(s: Slot, now: int, n: nat, capacity: int, rate: real)
    requires ValidLimits(capacity, rate) && Step(s, Take(now), capacity, rate, true).1.value.Granted?
    ensures var r := Step(s, Take(now), capacity, rate, true);
      && r.1.value.remaining >= 0
      && (AllGranted(Answers(r.0, Burst(now, n), capacity, rate, true)) <==> n <= r.1.value.remaining)
  {
    var r := Step(s, Take(now), capacity, rate, true);
    TtlPositive(capacity, rate);
    assert Gain(rate, 0) == 0.0;
    BurstNeedsTokens(r.0, now, n, capacity, rate, true);
  }

  /** A granted take's key lives five seconds longer than an empty bucket takes to fill. */
  lemma KeyOutlivesTheRefill(s: Slot, now: int, capacity: int, rate: real, full: int, t: int)
    requires ValidLimits(capacity, rate) && Step(s, Take(now), capacity, rate, true).1.value.Granted?
    requires Gain(rate, full - 1) < capacity as real <= Gain(rate, full)
    ensures Live(Step(s, Take(now), capacity, rate, true).0, t).None? <==> t >= now + full + 5_000
  {
    WaitIsCeiling(rate, capacity as real, full);
    WaitIsCeiling(rate, capacity as real, full - 1);
  }

  /** After a header the bucket holds what the header says is left, within its capacity; a negative
      count counts as none. */
  lemma HeaderBurst(remaining: int, now: int, resetAt: int, n: nat, capacity: int, rate: real)
    requires ValidLimits(capacity, rate)
    ensures AllGranted(Answers(Seeded(remaining, now, resetAt), Burst(now, n), capacity, rate, true))
       <==> n == 0 || (n <= remaining && n <= capacity)
  {
    BurstNeedsTokens(Seeded(remaining, now, resetAt), now, n, capacity, rate, true);
    assert Gain(rate, 0) == 0.0;
  }

  /** Its key dies five seconds after the reset time, at the latest after five minutes; after five
      seconds if that time is over by then. */
  lemma HeaderKeyDies(remaining: int, now: int, resetAt: int, t: int)
    ensures resetAt > now - 5_000 ==>
      (Live(Seeded(remaining, now, resetAt), t).None? <==> t - 5_000 >= resetAt || t >= now + 300_000)
    ensures resetAt <= now - 5_000 ==> (Live(Seeded(remaining, now, resetAt), t).None? <==> t >= now + 5_000)
  {
  }

  /** The history cannot tell an expiring key from an immortal one. */
  predicate Unnoticed(s: Slot, es: seq<Event>, capacity: int, rate: real)
    requires ValidLimits(capacity, rate)
  {
    Answers(s, es, capacity, rate, true) == Answers(s, es, capacity, rate, false)
  }

  /** A header write's TTL goes unnoticed by every later history exactly when the bucket it
      seeds is full by the time the key dies. */
  lemma HeaderExpiryUnobservableIff(remaining: int, now: int, resetAt: int, capacity: int, rate: real)
    requires ValidLimits(capacity, rate)
    ensures HeaderFills(remaining, now, resetAt, capacity, rate)
       <==> forall es | AllTame(es, capacity, rate) :: Unnoticed(Seeded(remaining, now, resetAt), es, capacity, rate)
  {
    var s := Seeded(remaining, now, resetAt);
    if HeaderFills(remaining, now, resetAt, capacity, rate) {
      forall es | AllTame(es, capacity, rate)
        ensures Unnoticed(s, es, capacity, rate)
      {
        ExpiryUnobservable(s, es, capacity, rate);
      }
    } else {
      var es := Burst(s.value.expiresAt, capacity);
      BurstNeedsTokens(s, s.value.expiresAt, capacity, capacity, rate, true);
      BurstNeedsTokens(s, s.value.expiresAt, capacity, capacity, rate, false);
      assert AllTame(es, capacity, rate);
      assert !Unnoticed(s, es, capacity, rate);
    }
  }

  /** A reset time 4.9 s in the past leaves a 100 ms TTL: an empty route bucket comes back full. */
  lemma StaleHeaderIsObservable()
    ensures !HeaderFills(0, 10_000, 5_100, 5, 5.0)
    ensures HeaderTtl(10_000, 5_100) == 100
    ensures exists es :: !Unnoticed(Seeded(0, 10_000, 5_100), es, 5, 5.0)
  {
    HeaderExpiryUnobservableIff(0, 10_000, 5_100, 5, 5.0);
  }

  // ---- Grants in a window ----

  function Max0(x: real): real {
    if x >= 0.0 then x else 0.0
  }

  lemma {:induction false} NoneLater(s: Slot, es: seq<Event>, capacity: int, rate: real, expires: bool, a: int, b: int, from: int)
    requires ValidLimits(capacity, rate) && Monotone(es, from) && b < from
    ensures Grants(s, es, capacity, rate, expires, a, b) == 0
    decreases es
  {
    if es != [] {
      NoneLater(Step(s, es[0], capacity, rate, expires).0, es[1..], capacity, rate, expires, a, b, from);
    }
  }

  /** Inside the window: what is there now plus what flows in by b. */
  lemma {:induction false} WindowFrom(s: Slot, es: seq<Event>, capacity: int, rate: real, a: int, b: int, t: int)
    requires ValidLimits(capacity, rate) && Covered(s, capacity, rate) && AllTame(es, capacity, rate)
    requires Monotone(es, t) && a <= t <= b
    requires forall i :: 0 <= i < |es| ==> !es[i].Headers?
    ensures Grants(s, es, capacity, rate, true, a, b) as real
         <= Max0(Level(s, capacity, rate, t)) + Gain(rate, b - t)
    decreases es
  {
    GainGrows(rate, 0, b - t);
    if es != [] {
      var e, now := es[0], es[0].now;
      var r := Step(s, e, capacity, rate, true);
      if now > b {
        assert Monotone(es, now);
        NoneLater(s, es, capacity, rate, true, a, b, now);
      } else {
        assert Tame(e, capacity, rate);
        StepStaysCovered(s, e, capacity, rate, true);
        assert Monotone(es[1..], now);
        WindowFrom(r.0, es[1..], capacity, rate, a, b, now);
        LevelGrowth(s, capacity, rate, t, now);
        GainAdds(rate, now - t, b - now);
        match e {
          case Take(_) =>
            CoveredLevel(s, capacity, rate, now);
            assert Gain(rate, 0) == 0.0;
          case Penalize(_, retryAfter) =>
            if retryAfter > 0 {
              GainGrows(rate, now - r.0.value.lastMs, 0);
            }
        }
      }
    }
  }

  /** Over any history of takes, denials, penalties and key expiry, no window of time holds more
      grants than a full bucket plus the refill of the window. */
  lemma {:induction false} WindowBound(s: Slot, es: seq<Event>, capacity: int, rate: real, a: int, b: int, from: int)
    requires ValidLimits(capacity, rate) && capacity as real <= 10.0 * rate
    requires Covered(s, capacity, rate) && Monotone(es, from) && a <= b
    requires forall i :: 0 <= i < |es| ==> !es[i].Headers?
    ensures Grants(s, es, capacity, rate, true, a, b) as real <= capacity as real + Gain(rate, b - a)
    decreases es
  {
    GainGrows(rate, 0, b - a);
    if es != [] {
      if es[0].now >= a {
        if es[0].now > b {
          NoneLater(s, es, capacity, rate, true, a, b, es[0].now);
        } else {
          WindowFrom(s, es, capacity, rate, a, b, a);
        }
      } else {
        StepStaysCovered(s, es[0], capacity, rate, true);
        assert Monotone(es[1..], es[0].now);
        WindowBound(Step(s, es[0], capacity, rate, true).0, es[1..], capacity, rate, a, b, es[0].now);
      }
    }
  }

  /** Tokens measured against a fixed origin: a take never raises it, whatever its timestamp. */
  function Credit(b: Bucket, rate: real): real {
    b.tokens - Gain(rate, b.lastMs)
  }

  lemma {:induction false} CreditBound(bk: Bucket, es: seq<Event>, capacity: int, rate: real, a: int, b: int)
    requires ValidLimits(capacity, rate)
    requires forall i :: 0 <= i < |es| ==> es[i].Take?
    ensures Grants(Some(bk), es, capacity, rate, false, a, b) as real <= Max0(Credit(bk, rate) + Gain(rate, b))
    decreases es
  {
    if es != [] {
      var now := es[0].now;
      var r := Step(Some(bk), es[0], capacity, rate, false);
      CreditBound(r.0.value, es[1..], capacity, rate, a, b);
      GainAdds(rate, now - bk.lastMs, bk.lastMs);
      if now <= b {
        GainGrows(rate, now, b);
      }
    }
  }

  /** Workers may read their clocks in any order: for takes alone the bound holds all the same. */
  lemma {:induction false} WindowBoundAnyClock(s: Slot, es: seq<Event>, capacity: int, rate: real, a: int, b: int)
    requires ValidLimits(capacity, rate) && a <= b
    requires forall i :: 0 <= i < |es| ==> es[i].Take?
    ensures Grants(s, es, capacity, rate, false, a, b) as real <= capacity as real + Gain(rate, b - a)
    decreases es
  {
    GainGrows(rate, 0, b - a);
    if es != [] {
      var now := es[0].now;
      var r := Step(s, es[0], capacity, rate, false);
      if IsGrant(es[0], r.1, a, b) {
        CreditBound(r.0.value, es[1..], capacity, rate, a, b);
        GainGrows(rate, a, now);
        GainAdds(rate, a, b - a);
      } else {
        WindowBoundAnyClock(r.0, es[1..], capacity, rate, a, b);
      }
    }
  }

  // ---- The wait a denial reports ----

  /** Left alone, a bucket that denied at `now` with wait w grants at now + w and at no earlier
      millisecond; the key's own expiry does not interfere. */
  lemma DeniedWaitIsLeast(s: Slot, capacity: int, rate: real, now: int, later: int)
    requires ValidLimits(capacity, rate) && Covered(s, capacity, rate) && now <= later
    requires TakeLive(Live(s, now), capacity, rate, now).1.Denied?
    ensures TakeLive(Live(s, now), capacity, rate, now).1.waitMs >= 1
    ensures TakeLive(Live(s, later), capacity, rate, later).1.Granted?
       <==> later >= now + TakeLive(Live(s, now), capacity, rate, now).1.waitMs
  {
    CoveredLevel(s, capacity, rate, now);
    CoveredLevel(s, capacity, rate, later);
    var missing := 1.0 - Level(s, capacity, rate, now);
    var wait := Ceil(missing / rate * 1000.0);
    GainAdds(rate, now - s.value.lastMs, later - now);
    WaitIsCeiling(rate, missing, later - now);
    WaitIsCeiling(rate, missing, 0);
  }

  lemma WaitIsCeiling(rate: real, missing: real, ms: int)
    requires rate > 0.0
    ensures Gain(rate, ms) >= missing <==> ms >= Ceil(missing / rate * 1000.0)
  {
    var secs := missing / rate;
    assert rate * secs == missing;
    var diff := ms as real / 1000.0 - secs;
    assert Gain(rate, ms) == rate * (secs + diff);
    assert rate * (secs + diff) == missing + rate * diff;
    if diff >= 0.0 {
      assert rate * diff >= 0.0;
    } else {
      assert rate * diff < 0.0;
    }
    assert diff >= 0.0 <==> ms as real >= secs * 1000.0;
  }

  // ---- The freeze after a 429 ----

  /** The end of the freeze that a 429 at `now` starts: Discord's delay, at most five minutes of it, and
      then the time in which one token flows in. */
  predicate Thawed(t: int, now: int, retryAfter: int, rate: real)
    requires rate > 0.0
  {
    t as real >= (now + if retryAfter <= 300_000 then retryAfter else 300_000) as real + 1000.0 / rate
  }

  lemma ThawIsOneToken(rate: real, ms: int)
    requires rate > 0.0
    ensures Gain(rate, ms) >= 1.0 <==> ms as real >= 1000.0 / rate
  {
    var perToken := 1000.0 / rate;
    assert rate * perToken == 1000.0;
    var diff := ms as real - perToken;
    assert rate * ms as real == 1000.0 + rate * diff;
    assert Gain(rate, ms) == (rate * ms as real) / 1000.0;
    assert rate * diff >= 0.0 <==> diff >= 0.0;
  }

  /** A bucket frozen at `now`, whatever it held, grants from now + min(retryAfter, 5 min) + one token's
      refill on and not before. */
  lemma FrozenTake(s: Slot, now: int, retryAfter: int, capacity: int, rate: real, t: int)
    requires ValidLimits(capacity, rate) && capacity as real <= 10.0 * rate && retryAfter > 0
    ensures var frozen := Penalized(s, now, retryAfter);
      TakeLive(Live(frozen, t), capacity, rate, t).1.Granted?
      <==> t as real >= (now + if retryAfter <= 300_000 then retryAfter else 300_000) as real + 1000.0 / rate
  {
    var frozen := Penalized(s, now, retryAfter);
    StepStaysCovered(None, Penalize(now, retryAfter), capacity, rate, true);
    CoveredLevel(frozen, capacity, rate, t);
    ThawIsOneToken(rate, t - frozen.value.lastMs);
  }

  /** Its key dies ten seconds after the delay is over. */
  lemma FrozenKeyDies(s: Slot, now: int, retryAfter: int, t: int)
    requires retryAfter > 0
    ensures Live(Penalized(s, now, retryAfter), t).None?
       <==> t >= now + 310_000 || t - 10_000 >= now + retryAfter
  {
  }

  predicate AllDenied(answers: seq<Option<Answer>>) {
    forall i :: 0 <= i < |answers| ==> answers[i].Some? && answers[i].value.Denied?
  }

  /** Takes that the slot as it stands would deny leave it as it stands. */
  lemma {:induction false} DenialsChangeNothing(s: Slot, early: seq<Event>, capacity: int, rate: real)
    requires ValidLimits(capacity, rate)
    requires forall e :: e in early ==> e.Take? && TakeLive(Live(s, e.now), capacity, rate, e.now).1.Denied?
    ensures After(s, early, capacity, rate, true) == s
    ensures AllDenied(Answers(s, early, capacity, rate, true))
    decreases early
  {
    if early != [] {
      assert early[0] in early;
      DenialsChangeNothing(s, early[1..], capacity, rate);
      assert Step(s, early[0], capacity, rate, true).0 == s;
    }
  }

  /** Takes made before the thaw are all denied and leave the freeze as it was; a take that
      follows them is granted exactly from the thaw on. */
  lemma FreezeIsExact(s0: Slot, now: int, retryAfter: int, early: seq<Event>, capacity: int, rate: real, t: int)
    requires ValidLimits(capacity, rate) && capacity as real <= 10.0 * rate && retryAfter > 0
    requires forall e :: e in early ==> e.Take? && !Thawed(e.now, now, retryAfter, rate)
    ensures var s := Penalized(s0, now, retryAfter);
      && AllDenied(Answers(s, early, capacity, rate, true))
      && (Step(After(s, early, capacity, rate, true), Take(t), capacity, rate, true).1.value.Granted?
          <==> Thawed(t, now, retryAfter, rate))
  {
    var s := Penalized(s0, now, retryAfter);
    forall e | e in early
      ensures e.Take? && TakeLive(Live(s, e.now), capacity, rate, e.now).1.Denied?
    {
      FrozenTake(s0, now, retryAfter, capacity, rate, e.now);
    }
    DenialsChangeNothing(s, early, capacity, rate);
    FrozenTake(s0, now, retryAfter, capacity, rate, t);
  }
}
