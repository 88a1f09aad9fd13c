/** The Valkey limiter of internal/ratelimit: every bucket of the deployment in one key space.
    Worker clocks are parameters; a Lost call has run on the server although no reply came back. */
module RateLimit {
  import opened Wrappers
  import opened TokenBucket

  datatype Config = Config(
    globalRefillRate: real,
    globalCapacity: int,
    defaultRouteCapacity: int,
    keyPrefix: string)

  predicate ValidConfig(cfg: Config) {
    && ValidLimits(cfg.globalCapacity, cfg.globalRefillRate)
    && cfg.defaultRouteCapacity >= 1
  }

  /** A Valkey hash with its PEXPIRE deadline. */
  datatype Hash = Hash(fields: map<string, real>, expiresAt: int)

  predicate HasState(h: Hash) {
    && "tokens" in h.fields
    && "last_ms" in h.fields
    && h.fields["last_ms"] == h.fields["last_ms"].Floor as real
  }

  ghost function SlotAt(keys: map<string, Hash>, key: string): Slot {
    if key in keys && HasState(keys[key]) then
      Some(Bucket(keys[key].fields["tokens"], keys[key].fields["last_ms"].Floor, keys[key].expiresAt))
    else
      None
  }

  /** No key but those named has changed. */
  ghost predicate OnlyChanged(before: map<string, Hash>, now: map<string, Hash>, touched: set<string>) {
    && (forall k :: k in before && k !in touched ==> k in now && now[k] == before[k])
    && (forall k :: k in now && k !in touched ==> k in before)
  }

  datatype TakeReply = Allowed | Exhausted(retryAfterMs: int, bucket: string) | Unreachable

  /** The reply a caller gets for the script's answer. */
  function ReplyFor(answer: Answer, key: string): TakeReply {
    match answer
    case Granted(_) => Allowed
    case Denied(waitMs) => Exhausted(if waitMs < 1 then 1 else waitMs, key)
  }

  /** The script counts elapsed time in real seconds, the bucket in whole milliseconds. */
  lemma Refilled(tokens: real, last: int, lastMs: real, nowMs: int, capacity: int, rate: real)
    requires lastMs == last as real
    ensures Min(capacity as real, tokens + (nowMs as real - lastMs) / 1000.0 * rate)
         == Min(capacity as real, tokens + Gain(rate, nowMs - last))
  {
    assert (nowMs - last) as real == nowMs as real - lastMs;
  }

  class ValKeyLimiter {
    const cfg: Config
    var keys: map<string, Hash>

    constructor (cfg: Config)
      requires ValidConfig(cfg)
      ensures Valid() && keys == map[] && this.cfg == cfg
    {
      this.cfg := cfg;
      keys := map[];
    }

    ghost predicate Valid()
      reads this
    {
      && ValidConfig(cfg)
      && forall k :: k in keys ==> HasState(keys[k])
    }

    function GlobalKey(): string {
      cfg.keyPrefix + "global"
    }

    function RouteKey(route: string): string {
      cfg.keyPrefix + "route:" + route
    }

    /** The two routes' buckets and the global bucket never share a key. */
    lemma KeysAreApart(r: string, q: string)
      ensures RouteKey(r) != GlobalKey()
      ensures RouteKey(r) == RouteKey(q) <==> r == q
    {
      var n := |cfg.keyPrefix|;
      assert GlobalKey()[n] == 'g' && RouteKey(r)[n] == 'r';
      assert RouteKey(r)[n + 6..] == r && RouteKey(q)[n + 6..] == q;
    }

    /** The script's walk over the fields HGETALL returned, in whatever order they came. */
    static method ReadState(state: map<string, real>, capacity: int, nowMs: int)
      returns (tokens: real, lastMs: real)
      ensures tokens == if "tokens" in state then state["tokens"] else capacity as real
      ensures lastMs == if "last_ms" in state then state["last_ms"] else nowMs as real
    {
      tokens, lastMs := capacity as real, nowMs as real;
      var rest := state.Keys;
      while rest != {}
        invariant rest <= state.Keys
        invariant tokens == if "tokens" in state && "tokens" !in rest then state["tokens"] else capacity as real
        invariant lastMs == if "last_ms" in state && "last_ms" !in rest then state["last_ms"] else nowMs as real
        decreases rest
      {
        var field :| field in rest;
        if field == "tokens" {
          tokens := state[field];
        }
        if field == "last_ms" {
          lastMs := state[field];
        }
        rest := rest - {field};
      }
    }

    /** HGETALL: nothing once the key has expired. */
    function Stored(key: string, nowMs: int): map<string, real>
      reads this
    {
      if key in keys && nowMs < keys[key].expiresAt then keys[key].fields else map[]
    }

    /** The fields HGETALL returns are the live bucket's. */
    lemma StoredIsLive(key: string, nowMs: int)
      requires Valid()
      ensures var state, live := Stored(key, nowMs), Live(SlotAt(keys, key), nowMs);
        && (live.None? <==> |state| == 0)
        && (live.Some? ==> "tokens" in state && state["tokens"] == live.value.tokens)
        && (live.Some? ==> "last_ms" in state && state["last_ms"] == live.value.lastMs as real)
    {
      if key in keys && nowMs < keys[key].expiresAt {
        assert "tokens" in Stored(key, nowMs);
      }
    }

    /** The take script, run atomically on the server. */
    method Eval(key: string, capacity: int, rate: real, nowMs: int) returns (answer: Answer)
      requires Valid() && ValidLimits(capacity, rate)
      modifies this`keys
      ensures Valid() && OnlyChanged(old(keys), keys, {key})
      ensures answer == Step(SlotAt(old(keys), key), TokenBucket.Take(nowMs), capacity, rate, true).1.value
      ensures SlotAt(keys, key) == Step(SlotAt(old(keys), key), TokenBucket.Take(nowMs), capacity, rate, true).0
    {
      var state := Stored(key, nowMs);
      var tokens, lastMs := ReadState(state, capacity, nowMs);
      if |state| > 0 {
        var elapsed := (nowMs as real - lastMs) / 1000.0;
        tokens := Min(capacity as real, tokens + elapsed * rate);
      }
      ghost var live := Live(SlotAt(keys, key), nowMs);
      assert tokens == Level(live, capacity, rate, nowMs) by {
        StoredIsLive(key, nowMs);
        if live.Some? {
          Refilled(live.value.tokens, live.value.lastMs, lastMs, nowMs, capacity, rate);
        }
      }
      if tokens >= 1.0 {
        tokens := tokens - 1.0;
        var ttl := Ceil(capacity as real / rate * 1000.0) + 5000;
        keys := keys[key := Hash(state["tokens" := tokens]["last_ms" := nowMs as real], nowMs + ttl)];
        answer := Granted(tokens.Floor);
      } else {
        var need := (1.0 - tokens) / rate;
        answer := Denied(Ceil(need * 1000.0));
      }
    }

    method Take(key: string, capacity: int, rate: real, nowMs: int, o: Outcome) returns (reply: TakeReply)
      requires Valid() && ValidLimits(capacity, rate)
      modifies this`keys
      ensures Valid() && OnlyChanged(old(keys), keys, {key})
      ensures !o.Effective() ==> keys == old(keys)
      ensures reply == Unreachable <==> !o.Seen()
      ensures reply.Exhausted? ==> reply.bucket == key && reply.retryAfterMs >= 1
      ensures var r := Step(SlotAt(old(keys), key), TokenBucket.Take(nowMs), capacity, rate, true);
        && (o.Effective() ==> SlotAt(keys, key) == r.0)
        && (o.Seen() ==> reply == ReplyFor(r.1.value, key))
    {
      if !o.Effective() {
        return Unreachable;
      }
      var answer := Eval(key, capacity, rate, nowMs);
      if !o.Seen() {
        return Unreachable;
      }
      match answer {
        case Granted(_) => reply := Allowed;
        case Denied(waitMs) =>
          var retryAfter := waitMs;
          if retryAfter < 1 {
            retryAfter := 1;
          }
          reply := Exhausted(retryAfter, key);
      }
    }

    method TakeGlobal(nowMs: int, o: Outcome) returns (reply: TakeReply)
      requires Valid()
      modifies this`keys
      ensures Valid() && OnlyChanged(old(keys), keys, {GlobalKey()})
      ensures !o.Effective() ==> keys == old(keys)
      ensures !o.Seen() ==> reply == Unreachable
      ensures var before, take := SlotAt(old(keys), GlobalKey()), TokenBucket.Take(nowMs);
        var r := Step(before, take, cfg.globalCapacity, cfg.globalRefillRate, true);
        && (o.Effective() ==> SlotAt(keys, GlobalKey()) == r.0)
        && (o.Seen() ==> reply == ReplyFor(r.1.value, GlobalKey()))
    {
      reply := Take(GlobalKey(), cfg.globalCapacity, cfg.globalRefillRate, nowMs, o);
    }

    /** A route bucket refills completely every second. */
    method TakeRoute(route: string, nowMs: int, o: Outcome) returns (reply: TakeReply)
      requires Valid()
      modifies this`keys
      ensures Valid() && OnlyChanged(old(keys), keys, {RouteKey(route)})
      ensures !o.Effective() ==> keys == old(keys)
      ensures !o.Seen() ==> reply == Unreachable
      ensures var c := cfg.defaultRouteCapacity;
        var r := Step(SlotAt(old(keys), RouteKey(route)), TokenBucket.Take(nowMs), c, c as real, true);
        && (o.Effective() ==> SlotAt(keys, RouteKey(route)) == r.0)
        && (o.Seen() ==> reply == ReplyFor(r.1.value, RouteKey(route)))
    {
      reply := Take(RouteKey(route), cfg.defaultRouteCapacity, cfg.defaultRouteCapacity as real, nowMs, o);
    }

    /** HSET keeps the other fields of a live hash; PEXPIRE replaces its deadline. */
    method Write(key: string, fields: map<string, real>, nowMs: int, ttl: int)
      requires Valid() && HasState(Hash(fields, 0))
      modifies this`keys
      ensures Valid() && OnlyChanged(old(keys), keys, {key})
      ensures SlotAt(keys, key) == Some(Bucket(fields["tokens"], fields["last_ms"].Floor, nowMs + ttl))
    {
      keys := keys[key := Hash(Stored(key, nowMs) + fields, nowMs + ttl)];
    }

    method UpdateFromHeaders(route: string, limit: int, remaining: int, nowMs: int, resetAt: int, o: Outcome)
      returns (ok: bool)
      requires Valid()
      modifies this`keys
      ensures Valid() && ok == o.Seen() && OnlyChanged(old(keys), keys, {RouteKey(route)})
      ensures !o.Effective() ==> keys == old(keys)
      ensures o.Effective() ==> SlotAt(keys, RouteKey(route)) == Seeded(remaining, nowMs, resetAt)
    {
      var left := remaining;
      if left < 0 {
        left := 0;
      }
      var ttl := resetAt - nowMs + 5000;
      if ttl <= 0 {
        ttl := 5000;
      }
      if ttl > MAX_PENALTY_MS {
        ttl := MAX_PENALTY_MS;
      }
      if o.Effective() {
        var fields := map["tokens" := left as real, "last_ms" := nowMs as real, "capacity" := limit as real];
        Write(RouteKey(route), fields, nowMs, ttl);
      }
      ok := o.Seen();
    }

    /** Freezes the global bucket and the named route; no other bucket notices. */
    method PenalizeUntil(route: string, retryAfter: int, nowMs: int, o: Outcome) returns (ok: bool)
      requires Valid()
      modifies this`keys
      ensures Valid() && OnlyChanged(old(keys), keys, {GlobalKey(), RouteKey(route)})
      ensures ok == (retryAfter <= 0 || o.Seen())
      ensures retryAfter <= 0 || !o.Effective() ==> keys == old(keys)
      ensures retryAfter > 0 && o.Effective() ==>
        && SlotAt(keys, GlobalKey()) == Penalized(SlotAt(old(keys), GlobalKey()), nowMs, retryAfter)
        && SlotAt(keys, RouteKey(route)) == Penalized(SlotAt(old(keys), RouteKey(route)), nowMs, retryAfter)
    {
      if retryAfter <= 0 {
        return true;
      }
      var capped := retryAfter;
      if capped > MAX_PENALTY_MS {
        capped := MAX_PENALTY_MS;
      }
      if !o.Effective() {
        return false;
      }
      KeysAreApart(route, route);
      var targets := [GlobalKey(), RouteKey(route)];
      var until := (nowMs + capped) as real;
      for i := 0 to |targets|
        invariant Valid() && OnlyChanged(old(keys), keys, {GlobalKey(), RouteKey(route)})
        invariant i >= 1 ==> SlotAt(keys, GlobalKey()) == Penalized(None, nowMs, retryAfter)
        invariant i >= 2 ==> SlotAt(keys, RouteKey(route)) == Penalized(None, nowMs, retryAfter)
      {
        Write(targets[i], map["tokens" := 0.0, "last_ms" := until], nowMs, capped + 10_000);
      }
      ok := o.Seen();
    }
  }

  // ---- internal/worker/errors.go ----

  function Doubled(n: nat): (ms: int)
    ensures ms >= 1000
  {
    if n == 0 then 1000 else 2 * Doubled(n - 1)
  }

  /** The delay before attempt n + 1 of a task that ended in `v`. */
  function RetryDelayFunc(n: nat, v: Verdict): (ms: int)
    ensures v.RateLimited? && v.retryAfterMs > 0 ==> ms == v.retryAfterMs
    ensures !v.RateLimited? ==> 1000 <= ms <= 600_000
  {
    if v.RateLimited? && v.retryAfterMs > 0 then v.retryAfterMs
    else
      var delay := Doubled(if n < 10 then n else 10);
      if delay > 600_000 then 600_000 else delay
  }

  /** Whatever else went wrong: one second before the first retry, twice as long before each further
      one, and never more than ten minutes. */
  lemma RetriesDouble(n: nat, v: Verdict)
    requires v.RateLimited? ==> v.retryAfterMs <= 0
    ensures RetryDelayFunc(0, v) == 1_000
    ensures var next := 2 * RetryDelayFunc(n, v);
      RetryDelayFunc(n + 1, v) == if next <= 600_000 then next else 600_000
  {
    assert Doubled(9) == 2 * (2 * (2 * (2 * (2 * (2 * (2 * (2 * (2 * 1000))))))));
    assert Doubled(10) == 2 * Doubled(9);
  }

  /** The verdict a handler returns when a take is refused. */
  function VerdictFor(reply: TakeReply): Verdict {
    match reply
    case Allowed => Success
    case Exhausted(ms, bucket) => RateLimited(ms, bucket)
    case Unreachable => Retry
  }

  predicate IsFailure(v: Verdict) {
    !v.RateLimited?
  }

  /** Being out of tokens is no failure, being unable to ask is. */
  lemma RefusalFailsIff(reply: TakeReply)
    requires !reply.Allowed?
    ensures IsFailure(VerdictFor(reply)) <==> reply.Unreachable?
  {
  }

  /** A refused take is rescheduled for the first millisecond at which it would be granted,
      whatever the attempt number, and does not count as a failure. */
  lemma RetryLandsOnTheFirstGrant(s: Slot, capacity: int, rate: real, now: int, key: string, n: nat, at: int)
    requires ValidLimits(capacity, rate) && Covered(s, capacity, rate) && now <= at
    requires Step(s, Take(now), capacity, rate, true).1.value.Denied?
    ensures var v := VerdictFor(ReplyFor(Step(s, Take(now), capacity, rate, true).1.value, key));
      && !IsFailure(v)
      && (Step(s, Take(at), capacity, rate, true).1.value.Granted? <==> at >= now + RetryDelayFunc(n, v))
  {
    DeniedWaitIsLeast(s, capacity, rate, now, at);
  }
}
