/** The distributed locks of internal/lock: SET NX PX with a fencing token, and a
    compare-and-delete release. Times are milliseconds on the Valkey server. */
module Lock {
  import opened Wrappers

  datatype Lease = Lease(token: string, expiresAt: int)
  type Leases = map<string, Lease>

  datatype Reply = Acquired(token: string) | HeldElsewhere | LockFailed

  const DEFAULT_TTL: int := 30_000
  const SPACE_PREFIX := "lock:space:"
  const MERCHANT_PREFIX := "lock:merchant:"

  function SpaceKey(id: string): string { SPACE_PREFIX + id }

  function MerchantKey(id: string): string { MERCHANT_PREFIX + id }

  lemma KeysNeverCollide(a: string, b: string)
    ensures SpaceKey(a) != MerchantKey(b)
    ensures SpaceKey(a) == SpaceKey(b) <==> a == b
    ensures MerchantKey(a) == MerchantKey(b) <==> a == b
  {
    assert SpaceKey(a)[5] == 's' && MerchantKey(b)[5] == 'm';
    assert SpaceKey(a)[|SPACE_PREFIX|..] == a && SpaceKey(b)[|SPACE_PREFIX|..] == b;
    assert MerchantKey(a)[|MERCHANT_PREFIX|..] == a && MerchantKey(b)[|MERCHANT_PREFIX|..] == b;
  }

  /** GET: an expired key is gone. */
  predicate Present(m: Leases, key: string, now: int) {
    key in m && now < m[key].expiresAt
  }

  /** SET key token NX PX ttl. */
  function SetNX(m: Leases, key: string, token: string, now: int, ttl: int): (Leases, bool) {
    if Present(m, key, now) then (m, false) else (m[key := Lease(token, now + ttl)], true)
  }

  /** The release script: the new key space, and -1 (absent), 0 (not ours) or 1 (deleted). */
  function CompareAndDelete(m: Leases, key: string, token: string, now: int): (Leases, int) {
    if !Present(m, key, now) then (m, -1)
    else if m[key].token != token then (m, 0)
    else (m - {key}, 1)
  }

  class ValKeyLocker {
    const ttl: int
    var leases: Leases

    /** NewWithTTL. */
    constructor (ttl: int)
      ensures this.ttl == ttl && leases == map[]
    {
      this.ttl := ttl;
      leases := map[];
    }

    /** New. */
    constructor Default()
      ensures ttl == 30_000 && leases == map[]
    {
      ttl := DEFAULT_TTL;
      leases := map[];
    }

    /** `token` is the freshly generated fencing token; a Lost call has set the key all the same. */
    method Acquire(key: string, token: string, now: int, o: Outcome) returns (reply: Reply)
      modifies this`leases
      ensures leases == if o.Effective() then SetNX(old(leases), key, token, now, ttl).0 else old(leases)
      ensures reply == if !o.Seen() then LockFailed
                       else if SetNX(old(leases), key, token, now, ttl).1 then Acquired(token) else HeldElsewhere
    {
      var ok := false;
      if o.Effective() {
        ok := !(key in leases && now < leases[key].expiresAt);
        if ok {
          leases := leases[key := Lease(token, now + ttl)];
        }
      }
      if !o.Seen() {
        return LockFailed;
      }
      reply := if ok then Acquired(token) else HeldElsewhere;
    }

    method Release(key: string, token: string, now: int, o: Outcome) returns (ok: bool)
      modifies this`leases
      ensures leases == if o.Effective() then CompareAndDelete(old(leases), key, token, now).0 else old(leases)
      ensures ok == o.Seen()
    {
      if o.Effective() {
        var v := if key in leases && now < leases[key].expiresAt then Some(leases[key].token) else None;
        if v == Some(token) {
          leases := leases - {key};
        }
      }
      ok := o.Seen();
    }
  }

  // ---- Any number of workers, any interleaving ----

  /** What the worker that got `token` was promised. */
  datatype Grant = Grant(key: string, until: int)

  datatype State = State(now: int, leases: Leases, used: set<string>, grants: map<string, Grant>)

  datatype Event =
    | Acquire(key: string, token: string, o: Outcome)  // some worker tries, with a fresh token
    | Release(token: string, o: Outcome)               // the worker that got this token lets go, late or not
    | Tick(ms: nat)

  predicate Enabled(s: State, e: Event) {
    match e
    case Acquire(_, token, _) => token !in s.used
    case Release(token, _) => token in s.grants
    case Tick(_) => true
  }

  function Next(s: State, e: Event, ttl: int): State
    requires Enabled(s, e)
  {
    match e
    case Acquire(key, token, o) =>
      var r := SetNX(s.leases, key, token, s.now, ttl);
      var s' := s.(leases := if o.Effective() then r.0 else s.leases, used := s.used + {token});
      if o.Seen() && r.1 then s'.(grants := s.grants[token := Grant(key, s.now + ttl)]) else s'
    case Release(token, o) =>
      var key := s.grants[token].key;
      s.(leases := if o.Effective() then CompareAndDelete(s.leases, key, token, s.now).0 else s.leases,
         grants := s.grants - {token})
    case Tick(ms) => s.(now := s.now + ms)
  }

  predicate CanRun(s: State, es: seq<Event>, ttl: int)
    decreases es
  {
    es == [] || (Enabled(s, es[0]) && CanRun(Next(s, es[0], ttl), es[1..], ttl))
  }

  function Run(s: State, es: seq<Event>, ttl: int): State
    requires CanRun(s, es, ttl)
    decreases es
  {
    if es == [] then s else Run(Next(s, es[0], ttl), es[1..], ttl)
  }

  /** The worker with this token holds its lock and the lease has not run out. */
  predicate Holds(s: State, token: string) {
    token in s.grants && s.now < s.grants[token].until
  }

  ghost predicate Inv(s: State, ttl: int) {
    && ttl >= 0
    && s.grants.Keys <= s.used
    && (forall k :: k in s.leases ==> s.leases[k].token in s.used && s.leases[k].expiresAt <= s.now + ttl)
    && (forall t :: Holds(s, t) ==>
          s.grants[t].key in s.leases && s.leases[s.grants[t].key] == Lease(t, s.grants[t].until))
  }

  lemma StepKeepsInv(s: State, e: Event, ttl: int)
    requires Inv(s, ttl) && Enabled(s, e)
    ensures Inv(Next(s, e, ttl), ttl)
  {
  }

  lemma {:induction false} RunKeepsInv(s: State, es: seq<Event>, ttl: int)
    requires Inv(s, ttl) && CanRun(s, es, ttl)
    ensures Inv(Run(s, es, ttl), ttl)
    decreases es
  {
    if es != [] {
      StepKeepsInv(s, es[0], ttl);
      RunKeepsInv(Next(s, es[0], ttl), es[1..], ttl);
    }
  }

  function Start(now: int): State {
    State(now, map[], {}, map[])
  }

  /** No interleaving ever lets two workers hold an unexpired lock on one key. */
  lemma MutualExclusion(now: int, es: seq<Event>, ttl: int, t1: string, t2: string)
    requires ttl >= 0 && CanRun(Start(now), es, ttl)
    requires var s := Run(Start(now), es, ttl);
      Holds(s, t1) && Holds(s, t2) && s.grants[t1].key == s.grants[t2].key
    ensures t1 == t2
  {
    RunKeepsInv(Start(now), es, ttl);
  }

  /** Letting go, however late, never takes the lock away from anybody else. */
  lemma StaleReleaseIsHarmless(now: int, es: seq<Event>, ttl: int, token: string, o: Outcome, other: string)
    requires ttl >= 0 && CanRun(Start(now), es, ttl)
    requires var s := Run(Start(now), es, ttl); token in s.grants && Holds(s, other) && other != token
    ensures var s := Run(Start(now), es, ttl);
      var s' := Next(s, Release(token, o), ttl);
      Holds(s', other) && Present(s'.leases, s.grants[other].key, s'.now)
      && s'.leases[s.grants[other].key].token == other
  {
    RunKeepsInv(Start(now), es, ttl);
    StepKeepsInv(Run(Start(now), es, ttl), Release(token, o), ttl);
  }

  /** A holder that lets go frees its key: it is gone, and whoever asks next gets it at once. */
  lemma ReleaseFreesTheLock(now: int, es: seq<Event>, ttl: int, token: string, o: Outcome, next: string)
    requires ttl >= 0 && CanRun(Start(now), es, ttl)
    requires Holds(Run(Start(now), es, ttl), token) && next !in Run(Start(now), es, ttl).used && !o.Rejected?
    ensures var s := Run(Start(now), es, ttl);
      var key, s' := s.grants[token].key, Next(s, Release(token, o), ttl);
      && key !in s'.leases && !Holds(s', token)
      && Enabled(s', Acquire(key, next, Done)) && Holds(Next(s', Acquire(key, next, Done), ttl), next)
  {
    RunKeepsInv(Start(now), es, ttl);
  }

  /** A holder whose call to let go never arrives keeps everybody out until its lease is over. */
  lemma UnreleasedLocksOut(now: int, es: seq<Event>, ttl: int, token: string, next: string, wait: nat)
    requires ttl >= 0 && CanRun(Start(now), es, ttl)
    requires Holds(Run(Start(now), es, ttl), token) && next !in Run(Start(now), es, ttl).used
    ensures var s := Run(Start(now), es, ttl);
      var s' := Next(Next(s, Release(token, Rejected), ttl), Tick(wait), ttl);
      Holds(Next(s', Acquire(s.grants[token].key, next, Done), ttl), next) <==> s.now + wait >= s.grants[token].until
  {
    RunKeepsInv(Start(now), es, ttl);
  }

  /** A grant whose reply was lost is nobody's, and keeps everybody out for one TTL. */
  lemma LostGrantLocksOut(now: int, es: seq<Event>, ttl: int, key: string, lost: string, next: string, wait: nat)
    requires ttl > 0 && CanRun(Start(now), es, ttl) && lost != next
    requires lost !in Run(Start(now), es, ttl).used && next !in Run(Start(now), es, ttl).used
    requires !Present(Run(Start(now), es, ttl).leases, key, Run(Start(now), es, ttl).now)
    ensures var s := Next(Run(Start(now), es, ttl), Acquire(key, lost, Lost), ttl);
      var s' := Next(s, Tick(wait), ttl);
      && !Holds(s, lost)
      && (Holds(Next(s', Acquire(key, next, Done), ttl), next) <==> wait >= ttl)
  {
    RunKeepsInv(Start(now), es, ttl);
  }

  /** Whatever was granted, crashed or lost, a key nobody asks for is free after one TTL. */
  lemma NothingIsLockedForEver(now: int, es: seq<Event>, ttl: int, key: string, token: string, wait: nat)
    requires ttl >= 0 && CanRun(Start(now), es, ttl) && wait >= ttl
    requires token !in Run(Start(now), es, ttl).used
    ensures var s := Next(Run(Start(now), es, ttl), Tick(wait), ttl);
      SetNX(s.leases, key, token, s.now, ttl).1
  {
    RunKeepsInv(Start(now), es, ttl);
  }
}
