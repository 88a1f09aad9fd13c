/** The Idempotency-Key middleware of internal/api/middleware and its table: what later requests
    under a key get, over every interleaving of lookups, inserts and stored responses. */
module Idempotency {
  import opened Wrappers

  type Key = string
  type Hash = string
  type Body = string

  /** A row of idempotency_keys; `code` and `body` are NULL until a response is stored. */
  datatype Record = Record(hash: Hash, code: Option<int>, body: Option<Body>, expiresAt: int)
  type Table = map<Key, Record>

  const TTL: int := 86_400_000

  /** `fullPath` is the route's pattern; `merchant` is what its parameter matched. */
  datatype Request = Request(method_: string, fullPath: string, merchant: string, body: string)

  /** What the hash is taken over: the route's pattern, not what its parameters matched, and the
      three parts run together. */
  function HashedText(r: Request): string {
    r.method_ + r.fullPath + r.body
  }

  /** hashRequest, with SHA-256 taken to be injective. */
  function HashRequest(r: Request): Hash {
    HashedText(r)
  }

  datatype Decision =
    | Fail                             // 500
    | Conflict                         // 409
    | Replay(code: int, body: Body)
    | Proceed                          // run the handler: somebody else's request is pending
    | Register                         // no live row: insert one, then run the handler

  /** SELECT ... WHERE key = $1 AND expires_at > now(). */
  predicate Visible(t: Table, key: Key, now: int) {
    key in t && t[key].expiresAt > now
  }

  function Lookup(t: Table, key: Key, hash: Hash, now: int, o: Outcome): Decision {
    if !o.Seen() then Fail
    else if !Visible(t, key, now) then Register
    else if t[key].hash != hash then Conflict
    else if t[key].code.Some? && t[key].body.Some? then Replay(t[key].code.value, t[key].body.value)
    else Proceed
  }

  /** INSERT; a row under that key, expired or not, makes it conflict. */
  function Inserted(t: Table, key: Key, hash: Hash, expiresAt: int, o: Outcome): Table {
    if o.Effective() && key !in t then t[key := Record(hash, None, None, expiresAt)] else t
  }

  /** UPDATE ... WHERE key = $5. */
  function Responded(t: Table, key: Key, code: int, body: Option<Body>, o: Outcome): Table {
    if o.Effective() && key in t then t[key := t[key].(code := Some(code), body := body)] else t
  }

  class Middleware {
    var table: Table

    constructor ()
      ensures table == map[]
    {
      table := map[];
    }

    /** What happens to a request that carries a key: an answer, or leave to run the handler. */
    method Check(key: Key, r: Request, dbNow: int, clock: int, get: Outcome, insert: Outcome) returns (d: Decision)
      modifies this
      ensures var seen := Lookup(old(table), key, HashRequest(r), dbNow, get);
        d == if !seen.Register? then seen else if insert.Seen() then Proceed else Fail
      ensures table == if Lookup(old(table), key, HashRequest(r), dbNow, get).Register?
                       then Inserted(old(table), key, HashRequest(r), clock + TTL, insert) else old(table)
    {
      var reqHash := HashRequest(r);
      if !get.Seen() {
        return Fail;
      }
      if key in table && table[key].expiresAt > dbNow {
        var existing := table[key];
        if existing.hash != reqHash {
          return Conflict;
        }
        if existing.code.Some? && existing.body.Some? {
          return Replay(existing.code.value, existing.body.value);
        }
        return Proceed;
      }
      if insert.Effective() && key !in table {
        table := table[key := Record(reqHash, None, None, clock + TTL)];
      }
      d := if insert.Seen() then Proceed else Fail;
    }

    method StoreIdempotencyResponse(key: Key, code: int, body: Option<Body>, o: Outcome)
      modifies this
      ensures table == if key == "" then old(table) else Responded(old(table), key, code, body, o)
    {
      if key == "" {
        return;
      }
      if o.Effective() && key in table {
        table := table[key := table[key].(code := Some(code), body := body)];
      }
    }
  }

  // ---- Any number of requests at once ----

  /** A request between its lookup and its answer. Every handler that stores a response first inserts
      a job row under the key, and stores the response with that row's id. */
  datatype Flight =
    | Inserting(key: Key, hash: Hash)
    | Running(key: Key)
    | Owning(key: Key)   // its job row is in
    | Jobless(key: Key)  // it is not, or nobody knows; the response carries an id made up for it

  /** `jobs` holds the task ids of the jobs table, which are unique; nothing deletes its rows. */
  datatype State = State(now: int, t: Table, jobs: set<Key>, flights: map<nat, Flight>)

  datatype Event =
    | Arrive(rid: nat, key: Key, hash: Hash, get: Outcome)
    | Bare(rid: nat, key: Key)                                              // no header: the handler derives a key
    | Insert(rid: nat, clock: int, o: Outcome)
    | CreateJob(rid: nat, o: Outcome)
    | Store(rid: nat, code: int, body: Option<Body>, o: Outcome)            // the handler's last step
    | GiveUp(rid: nat)                                                      // it ends without storing
    | Tick(ms: nat)

  predicate Enabled(s: State, e: Event) {
    match e
    case Arrive(rid, key, _, _) => rid !in s.flights && key != ""
    case Bare(rid, _) => rid !in s.flights
    case Insert(rid, _, _) => rid in s.flights && s.flights[rid].Inserting?
    case CreateJob(rid, _) => rid in s.flights && s.flights[rid].Running?
    case Store(rid, _, _, _) => rid in s.flights && (s.flights[rid].Owning? || s.flights[rid].Jobless?)
    case GiveUp(rid) => rid in s.flights
    case Tick(_) => true
  }

  function Next(s: State, e: Event): State
    requires Enabled(s, e)
  {
    match e
    case Arrive(rid, key, hash, get) =>
      (match Lookup(s.t, key, hash, s.now, get)
       case Proceed => s.(flights := s.flights[rid := Running(key)])
       case Register => s.(flights := s.flights[rid := Inserting(key, hash)])
       case _ => s)
    case Bare(rid, key) => s.(flights := s.flights[rid := Running(key)])
    case Insert(rid, clock, o) =>
      var f := s.flights[rid];
      s.(t := Inserted(s.t, f.key, f.hash, clock + TTL, o),
         flights := if o.Seen() then s.flights[rid := Running(f.key)] else s.flights - {rid})
    case CreateJob(rid, o) =>
      var key := s.flights[rid].key;
      s.(jobs := if o.Effective() then s.jobs + {key} else s.jobs,
         flights := s.flights[rid := if key !in s.jobs && o.Seen() then Owning(key) else Jobless(key)])
    case Store(rid, code, body, o) =>
      // The foreign key on job_id refuses an id that is not in the jobs table.
      s.(t := if s.flights[rid].Owning? then Responded(s.t, s.flights[rid].key, code, body, o) else s.t,
         flights := s.flights - {rid})
    case GiveUp(rid) => s.(flights := s.flights - {rid})
    case Tick(ms) => s.(now := s.now + ms)
  }

  predicate CanRun(s: State, es: seq<Event>)
    decreases es
  {
    es == [] || (Enabled(s, es[0]) && CanRun(Next(s, es[0]), es[1..]))
  }

  function Run(s: State, es: seq<Event>): State
    requires CanRun(s, es)
    decreases es
  {
    if es == [] then s else Run(Next(s, es[0]), es[1..])
  }

  function Start(now: int): State {
    State(now, map[], {}, map[])
  }

  ghost predicate Reachable(s: State) {
    exists now, es :: CanRun(Start(now), es) && Run(Start(now), es) == s
  }

  // ---- Only one request ever stores under a key ----

  predicate Owns(s: State, rid: nat, key: Key) {
    rid in s.flights && s.flights[rid] == Owning(key)
  }

  predicate HasResponse(s: State, key: Key) {
    key in s.t && s.t[key].code.Some?
  }

  /** A request owns a key only by its job row, a key has one owner at most, and none any more once a
      response is stored. */
  ghost predicate Inv(s: State) {
    && (forall rid, key :: Owns(s, rid, key) ==> key in s.jobs && !HasResponse(s, key))
    && (forall a, b, key :: Owns(s, a, key) && Owns(s, b, key) ==> a == b)
    && (forall key :: HasResponse(s, key) ==> key in s.jobs)
  }

  /** What a step leaves of the ownership of a key. */
  lemma OwnersAfter(s: State, e: Event, rid: nat, key: Key)
    requires Enabled(s, e) && Owns(Next(s, e), rid, key)
    ensures Owns(s, rid, key) || (e.CreateJob? && rid == e.rid && key !in s.jobs)
    ensures e.Store? ==> rid != e.rid
  {
  }

  /** A response that a step adds is its owner's. */
  lemma ResponsesAfter(s: State, e: Event, key: Key)
    requires Enabled(s, e) && HasResponse(Next(s, e), key)
    ensures HasResponse(s, key) || (e.Store? && Owns(s, e.rid, key))
  {
  }

  lemma JobsStay(s: State, e: Event)
    requires Enabled(s, e)
    ensures s.jobs <= Next(s, e).jobs
    ensures forall rid, key :: e.CreateJob? && Owns(Next(s, e), rid, key) && rid == e.rid ==> key in Next(s, e).jobs
  {
  }

  lemma StepKeepsInv(s: State, e: Event)
    requires Inv(s) && Enabled(s, e)
    ensures Inv(Next(s, e))
  {
    var s' := Next(s, e);
    JobsStay(s, e);
    forall key | HasResponse(s', key) ensures key in s'.jobs {
      ResponsesAfter(s, e, key);
    }
    forall rid, key | Owns(s', rid, key) ensures key in s'.jobs && !HasResponse(s', key) {
      OwnersAfter(s, e, rid, key);
      if HasResponse(s', key) {
        ResponsesAfter(s, e, key);
      }
    }
    forall a, b, key | Owns(s', a, key) && Owns(s', b, key) ensures a == b {
      OwnersAfter(s, e, a, key);
      OwnersAfter(s, e, b, key);
    }
  }

  lemma {:induction false} RunKeepsInv(s: State, es: seq<Event>)
    requires Inv(s) && CanRun(s, es)
    ensures Inv(Run(s, es))
    decreases es
  {
    if es != [] {
      StepKeepsInv(s, es[0]);
      RunKeepsInv(Next(s, es[0]), es[1..]);
    }
  }

  lemma ReachableIsSound(s: State)
    requires Reachable(s)
    ensures Inv(s)
  {
    var now, es :| CanRun(Start(now), es) && Run(Start(now), es) == s;
    RunKeepsInv(Start(now), es);
  }

  lemma StepKeepsResponse(s: State, e: Event, key: Key)
    requires Inv(s) && Enabled(s, e) && HasResponse(s, key)
    ensures key in Next(s, e).t && Next(s, e).t[key] == s.t[key]
  {
    if e.Store? && s.flights[e.rid].Owning? {
      assert Owns(s, e.rid, s.flights[e.rid].key);
    }
  }

  predicate Completes(s: State, e: Event, key: Key) {
    e.Store? && e.o.Effective() && Owns(s, e.rid, key)
  }

  /** How often a handler under the key stored its response. */
  function Completions(s: State, es: seq<Event>, key: Key): nat
    requires CanRun(s, es)
    decreases es
  {
    if es == [] then 0 else (if Completes(s, es[0], key) then 1 else 0) + Completions(Next(s, es[0]), es[1..], key)
  }

  /** The key's job row is in, and whoever put it there is gone. */
  ghost predicate Spent(s: State, key: Key) {
    key in s.jobs && forall rid :: !Owns(s, rid, key)
  }

  lemma {:induction false} NoneOnceSpent(s: State, es: seq<Event>, key: Key)
    requires CanRun(s, es) && Spent(s, key)
    ensures Completions(s, es, key) == 0
    decreases es
  {
    if es != [] {
      assert forall rid :: Owns(Next(s, es[0]), rid, key) ==> Owns(s, rid, key);
      NoneOnceSpent(Next(s, es[0]), es[1..], key);
    }
  }

  lemma CompletionSpends(s: State, e: Event, key: Key)
    requires Inv(s) && Enabled(s, e) && Completes(s, e, key)
    ensures Spent(Next(s, e), key)
  {
    var done := e.rid;
    assert forall rid :: Owns(Next(s, e), rid, key) ==> Owns(s, rid, key) && rid != done;
  }

  lemma {:induction false} OneCompletion(s: State, es: seq<Event>, key: Key)
    requires Inv(s) && CanRun(s, es)
    ensures Completions(s, es, key) <= 1
    decreases es
  {
    if es != [] {
      StepKeepsInv(s, es[0]);
      var s' := Next(s, es[0]);
      if Completes(s, es[0], key) {
        CompletionSpends(s, es[0], key);
        NoneOnceSpent(s', es[1..], key);
      } else {
        OneCompletion(s', es[1..], key);
      }
    }
  }

  /** Over every interleaving of any number of requests, for every key and for ever, a storing
      handler completes at most once per key. */
  lemma AtMostOneCompletion(now: int, es: seq<Event>, key: Key)
    requires CanRun(Start(now), es)
    ensures Completions(Start(now), es, key) <= 1
  {
    OneCompletion(Start(now), es, key);
  }

  // ---- What later requests get ----

  /** A response is stored under the key. */
  predicate Answered(s: State, key: Key) {
    key in s.t && s.t[key].code.Some? && s.t[key].body.Some?
  }

  function Stored(r: Record): Decision
    requires r.code.Some? && r.body.Some?
  {
    Replay(r.code.value, r.body.value)
  }

  /** Requests under the key that may still run, or are running, their handler. */
  function InFlight(s: State, key: Key): set<nat> {
    set rid | rid in s.flights && s.flights[rid].key == key
  }

  lemma {:induction false} TimeGrows(s: State, es: seq<Event>)
    requires CanRun(s, es)
    ensures Run(s, es).now >= s.now
    decreases es
  {
    if es != [] {
      TimeGrows(Next(s, es[0]), es[1..]);
    }
  }

  lemma {:induction false} ResponseStays(s: State, es: seq<Event>, key: Key)
    requires Inv(s) && CanRun(s, es) && HasResponse(s, key)
    ensures key in Run(s, es).t && Run(s, es).t[key] == s.t[key]
    decreases es
  {
    if es != [] {
      StepKeepsInv(s, es[0]);
      StepKeepsResponse(s, es[0], key);
      ResponseStays(Next(s, es[0]), es[1..], key);
    }
  }

  /** No request without a header has this key derived for it. */
  ghost predicate NeverDerived(es: seq<Event>, key: Key) {
    forall i :: 0 <= i < |es| && es[i].Bare? ==> es[i].key != key
  }

  lemma {:induction false} NoNewFlights(s: State, es: seq<Event>, key: Key)
    requires Inv(s) && CanRun(s, es) && Answered(s, key) && NeverDerived(es, key)
    requires Run(s, es).now < s.t[key].expiresAt
    ensures InFlight(Run(s, es), key) <= InFlight(s, key)
    decreases es
  {
    if es != [] {
      var s' := Next(s, es[0]);
      TimeGrows(s, es);
      StepKeepsInv(s, es[0]);
      StepKeepsResponse(s, es[0], key);
      assert InFlight(s', key) <= InFlight(s, key);
      assert NeverDerived(es[1..], key) by {
        assert forall i :: 0 <= i < |es[1..]| ==> es[1..][i] == es[i + 1];
      }
      NoNewFlights(s', es[1..], key);
    }
  }

  /** Once a response is stored its row never changes again, whoever was under way and however long it
      takes; and until the row expires no request whose lookup comes later ever runs its handler. */
  lemma AnsweredForGood(s: State, es: seq<Event>, key: Key)
    requires Reachable(s) && CanRun(s, es) && Answered(s, key)
    ensures key in Run(s, es).t && Run(s, es).t[key] == s.t[key]
    ensures forall rid, hash, get | rid !in Run(s, es).flights && key != "" && Run(s, es).now < s.t[key].expiresAt ::
      Next(Run(s, es), Arrive(rid, key, hash, get)) == Run(s, es)
    ensures NeverDerived(es, key) && Run(s, es).now < s.t[key].expiresAt ==> InFlight(Run(s, es), key) <= InFlight(s, key)
  {
    ReachableIsSound(s);
    ResponseStays(s, es, key);
    if NeverDerived(es, key) && Run(s, es).now < s.t[key].expiresAt {
      NoNewFlights(s, es, key);
    }
  }

  /** What a later request under the key gets until the key expires: exactly the stored response for
      the same hash, 409 for any other. */
  lemma LaterRequestsAreReplayed(s: State, es: seq<Event>, key: Key, hash: Hash, get: Outcome)
    requires Reachable(s) && CanRun(s, es) && Answered(s, key) && Run(s, es).now < s.t[key].expiresAt
    ensures var later := Run(s, es);
      Lookup(later.t, key, hash, later.now, get) ==
        if !get.Seen() then Fail else if hash != s.t[key].hash then Conflict else Stored(s.t[key])
  {
    AnsweredForGood(s, es, key);
  }

  // ---- Where the guarantee ends ----

  /** A handler runs on arrival exactly when no visible row answers the request: no row, an expired
      one, or one of its own hash without a stored body. */
  lemma HandlerRunsIff(t: Table, key: Key, hash: Hash, now: int)
    ensures var d := Lookup(t, key, hash, now, Done);
      d.Proceed? || d.Register?
      <==> !Visible(t, key, now) || (t[key].hash == hash && (t[key].code.None? || t[key].body.None?))
  {
  }

  /** Rows are never deleted and their expiry never moves: a key that has expired protects nothing
      again, however many responses are stored under it. */
  lemma {:induction false} ExpiredForGood(s: State, es: seq<Event>, key: Key)
    requires CanRun(s, es) && key in s.t && s.t[key].expiresAt <= s.now
    ensures var later := Run(s, es);
      && key in later.t && later.t[key].expiresAt == s.t[key].expiresAt
      && forall hash :: Lookup(later.t, key, hash, later.now, Done) == Register
    decreases es
  {
    if es != [] {
      ExpiredForGood(Next(s, es[0]), es[1..], key);
    }
  }

  /** A second request under a key is answered with the first one's response exactly when the row is
      visible and answered and the two have the same method, pattern and body, run together as text,
      whatever their merchants; with another text it gets 409, and otherwise it runs its handler. */
  lemma AnsweredAsTheFirstIff(t: Table, key: Key, first: Request, second: Request, now: int)
    requires key in t ==> t[key].hash == HashRequest(first)
    ensures var d := Lookup(t, key, HashRequest(second), now, Done);
      && (d.Replay? <==>
            key in t && now < t[key].expiresAt && t[key].code.Some? && t[key].body.Some?
            && second.method_ + second.fullPath + second.body == first.method_ + first.fullPath + first.body)
      && (d.Replay? ==> d == Replay(t[key].code.value, t[key].body.value))
      && (d.Conflict? <==>
            key in t && now < t[key].expiresAt
            && second.method_ + second.fullPath + second.body != first.method_ + first.fullPath + first.body)
  {
  }

  /** What registering a request does: for 24 hours from the API's clock reading, and while no response
      is stored, a repeat of it runs its handler and any other text under the key gets 409. A key that
      has a row, expired or not, is left alone. */
  lemma RegisteredIs(t: Table, key: Key, r: Request, clock: int, o: Outcome, other: Request, now: int)
    ensures var t' := Inserted(t, key, HashRequest(r), clock + TTL, o);
      && (key in t || o == Rejected ==> t' == t)
      && (key !in t && o != Rejected ==>
            && t' == t[key := t'[key]]
            && Lookup(t', key, HashRequest(other), now, Done) ==
               if now >= clock + 86_400_000 then Register
               else if other.method_ + other.fullPath + other.body == r.method_ + r.fullPath + r.body then Proceed
               else Conflict)
  {
  }

  /** So two merchants' requests with one key and body are one request to the middleware: over every
      interleaving, the second merchant gets the response stored for the first. */
  lemma SecondMerchantGetsTheFirstsResponse(s: State, es: seq<Event>, key: Key, first: Request, merchant: string)
    requires Reachable(s) && CanRun(s, es) && Answered(s, key) && Run(s, es).now < s.t[key].expiresAt
    requires s.t[key].hash == HashRequest(first)
    ensures var later := Run(s, es);
      Lookup(later.t, key, HashRequest(first.(merchant := merchant)), later.now, Done) == Stored(s.t[key])
  {
    LaterRequestsAreReplayed(s, es, key, HashRequest(first), Done);
  }
}
