/** The OAuth2 state tokens of internal/oauth: signed payloads whose nonce can be redeemed once. */
module OAuthState {
  import opened Wrappers

  type Nonce = string
  type UserId = string

  datatype Payload = Payload(nonce: Nonce, user: UserId, issuedAt: int)
  datatype Entry = Entry(user: UserId, expiresAt: int)
  type Nonces = map<Nonce, Entry>

  const STATE_TTL: int := 900_000

  /** A token as Validate takes it apart; Malformed is anything that does not decode. */
  datatype Token = Malformed | Signed(payload: Payload, sig: string)

  datatype Answer = Accepted(user: UserId) | Refused

  /** When an entry is still there. The Valkey key dies at its TTL, the in-memory entry just after. */
  datatype Backend = Valkey | InMemory

  predicate Alive(e: Entry, now: int, backend: Backend) {
    if backend.Valkey? then now < e.expiresAt else now <= e.expiresAt
  }

  /** Get and delete in one step. A Lost call has deleted the nonce all the same. */
  function Consume(m: Nonces, nonce: Nonce, now: int, backend: Backend, o: Outcome): (Nonces, Option<UserId>) {
    if !o.Effective() then (m, None)
    else (m - {nonce}, if o.Seen() && nonce in m && Alive(m[nonce], now, backend) then Some(m[nonce].user) else None)
  }

  class NonceStore {
    const backend: Backend
    var nonces: Nonces

    constructor (backend: Backend)
      ensures this.backend == backend && nonces == map[]
    {
      this.backend := backend;
      nonces := map[];
    }

    method SetNonce(nonce: Nonce, user: UserId, now: int, ttl: int, o: Outcome) returns (ok: bool)
      modifies this
      ensures ok == o.Seen()
      ensures nonces == if o.Effective() then old(nonces)[nonce := Entry(user, now + ttl)] else old(nonces)
    {
      if o.Effective() {
        nonces := nonces[nonce := Entry(user, now + ttl)];
      }
      ok := o.Seen();
    }

    method ConsumeNonce(nonce: Nonce, now: int, o: Outcome) returns (user: Option<UserId>)
      modifies this
      ensures (nonces, user) == Consume(old(nonces), nonce, now, backend, o)
    {
      if !o.Effective() {
        return None;
      }
      user := None;
      if nonce in nonces {
        var e := nonces[nonce];
        if o.Seen() && Alive(e, now, backend) {
          user := Some(e.user);
        }
      }
      nonces := nonces - {nonce};
    }
  }

  class StateManager {
    const secret: string
    const mac: (string, Payload) -> string  // HMAC-SHA256 over the payload's JSON
    const nonces: NonceStore

    constructor (secret: string, mac: (string, Payload) -> string, nonces: NonceStore)
      ensures this.secret == secret && this.mac == mac && this.nonces == nonces
    {
      this.secret, this.mac, this.nonces := secret, mac, nonces;
    }

    /** `nonce` is the freshly drawn one. */
    method Issue(user: UserId, nonce: Nonce, now: int, o: Outcome) returns (token: Option<Token>)
      modifies nonces
      ensures nonces.nonces == if o.Effective()
                               then old(nonces.nonces)[nonce := Entry(user, now + STATE_TTL)] else old(nonces.nonces)
      ensures var payload := Payload(nonce, user, now);
        token == if o.Seen() then Some(Signed(payload, mac(secret, payload))) else None
    {
      var payload := Payload(nonce, user, now);
      var sig := mac(secret, payload);
      var ok := nonces.SetNonce(nonce, user, now, STATE_TTL, o);
      token := if ok then Some(Signed(payload, sig)) else None;
    }

    method Validate(token: Token, now: int, o: Outcome) returns (a: Answer)
      modifies nonces
      ensures (nonces.nonces, a) == Validated(old(nonces.nonces), token, mac, secret, now, nonces.backend, o)
    {
      if token.Malformed? {
        return Refused;
      }
      if token.sig != mac(secret, token.payload) {
        return Refused;
      }
      var stored := nonces.ConsumeNonce(token.payload.nonce, now, o);
      if stored.None? {
        return Refused;
      }
      if stored.value != "" && stored.value != token.payload.user {
        return Refused;
      }
      a := Accepted(token.payload.user);
    }
  }

  predicate Authentic(token: Token, mac: (string, Payload) -> string, secret: string) {
    token.Signed? && token.sig == mac(secret, token.payload)
  }

  function Validated(m: Nonces, token: Token, mac: (string, Payload) -> string, secret: string,
                     now: int, backend: Backend, o: Outcome): (Nonces, Answer)
  {
    if !Authentic(token, mac, secret) then (m, Refused)
    else
      var r := Consume(m, token.payload.nonce, now, backend, o);
      (r.0, if r.1.None? || (r.1.value != "" && r.1.value != token.payload.user) then Refused else Accepted(token.payload.user))
  }

  // ---- Any run of issuing, validating and waiting ----

  /** `issued` holds every payload ever signed. */
  datatype State = State(now: int, nonces: Nonces, issued: set<Payload>)

  datatype Event =
    | Issue(user: UserId, nonce: Nonce, o: Outcome)
    | Validate(token: Token, o: Outcome)
    | Tick(ms: nat)

  datatype Site = Site(mac: (string, Payload) -> string, secret: string, backend: Backend)

  /** Nonces are fresh, and nobody can sign what the hub did not. */
  ghost predicate Enabled(s: State, e: Event, site: Site) {
    match e
    case Issue(_, nonce, _) => forall p :: p in s.issued ==> p.nonce != nonce
    case Validate(token, _) => Authentic(token, site.mac, site.secret) ==> token.payload in s.issued
    case Tick(_) => true
  }

  function Next(s: State, e: Event, site: Site): (State, Option<Answer>) {
    match e
    case Issue(user, nonce, o) =>
      (State(s.now, if o.Effective() then s.nonces[nonce := Entry(user, s.now + STATE_TTL)] else s.nonces,
             s.issued + {Payload(nonce, user, s.now)}), None)
    case Validate(token, o) =>
      var r := Validated(s.nonces, token, site.mac, site.secret, s.now, site.backend, o);
      (s.(nonces := r.0), Some(r.1))
    case Tick(ms) => (s.(now := s.now + ms), None)
  }

  ghost predicate CanRun(s: State, es: seq<Event>, site: Site)
    decreases es
  {
    es == [] || (Enabled(s, es[0], site) && CanRun(Next(s, es[0], site).0, es[1..], site))
  }

  function Run(s: State, es: seq<Event>, site: Site): State
    decreases es
  {
    if es == [] then s else Run(Next(s, es[0], site).0, es[1..], site)
  }

  predicate Accepts(s: State, e: Event, site: Site, nonce: Nonce) {
    e.Validate? && e.token.Signed? && e.token.payload.nonce == nonce && Next(s, e, site).1.value.Accepted?
  }

  /** How often the nonce was accepted in the run. */
  function Redemptions(s: State, es: seq<Event>, site: Site, nonce: Nonce): nat
    decreases es
  {
    if es == [] then 0
    else (if Accepts(s, es[0], site, nonce) then 1 else 0) + Redemptions(Next(s, es[0], site).0, es[1..], site, nonce)
  }

  /** Every stored nonce is the one of a single issued payload, for its user and its time. */
  ghost predicate Inv(s: State) {
    && (forall p, q | p in s.issued && q in s.issued :: p.nonce == q.nonce ==> p == q)
    && (forall p | p in s.issued :: p.nonce in s.nonces ==> s.nonces[p.nonce] == Entry(p.user, p.issuedAt + STATE_TTL))
    && (forall n | n in s.nonces :: exists p :: p in s.issued && p.nonce == n)
  }

  lemma StepKeepsInv(s: State, e: Event, site: Site)
    requires Inv(s) && Enabled(s, e, site)
    ensures Inv(Next(s, e, site).0)
  {
  }

  lemma {:induction false} RunKeepsInv(s: State, es: seq<Event>, site: Site)
    requires Inv(s) && CanRun(s, es, site)
    ensures Inv(Run(s, es, site))
    decreases es
  {
    if es != [] {
      StepKeepsInv(s, es[0], site);
      RunKeepsInv(Next(s, es[0], site).0, es[1..], site);
    }
  }

  /** An issued nonce that is no longer stored never comes back. */
  predicate Spent(s: State, nonce: Nonce) {
    nonce !in s.nonces && exists p :: p in s.issued && p.nonce == nonce
  }

  lemma {:induction false} SpentForGood(s: State, es: seq<Event>, site: Site, nonce: Nonce)
    requires Inv(s) && CanRun(s, es, site) && Spent(s, nonce)
    ensures Redemptions(s, es, site, nonce) == 0
    decreases es
  {
    if es != [] {
      var s' := Next(s, es[0], site).0;
      StepKeepsInv(s, es[0], site);
      var p :| p in s.issued && p.nonce == nonce;
      assert p in s'.issued;
      SpentForGood(s', es[1..], site, nonce);
    }
  }

  /** Whatever tokens are tried, in whatever order and however Valkey fails: no nonce is accepted twice. */
  lemma {:induction false} AcceptedAtMostOnce(s: State, es: seq<Event>, site: Site, nonce: Nonce)
    requires Inv(s) && CanRun(s, es, site)
    ensures Redemptions(s, es, site, nonce) <= 1
    decreases es
  {
    if es != [] {
      var s' := Next(s, es[0], site).0;
      StepKeepsInv(s, es[0], site);
      if Accepts(s, es[0], site, nonce) {
        assert es[0].token.payload in s'.issued;
        SpentForGood(s', es[1..], site, nonce);
      } else {
        AcceptedAtMostOnce(s', es[1..], site, nonce);
      }
    }
  }

  /** In every reachable state: a token is accepted exactly when its signature is right, its nonce
      is still stored, the call gets through and its fifteen minutes are not over; it is then the
      user it was issued for. */
  lemma AcceptedIff(now: int, es: seq<Event>, site: Site, token: Token, o: Outcome)
    requires CanRun(State(now, map[], {}), es, site)
    requires Enabled(Run(State(now, map[], {}), es, site), Validate(token, o), site)
    ensures var s := Run(State(now, map[], {}), es, site);
      var a := Next(s, Validate(token, o), site).1.value;
      && (a.Accepted? <==> Authentic(token, site.mac, site.secret) && token.payload.nonce in s.nonces && o.Seen()
                           && (s.now < token.payload.issuedAt + 900_000
                               || (site.backend.InMemory? && s.now == token.payload.issuedAt + 900_000)))
      && (a.Accepted? ==> a.user == token.payload.user && token.payload in s.issued)
  {
    RunKeepsInv(State(now, map[], {}), es, site);
  }

  /** Whatever the store holds, reachable or not: what is accepted, and that an authentic token spends
      its nonce, and no other, as soon as the call takes effect. */
  lemma ValidateIs(m: Nonces, token: Token, mac: (string, Payload) -> string, secret: string, now: int, backend: Backend,
                   o: Outcome)
    requires token.Signed? && token.sig == mac(secret, token.payload)
    ensures var r, nonce := Validated(m, token, mac, secret, now, backend, o), token.payload.nonce;
      && r.0 == (if o == Rejected then m else m - {nonce})
      && (r.1 == Accepted(token.payload.user) <==>
            o == Done && nonce in m && (now < m[nonce].expiresAt || (backend.InMemory? && now == m[nonce].expiresAt))
            && (m[nonce].user == token.payload.user || m[nonce].user == ""))
      && (r.1.Accepted? ==> r.1.user == token.payload.user)
  {
  }

  /** A token with a bad signature leaves every nonce where it is. */
  lemma ForgeryConsumesNothing(s: State, token: Token, o: Outcome, site: Site)
    requires !Authentic(token, site.mac, site.secret)
    ensures Next(s, Validate(token, o), site) == (s, Some(Refused))
  {
  }
}
