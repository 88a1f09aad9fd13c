/** The provision_space handler of internal/worker: fail-closed creation of a private channel. */
module Provision {
  import opened Wrappers
  import opened Domain
  import P = Postgres
  import D = Discord
  import R = RateLimit
  import T = TokenBucket

  datatype Config = Config(guild: Id, everyone: Id, agentRole: Id, defaultCategory: Id)

  datatype Payload = Payload(merchant: Id, space: Id, category: Id)

  /** newProvisionSpaceHandler: None is the stub that acknowledges tasks and does nothing. */
  function NewHandler(cfg: Config): (r: Option<Config>)
    ensures r.Some? ==> r.value.agentRole != cfg.guild && r.value.agentRole != ""
    ensures r.Some? && (cfg.everyone == "" || cfg.everyone == cfg.guild) ==> r.value.everyone == cfg.guild
  {
    var everyone := if cfg.everyone == "" then cfg.guild else cfg.everyone;
    if cfg.agentRole == "" || cfg.agentRole == cfg.guild then None else Some(cfg.(everyone := everyone))
  }

  datatype CreateReply =
    | Created(id: Id)
    | CreateThrottled(retryAfterMs: int)   // 429
    | CreateFailed(orphan: Option<Id>)     // any other error; a channel may exist all the same

  datatype AllowReply =
    | AllowDone
    | AllowThrottled(retryAfterMs: int)
    | AllowFailed(landed: bool)

  /** A worker-clock reading, and what became of the call to Valkey. */
  datatype Stamp = Stamp(at: int, o: Outcome)

  datatype Env = Env(
    startJob: Outcome,
    lock: LockAnswer,
    loadFails: bool,
    global1: Stamp, route1: Stamp, createAt: int, create: CreateReply,
    global2: Stamp, route2: Stamp, allowAt: int, allow: AllowReply,
    penalty: Stamp,
    row: Outcome,     // the run's one write to the space row
    endJob: Outcome,
    audit: Outcome)

  /** What the limiter answered, call by call, and what Discord answered to the allow: `env.allow`,
      unless that was success on a category that does not exist. */
  datatype Replies = Replies(
    global1: R.TakeReply, route1: R.TakeReply, global2: R.TakeReply, route2: R.TakeReply, allow: AllowReply)

  const NO_REPLIES := Replies(R.Unreachable, R.Unreachable, R.Unreachable, R.Unreachable, AllowFailed(false))

  predicate Replied(re: Replies, env: Env) {
    re.allow == env.allow || (env.allow.AllowDone? && re.allow == AllowFailed(false))
  }

  /** Everything a run does to the limiter and to Discord, in order, each with the time it is done. */
  datatype Op =
    | TakeGlobal(at: int, o: Outcome, reply: R.TakeReply)
    | TakeRoute(route: string, at: int, reply: R.TakeReply)
    | Penalize(route: string, ms: int, when: Stamp)
    | CallCreate(at: int, made: CreateReply)
    | CallAllow(at: int, category: Id, answer: AllowReply)

  datatype RowWrite =
    | NoWrite
    | SetChannel(channel: Id, category: Id)
    | SetState(acl: ACLState)

  datatype Effect = Effect(verdict: Verdict, write: RowWrite, ops: seq<Op>, endJob: Option<JobStatus>)

  const CREATE_ROUTE := "POST/channels"

  function AllowRoute(category: Id): string {
    "PUT/channels/" + category + "/permissions"
  }

  function Category(p: Payload, cfg: Config): Id {
    if p.category == "" then cfg.defaultCategory else p.category
  }

  predicate Provisioned(sp: Space) {
    sp.channel.Some? && sp.acl == Applied
  }

  function BackOff(retryAfterMs: int): int {
    if retryAfterMs <= 0 then 5000 else retryAfterMs
  }

  function Taking(g: Stamp, gr: R.TakeReply, route: string, r: Stamp, rr: R.TakeReply): seq<Op> {
    if gr.Allowed? then [TakeGlobal(g.at, g.o, gr), TakeRoute(route, r.at, rr)] else [TakeGlobal(g.at, g.o, gr)]
  }

  /** failClosed: the row says Failed when there is no channel to repair, Degraded when there is. */
  function FailClosed(created: bool, ops: seq<Op>): Effect {
    Effect(SkipRetry, SetState(if created then Degraded else Failed), ops, Some(JobArchived))
  }

  function Throttled(route: string, retryAfterMs: int, ops: seq<Op>, env: Env): Effect {
    Effect(RateLimited(BackOff(retryAfterMs), route), NoWrite,
           ops + [Penalize(route, BackOff(retryAfterMs), env.penalty)], None)
  }

  /** The run from the row it loaded to its last write. */
  function Body(sp: Space, p: Payload, cfg: Config, env: Env, re: Replies): Effect {
    var category := Category(p, cfg);
    if Provisioned(sp) then Effect(Success, NoWrite, [], None)
    else if category == "" then FailClosed(false, [])
    else Make(category, env, re)
  }

  /** Step 1: a channel that is born denied. */
  function Make(category: Id, env: Env, re: Replies): Effect {
    var ops1 := Taking(env.global1, re.global1, CREATE_ROUTE, env.route1, re.route1);
    if !re.global1.Allowed? then Effect(R.VerdictFor(re.global1), NoWrite, ops1, None)
    else if !re.route1.Allowed? then Effect(R.VerdictFor(re.route1), NoWrite, ops1, None)
    else AfterCreate(category, ops1 + [CallCreate(env.createAt, env.create)], env, re)
  }

  function AfterCreate(category: Id, ops: seq<Op>, env: Env, re: Replies): Effect {
    match env.create
    case CreateThrottled(ms) => Throttled(CREATE_ROUTE, ms, ops, env)
    case CreateFailed(_) => FailClosed(false, ops)
    case Created(channel) => Finish(channel, category, ops, env, re)
  }

  /** Steps 2 and 3: the category's agent allow, then the row. */
  function Finish(channel: Id, category: Id, ops: seq<Op>, env: Env, re: Replies): Effect {
    var ops3 := ops + Taking(env.global2, re.global2, AllowRoute(category), env.route2, re.route2);
    if !re.global2.Allowed? then Effect(R.VerdictFor(re.global2), NoWrite, ops3, None)
    else if !re.route2.Allowed? then Effect(R.VerdictFor(re.route2), NoWrite, ops3, None)
    else
      var ops4 := ops3 + [CallAllow(env.allowAt, category, re.allow)];
      match re.allow
      case AllowThrottled(ms) => Throttled(AllowRoute(category), ms, ops4, env)
      case AllowFailed(_) => FailClosed(true, ops4)
      case AllowDone =>
        if env.row.Seen() then Effect(Success, SetChannel(channel, category), ops4, Some(JobCompleted))
        else Effect(Retry, SetChannel(channel, category), ops4, None)
  }

  function Written(sp: Space, write: RowWrite, o: Outcome): Space {
    if !o.Effective() then sp
    else match write
      case NoWrite => sp
      case SetChannel(channel, category) => P.Stamped(sp, channel, Some(category), Applied)
      case SetState(acl) => sp.(acl := acl)
  }

  /** What the run's Discord calls do to the guild. */
  function Played(c: D.Channels, op: Op, cfg: Config): D.Channels {
    match op
    case CallCreate(_, Created(id)) => c[id := D.BornDenied(cfg.everyone)]
    case CallCreate(_, CreateFailed(Some(id))) => c[id := D.BornDenied(cfg.everyone)]
    case CallAllow(_, category, answer) =>
      if answer.AllowDone? || (answer.AllowFailed? && answer.landed)
      then D.SetOverwrite(c, category, cfg.agentRole, D.AGENT_ALLOW) else c
    case _ => c
  }

  function PlayedAll(c: D.Channels, ops: seq<Op>, cfg: Config): D.Channels
    decreases ops
  {
    if ops == [] then c else PlayedAll(Played(c, ops[0], cfg), ops[1..], cfg)
  }

  datatype Started = Stop(v: Verdict) | Go

  function Start(spaces: map<Id, Space>, p: Payload, env: Env): Started {
    if p.space == "" then Stop(SkipRetry)
    else if !env.lock.Free? then Stop(Retry)
    else if env.loadFails || p.space !in spaces then Stop(Retry)
    else Go
  }

  /** One run of the handler. */
  function Run(spaces: map<Id, Space>, p: Payload, cfg: Config, env: Env, re: Replies): Effect {
    match Start(spaces, p, env)
    case Stop(v) => Effect(v, NoWrite, [], None)
    case Go => Body(spaces[p.space], p, cfg, env, re)
  }

  function SpacesAfter(spaces: map<Id, Space>, p: Payload, cfg: Config, env: Env, re: Replies): map<Id, Space> {
    if Start(spaces, p, env).Go?
    then spaces[p.space := Written(spaces[p.space], Run(spaces, p, cfg, env, re).write, env.row)] else spaces
  }

  function JobsAfter(jobs: map<Id, JobStatus>, p: Payload, env: Env, effect: Effect): map<Id, JobStatus> {
    if p.space == "" then jobs
    else
      var started := P.MovedJob(jobs, p.space, JobActive, env.startJob);
      EndedJob(started, p.space, effect.endJob, env.endJob)
  }

  function EndedJob(jobs: map<Id, JobStatus>, space: Id, end: Option<JobStatus>, o: Outcome): map<Id, JobStatus> {
    match end
    case None => jobs
    case Some(status) => P.MovedJob(jobs, space, status, o)
  }

  /** The audit rows a run with this effect adds. */
  function RunAudit(p: Payload, env: Env, end: Option<JobStatus>): multiset<AuditEntry> {
    if end.None? || !env.audit.Effective() then multiset{}
    else
      var action := if end == Some(JobCompleted) then "space.provision" else "space.provision.failed";
      multiset{AuditEntry(action, p.space, p.merchant)}
  }

  /** Discord confirmed an allow only on a category it has. */
  ghost predicate Confirmed(ops: seq<Op>, c: D.Channels) {
    forall i :: 0 <= i < |ops| && ops[i].CallAllow? && ops[i].answer.AllowDone? ==> ops[i].category in c
  }

  // ---- The shared global bucket, seen through the operations ----

  /** The bucket after an operation. */
  function Served(s: T.Slot, op: Op, capacity: int, rate: real): T.Slot
    requires T.ValidLimits(capacity, rate)
  {
    match op
    case TakeGlobal(at, o, _) => if o.Effective() then T.Step(s, T.Take(at), capacity, rate, true).0 else s
    case Penalize(_, ms, when) => if when.o.Effective() then T.Penalized(s, when.at, ms) else s
    case _ => s
  }

  /** The reply recorded for the operation is the one the bucket gives. */
  predicate Honest(s: T.Slot, op: Op, capacity: int, rate: real)
    requires T.ValidLimits(capacity, rate)
  {
    op.TakeGlobal? ==>
      (op.reply.Allowed? <==> op.o.Seen() && T.Step(s, T.Take(op.at), capacity, rate, true).1.value.Granted?)
  }

  function ServedAll(s: T.Slot, ops: seq<Op>, capacity: int, rate: real): T.Slot
    requires T.ValidLimits(capacity, rate)
    decreases ops
  {
    if ops == [] then s else ServedAll(Served(s, ops[0], capacity, rate), ops[1..], capacity, rate)
  }

  predicate AllHonest(s: T.Slot, ops: seq<Op>, capacity: int, rate: real)
    requires T.ValidLimits(capacity, rate)
    decreases ops
  {
    ops == [] || (Honest(s, ops[0], capacity, rate)
                  && AllHonest(Served(s, ops[0], capacity, rate), ops[1..], capacity, rate))
  }

  lemma {:induction false} OneMoreOp(s: T.Slot, ops: seq<Op>, op: Op, capacity: int, rate: real)
    requires T.ValidLimits(capacity, rate)
    ensures ServedAll(s, ops + [op], capacity, rate) == Served(ServedAll(s, ops, capacity, rate), op, capacity, rate)
    ensures AllHonest(s, ops + [op], capacity, rate)
       <==> AllHonest(s, ops, capacity, rate) && Honest(ServedAll(s, ops, capacity, rate), op, capacity, rate)
    decreases ops
  {
    if ops == [] {
      assert [op][1..] == [];
    } else {
      assert (ops + [op])[0] == ops[0] && (ops + [op])[1..] == ops[1..] + [op];
      OneMoreOp(Served(s, ops[0], capacity, rate), ops[1..], op, capacity, rate);
    }
  }

  lemma {:induction false} OneMorePlayed(c: D.Channels, ops: seq<Op>, op: Op, cfg: Config)
    ensures PlayedAll(c, ops + [op], cfg) == Played(PlayedAll(c, ops, cfg), op, cfg)
    decreases ops
  {
    if ops == [] {
      assert [op][1..] == [];
    } else {
      assert (ops + [op])[0] == ops[0] && (ops + [op])[1..] == ops[1..] + [op];
      OneMorePlayed(Played(c, ops[0], cfg), ops[1..], op, cfg);
    }
  }

  // ---- The handler ----

  class Handler {
    const cfg: Config
    const store: P.Store
    const discord: D.Session
    const limiter: R.ValKeyLimiter
    ghost var ops: seq<Op>  // what the current run has done so far

    constructor (cfg: Config, store: P.Store, discord: D.Session, limiter: R.ValKeyLimiter)
      requires cfg.agentRole != "" && cfg.agentRole != cfg.guild
      ensures this.cfg == cfg && this.store == store && this.discord == discord && this.limiter == limiter
    {
      this.cfg, this.store, this.discord, this.limiter := cfg, store, discord, limiter;
      ops := [];
    }

    ghost function Global(): T.Slot
      reads this, limiter
    {
      R.SlotAt(limiter.keys, limiter.GlobalKey())
    }

    /** The operations recorded so far account for the guild and the global bucket. */
    ghost predicate InStep(c0: D.Channels, s0: T.Slot)
      reads this, discord, limiter
    {
      && limiter.Valid()
      && discord.channels == PlayedAll(c0, ops, cfg) && Confirmed(ops, discord.channels)
      && Global() == ServedAll(s0, ops, limiter.cfg.globalCapacity, limiter.cfg.globalRefillRate)
      && AllHonest(s0, ops, limiter.cfg.globalCapacity, limiter.cfg.globalRefillRate)
    }

    /** The run returned, recorded and wrote what the effect says. */
    ghost predicate Did(e: Effect, v: Verdict, p: Payload, env: Env, spaces0: map<Id, Space>, jobs0: map<Id, JobStatus>,
                        audit0: multiset<AuditEntry>)
      requires p.space in spaces0
      reads this, store
    {
      && v == e.verdict && ops == e.ops
      && store.spaces == spaces0[p.space := Written(spaces0[p.space], e.write, env.row)]
      && store.jobs == EndedJob(jobs0, p.space, e.endJob, env.endJob)
      && store.audit == audit0 + RunAudit(p, env, e.endJob)
    }

    /** takeTokens: the global bucket first, then the route's. */
    method TakeTokens(route: string, g: Stamp, r: Stamp, ghost c0: D.Channels, ghost s0: T.Slot)
      returns (v: Verdict, global_: R.TakeReply, route_: R.TakeReply)
      requires InStep(c0, s0)
      modifies this`ops, limiter`keys
      ensures InStep(c0, s0)
      ensures ops == old(ops) + Taking(g, global_, route, r, route_)
      ensures v == if !global_.Allowed? then R.VerdictFor(global_) else R.VerdictFor(route_)
      ensures v == Success <==> global_.Allowed? && route_.Allowed?
    {
      ghost var capacity, rate := limiter.cfg.globalCapacity, limiter.cfg.globalRefillRate;
      route_ := R.Unreachable;
      global_ := limiter.TakeGlobal(g.at, g.o);
      OneMoreOp(s0, ops, TakeGlobal(g.at, g.o, global_), capacity, rate);
      OneMorePlayed(c0, ops, TakeGlobal(g.at, g.o, global_), cfg);
      ops := ops + [TakeGlobal(g.at, g.o, global_)];
      if !global_.Allowed? {
        v := R.VerdictFor(global_);
        return;
      }
      limiter.KeysAreApart(route, route);
      route_ := limiter.TakeRoute(route, r.at, r.o);
      OneMoreOp(s0, ops, TakeRoute(route, r.at, route_), capacity, rate);
      OneMorePlayed(c0, ops, TakeRoute(route, r.at, route_), cfg);
      assert old(ops) + [TakeGlobal(g.at, g.o, global_)] + [TakeRoute(route, r.at, route_)]
          == old(ops) + Taking(g, global_, route, r, route_);
      ops := ops + [TakeRoute(route, r.at, route_)];
      v := R.VerdictFor(route_);
    }

    /** handle429. */
    method Handle429(route: string, retryAfterMs: int, when: Stamp, ghost c0: D.Channels, ghost s0: T.Slot)
      returns (v: Verdict)
      requires InStep(c0, s0)
      modifies this`ops, limiter`keys
      ensures InStep(c0, s0)
      ensures ops == old(ops) + [Penalize(route, BackOff(retryAfterMs), when)]
      ensures v == RateLimited(BackOff(retryAfterMs), route)
    {
      var retryAfter := retryAfterMs;
      if retryAfter <= 0 {
        retryAfter := 5000;
      }
      ghost var op := Penalize(route, retryAfter, when);
      OneMoreOp(s0, ops, op, limiter.cfg.globalCapacity, limiter.cfg.globalRefillRate);
      OneMorePlayed(c0, ops, op, cfg);
      var _ := limiter.PenalizeUntil(route, retryAfter, when.at, when.o);
      ops := ops + [op];
      v := RateLimited(retryAfter, route);
    }

    /** failClosed. */
    method FailClose(p: Payload, created: bool, env: Env) returns (v: Verdict)
      requires p.space in store.spaces
      modifies store`spaces, store`jobs, store`audit
      ensures v == SkipRetry
      ensures store.spaces == old(store.spaces)[p.space :=
                Written(old(store.spaces)[p.space], SetState(if created then Degraded else Failed), env.row)]
      ensures store.jobs == P.MovedJob(old(store.jobs), p.space, JobArchived, env.endJob)
      ensures store.audit == old(store.audit) + RunAudit(p, env, Some(JobArchived))
    {
      var newState := Degraded;
      if !created {
        newState := Failed;
      }
      var _ := store.UpdateSpaceACLState(p.space, newState, env.row);
      store.TransitionJob(p.space, JobArchived, env.endJob);
      store.InsertAuditEntry(AuditEntry("space.provision.failed", p.space, p.merchant), env.audit);
      v := SkipRetry;
    }

    method CreateChannel(env: Env, ghost c0: D.Channels, ghost s0: T.Slot)
      requires InStep(c0, s0)
      modifies this`ops, discord`channels
      ensures InStep(c0, s0)
      ensures ops == old(ops) + [CallCreate(env.createAt, env.create)]
    {
      ghost var op := CallCreate(env.createAt, env.create);
      OneMoreOp(s0, ops, op, limiter.cfg.globalCapacity, limiter.cfg.globalRefillRate);
      OneMorePlayed(c0, ops, op, cfg);
      match env.create {
        case Created(id) => var _ := discord.CreateChannelDenied(id, cfg.everyone, Done);
        case CreateFailed(Some(id)) => var _ := discord.CreateChannelDenied(id, cfg.everyone, Lost);
        case _ =>
      }
      ops := ops + [op];
    }

    method AllowAgents(category: Id, env: Env, ghost c0: D.Channels, ghost s0: T.Slot) returns (answer: AllowReply)
      requires InStep(c0, s0)
      modifies this`ops, discord`channels
      ensures InStep(c0, s0)
      ensures ops == old(ops) + [CallAllow(env.allowAt, category, answer)]
      ensures answer == if env.allow.AllowDone? && category !in old(discord.channels) then AllowFailed(false) else env.allow
    {
      answer := env.allow;
      match env.allow {
        case AllowDone =>
          var ok := discord.ApplyCategoryAgentAllow(category, cfg.agentRole, Done);
          if !ok {
            answer := AllowFailed(false);
          }
        case AllowFailed(true) => var _ := discord.ApplyCategoryAgentAllow(category, cfg.agentRole, Lost);
        case _ =>
      }
      ghost var op := CallAllow(env.allowAt, category, answer);
      OneMoreOp(s0, ops, op, limiter.cfg.globalCapacity, limiter.cfg.globalRefillRate);
      OneMorePlayed(c0, ops, op, cfg);
      ops := ops + [op];
    }

    /** One task. The ghost `re` tells what the limiter and Discord answered. */
    method Handle(p: Payload, env: Env) returns (v: Verdict, ghost re: Replies)
      requires limiter.Valid()
      modifies this`ops, store`spaces, store`jobs, store`audit, discord`channels, limiter`keys
      ensures limiter.Valid()
      ensures v == Run(old(store.spaces), p, cfg, env, re).verdict
      ensures ops == Run(old(store.spaces), p, cfg, env, re).ops
      ensures store.spaces == SpacesAfter(old(store.spaces), p, cfg, env, re)
      ensures store.jobs == JobsAfter(old(store.jobs), p, env, Run(old(store.spaces), p, cfg, env, re))
      ensures store.audit == old(store.audit) + RunAudit(p, env, Run(old(store.spaces), p, cfg, env, re).endJob)
      ensures InStep(old(discord.channels), old(Global())) && Replied(re, env)
    {
      ghost var c0, s0 := discord.channels, Global();
      ops := [];
      re := NO_REPLIES.(allow := env.allow);
      if p.space == "" {
        return SkipRetry, re;
      }
      store.TransitionJob(p.space, JobActive, env.startJob);
      if !env.lock.Free? {
        return Retry, re;
      }
      if env.loadFails || p.space !in store.spaces {
        return Retry, re;
      }
      v, re := Work(p, env, c0, s0);
    }

    /** The part of a run that holds the merchant lock and has its row. */
    method Work(p: Payload, env: Env, ghost c0: D.Channels, ghost s0: T.Slot) returns (v: Verdict, ghost re: Replies)
      requires p.space in store.spaces && ops == [] && InStep(c0, s0)
      modifies this`ops, store`spaces, store`jobs, store`audit, discord`channels, limiter`keys
      ensures InStep(c0, s0) && Replied(re, env)
      ensures Did(Body(old(store.spaces)[p.space], p, cfg, env, re), v, p, env, old(store.spaces), old(store.jobs),
                  old(store.audit))
    {
      var sp := store.spaces[p.space];
      re := NO_REPLIES.(allow := env.allow);
      if sp.channel.Some? && sp.acl == Applied {
        return Success, re;
      }
      var category := p.category;
      if category == "" && cfg.defaultCategory != "" {
        category := cfg.defaultCategory;
      }
      if category == "" {
        v := FailClose(p, false, env);
        return;
      }
      v, re := CreateAndGoOn(p, category, env, c0, s0);
    }

    method CreateAndGoOn(p: Payload, category: Id, env: Env, ghost c0: D.Channels, ghost s0: T.Slot)
      returns (v: Verdict, ghost re: Replies)
      requires p.space in store.spaces && ops == [] && InStep(c0, s0)
      modifies this`ops, store`spaces, store`jobs, store`audit, discord`channels, limiter`keys
      ensures InStep(c0, s0) && Replied(re, env)
      ensures Did(Make(category, env, re), v, p, env, old(store.spaces), old(store.jobs),
                  old(store.audit))
    {
      re := NO_REPLIES.(allow := env.allow);
      var v1, g1, r1 := TakeTokens(CREATE_ROUTE, env.global1, env.route1, c0, s0);
      re := re.(global1 := g1, route1 := r1);
      assert ops == Taking(env.global1, re.global1, CREATE_ROUTE, env.route1, re.route1);
      if v1 != Success {
        return v1, re;
      }
      CreateChannel(env, c0, s0);
      v, re := GoOn(p, category, env, c0, s0, re);
    }

    /** What becomes of a run once Discord has answered its create. */
    method GoOn(p: Payload, category: Id, env: Env, ghost c0: D.Channels, ghost s0: T.Slot, ghost re0: Replies)
      returns (v: Verdict, ghost re: Replies)
      requires p.space in store.spaces && InStep(c0, s0) && re0.allow == env.allow
      modifies this`ops, store`spaces, store`jobs, store`audit, discord`channels, limiter`keys
      ensures InStep(c0, s0) && Replied(re, env)
      ensures re.global1 == re0.global1 && re.route1 == re0.route1
      ensures Did(AfterCreate(category, old(ops), env, re), v, p, env, old(store.spaces), old(store.jobs), old(store.audit))
    {
      re := re0;
      match env.create {
        case CreateThrottled(ms) =>
          v := Handle429(CREATE_ROUTE, ms, env.penalty, c0, s0);
        case CreateFailed(_) =>
          v := FailClose(p, false, env);
        case Created(channel) =>
          v, re := AllowAndPersist(p, channel, category, env, c0, s0, re);
      }
    }

    method AllowAndPersist(p: Payload, channel: Id, category: Id, env: Env,
                           ghost c0: D.Channels, ghost s0: T.Slot, ghost re0: Replies)
      returns (v: Verdict, ghost re: Replies)
      requires p.space in store.spaces && InStep(c0, s0) && re0.allow == env.allow
      modifies this`ops, store`spaces, store`jobs, store`audit, discord`channels, limiter`keys
      ensures InStep(c0, s0) && Replied(re, env)
      ensures re.global1 == re0.global1 && re.route1 == re0.route1
      ensures Did(Finish(channel, category, old(ops), env, re), v, p, env,
                  old(store.spaces), old(store.jobs), old(store.audit))
    {
      var v2, global2, route2 := TakeTokens(AllowRoute(category), env.global2, env.route2, c0, s0);
      re := re0.(global2 := global2, route2 := route2);
      if v2 != Success {
        return v2, re;
      }
      var answer := AllowAgents(category, env, c0, s0);
      re := re.(allow := answer);
      match answer {
        case AllowThrottled(ms) =>
          v := Handle429(AllowRoute(category), ms, env.penalty, c0, s0);
        case AllowFailed(_) =>
          v := FailClose(p, true, env);
        case AllowDone =>
          var ok := store.UpdateSpaceDiscordChannel(p.space, channel, Some(category), Applied, env.row);
          if !ok {
            return Retry, re;
          }
          store.TransitionJob(p.space, JobCompleted, env.endJob);
          store.InsertAuditEntry(AuditEntry("space.provision", p.space, p.merchant), env.audit);
          v := Success;
      }
    }
  }
}
