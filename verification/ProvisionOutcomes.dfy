/** What one provision run comes to, read off its payload, its row and what it did: which category it
    uses, which tokens it holds, and what its last operation means for its task, its row and its job. */
module ProvisionOutcomes {
  import opened Wrappers
  import opened Domain
  import opened Provision

  /** The run gets the lock and reads its row. */
  predicate Loads(spaces: map<Id, Space>, p: Payload, env: Env) {
    p.space != "" && env.lock == Free && !env.loadFails && p.space in spaces
  }

  /** And the row still wants a channel. */
  predicate Works(spaces: map<Id, Space>, p: Payload, env: Env) {
    Loads(spaces, p, env) && (spaces[p.space].channel.None? || spaces[p.space].acl != Applied)
  }

  /** A run that does not work touches nothing: it is done when the row is applied already, ended for
      good when the payload names no space, and run again in every other case. */
  lemma IdleRuns(spaces: map<Id, Space>, p: Payload, cfg: Config, env: Env, re: Replies)
    requires !Works(spaces, p, env)
    ensures var e := Run(spaces, p, cfg, env, re);
      && e.ops == [] && e.write == NoWrite && e.endJob == None && SpacesAfter(spaces, p, cfg, env, re) == spaces
      && (e.verdict == Success <==> Loads(spaces, p, env))
      && (e.verdict == SkipRetry <==> p.space == "")
      && (e.verdict == Retry <==> p.space != "" && !Loads(spaces, p, env))
  {
  }

  /** A working run begins by asking for a global token, unless neither the payload nor the
      configuration names a category: then it fails for good without any call. */
  lemma WorkBeginsIff(spaces: map<Id, Space>, p: Payload, cfg: Config, env: Env, re: Replies)
    requires Works(spaces, p, env)
    ensures var e := Run(spaces, p, cfg, env, re);
      && (e.ops != [] && e.ops[0].TakeGlobal? <==> p.category != "" || cfg.defaultCategory != "")
      && (p.category == "" && cfg.defaultCategory == "" ==>
            e.ops == [] && e.verdict == SkipRetry && e.write == SetState(Failed) && e.endJob == Some(JobArchived))
  {
  }

  /** The category is the payload's, and the configured one only where the payload has none. */
  lemma CategoryUsed(spaces: map<Id, Space>, p: Payload, cfg: Config, env: Env, re: Replies)
    ensures var e := Run(spaces, p, cfg, env, re);
      && (forall i :: 0 <= i < |e.ops| && e.ops[i].CallAllow? ==> Names(e.ops[i].category, p, cfg))
      && (e.write.SetChannel? ==> Names(e.write.category, p, cfg))
  {
  }

  predicate Names(category: Id, p: Payload, cfg: Config) {
    (p.category != "" && category == p.category) || (p.category == "" && category == cfg.defaultCategory != "")
  }

  predicate GrantedRoute(op: Op, route: string) {
    op.TakeRoute? && op.route == route && op.reply == R.Allowed
  }

  predicate GrantedGlobal(op: Op) {
    op.TakeGlobal? && op.reply == R.Allowed
  }

  /** Just before the call the run was granted a global token and then one of the call's own route. */
  predicate HoldsBothTokens(ops: seq<Op>, i: nat)
    requires i < |ops|
  {
    && (ops[i].CallCreate? ==>
          i >= 2 && GrantedGlobal(ops[i - 2]) && GrantedRoute(ops[i - 1], "POST/channels"))
    && (ops[i].CallAllow? ==>
          i >= 2 && GrantedGlobal(ops[i - 2])
          && GrantedRoute(ops[i - 1], "PUT/channels/" + ops[i].category + "/permissions"))
  }

  /** This is so at every Discord call of a run. */
  lemma CallsHoldBothTokens(spaces: map<Id, Space>, p: Payload, cfg: Config, env: Env, re: Replies, i: nat)
    requires i < |Run(spaces, p, cfg, env, re).ops|
    ensures HoldsBothTokens(Run(spaces, p, cfg, env, re).ops, i)
  {
    var category := Category(p, cfg);
    var ops := Taking(env.global1, re.global1, CREATE_ROUTE, env.route1, re.route1) + [CallCreate(env.createAt, env.create)];
    if i >= 3 && re.global1.Allowed? && re.route1.Allowed? && env.create.Created? {
      FinishHoldsBothTokens(env.create.id, category, ops, env, re, i);
    }
  }

  lemma FinishHoldsBothTokens(channel: Id, category: Id, ops: seq<Op>, env: Env, re: Replies, i: nat)
    requires |ops| == 3 <= i < |Finish(channel, category, ops, env, re).ops|
    ensures HoldsBothTokens(Finish(channel, category, ops, env, re).ops, i)
  {
  }

  /** What Discord answered is what the run saw. */
  lemma AnswersAreSeen(spaces: map<Id, Space>, p: Payload, cfg: Config, env: Env, re: Replies, i: nat)
    requires i < |Run(spaces, p, cfg, env, re).ops|
    ensures var op := Run(spaces, p, cfg, env, re).ops[i];
      && (op.CallCreate? ==> i == 2 && op.made == env.create)
      && (op.CallAllow? ==> i == 5 && op.answer == re.allow)
      && (op.TakeGlobal? ==> (i == 0 && op.reply == re.global1) || (i == 3 && op.reply == re.global2))
      && (op.TakeRoute? ==> (i == 1 && op.reply == re.route1) || (i == 4 && op.reply == re.route2))
  {
  }

  /** The delay Discord asks for, or five seconds when it asks for none. */
  predicate IsBackOff(asked: int, ms: int) {
    (asked > 0 && ms == asked) || (asked <= 0 && ms == 5_000)
  }

  predicate Refused(reply: R.TakeReply, v: Verdict) {
    match reply
    case Allowed => false
    case Exhausted(ms, bucket) => v == RateLimited(ms, bucket)
    case Unreachable => v == Retry
  }

  predicate Throttled429(op: Op, route: string, ms: int) {
    || (op.CallCreate? && op.made.CreateThrottled? && route == "POST/channels" && IsBackOff(op.made.retryAfterMs, ms))
    || (op.CallAllow? && op.answer.AllowThrottled? && route == "PUT/channels/" + op.category + "/permissions"
        && IsBackOff(op.answer.retryAfterMs, ms))
  }

  /** A refused token ends a run with nothing written: to be run again after the limiter's delay, or
      with backoff when the limiter cannot be reached. So does a 429, after the penalty and after
      Discord's delay. A create that fails leaves Failed, an allow that fails Degraded, and its task is
      archived. An allow that succeeds records the channel that was created, and the run succeeds if
      that write is confirmed. */
  predicate EndsAsItsLastOp(e: Effect, env: Env)
    requires e.ops != []
  {
    var n := |e.ops| - 1;
    match e.ops[n]
    case TakeGlobal(_, _, reply) => e.write == NoWrite && Refused(reply, e.verdict)
    case TakeRoute(_, _, reply) => e.write == NoWrite && Refused(reply, e.verdict)
    case Penalize(route, ms, when) =>
      && n > 0 && Throttled429(e.ops[n - 1], route, ms) && when == env.penalty
      && e.verdict == RateLimited(ms, route) && e.write == NoWrite
    case CallCreate(_, made) => made.CreateFailed? && e.verdict == SkipRetry && e.write == SetState(Failed)
    case CallAllow(_, category, answer) =>
      && !answer.AllowThrottled?
      && (answer.AllowFailed? ==> e.verdict == SkipRetry && e.write == SetState(Degraded))
      && (answer.AllowDone? ==>
            && env.create.Created? && e.write == SetChannel(env.create.id, category)
            && e.verdict == if env.row == Done then Success else Retry)
  }

  /** The last operation of a working run decides. */
  lemma LastOpDecides(spaces: map<Id, Space>, p: Payload, cfg: Config, env: Env, re: Replies)
    requires Works(spaces, p, env) && Run(spaces, p, cfg, env, re).ops != []
    ensures EndsAsItsLastOp(Run(spaces, p, cfg, env, re), env)
  {
    var category := Category(p, cfg);
    var ops := Taking(env.global1, re.global1, CREATE_ROUTE, env.route1, re.route1) + [CallCreate(env.createAt, env.create)];
    if re.global1.Allowed? && re.route1.Allowed? && env.create.Created? {
      LastOfFinish(env.create.id, category, ops, env, re);
    }
  }

  lemma LastOfFinish(channel: Id, category: Id, ops: seq<Op>, env: Env, re: Replies)
    requires env.create == Created(channel)
    ensures Finish(channel, category, ops, env, re).ops != [] && EndsAsItsLastOp(Finish(channel, category, ops, env, re), env)
  {
  }

  /** What the run's write leaves in the row; a write that never arrives leaves it as it was, and no
      other row changes. */
  lemma RowIsWritten(spaces: map<Id, Space>, p: Payload, cfg: Config, env: Env, re: Replies)
    requires Works(spaces, p, env)
    ensures var e, sp, after := Run(spaces, p, cfg, env, re), spaces[p.space], SpacesAfter(spaces, p, cfg, env, re);
      && after.Keys == spaces.Keys && (forall s :: s in spaces && s != p.space ==> after[s] == spaces[s])
      && (env.row == Rejected || e.write == NoWrite ==> after[p.space] == sp)
      && (env.row != Rejected && e.write.SetChannel? ==>
            after[p.space] == Space(sp.merchant, Some(e.write.channel), Some(e.write.category), Applied, sp.lifecycle))
      && (env.row != Rejected && e.write.SetState? ==>
            after[p.space] == Space(sp.merchant, sp.channel, sp.category, e.write.acl, sp.lifecycle))
  {
  }

  /** The job row of a working run: completed on success, archived when its task is, and otherwise left
      active for the next attempt; one audit row tells of either end. */
  lemma JobAndAuditFollow(spaces: map<Id, Space>, jobs: map<Id, JobStatus>, p: Payload, cfg: Config, env: Env, re: Replies)
    requires Works(spaces, p, env) && p.space in jobs && env.startJob == Done
    ensures var e := Run(spaces, p, cfg, env, re);
      var after := JobsAfter(jobs, p, env, e);
      && after.Keys == jobs.Keys && (forall s :: s in jobs && s != p.space ==> after[s] == jobs[s])
      && (after[p.space] == if e.verdict == Success && env.endJob != Rejected then JobCompleted
                            else if e.verdict == SkipRetry && env.endJob != Rejected then JobArchived else JobActive)
      && (RunAudit(p, env, e.endJob) ==
          if env.audit == Rejected then multiset{}
          else if e.verdict == Success then multiset{AuditEntry("space.provision", p.space, p.merchant)}
          else if e.verdict == SkipRetry then multiset{AuditEntry("space.provision.failed", p.space, p.merchant)}
          else multiset{})
  {
    LastVerdict(spaces, p, cfg, env, re);
  }

  lemma LastVerdict(spaces: map<Id, Space>, p: Payload, cfg: Config, env: Env, re: Replies)
    requires Works(spaces, p, env)
    ensures var e := Run(spaces, p, cfg, env, re);
      e.endJob == if e.verdict == Success then Some(JobCompleted)
                  else if e.verdict == SkipRetry then Some(JobArchived) else None
  {
  }
}
