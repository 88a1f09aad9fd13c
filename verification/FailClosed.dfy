/** What any history of provision attempts on one space can lead to: in sequence, and interleaved
    under the merchant lock. */
module FailClosed {
  import opened Wrappers
  import opened Domain
  import opened Provision
  import D = Discord
  import L = Lock

  /** An attempt that got the lock and loaded its row. */
  datatype Attempt = Attempt(p: Payload, env: Env, re: Replies)

  function Does(sp: Space, a: Attempt, cfg: Config): Effect {
    Body(sp, a.p, cfg, a.env, a.re)
  }

  function RowAfter(sp: Space, a: Attempt, cfg: Config): Space {
    Written(sp, Does(sp, a, cfg).write, a.env.row)
  }

  function History(sp: Space, tries: seq<Attempt>, cfg: Config): Space
    decreases tries
  {
    if tries == [] then sp else History(RowAfter(sp, tries[0], cfg), tries[1..], cfg)
  }

  lemma {:induction false} HistorySplits(sp: Space, tries: seq<Attempt>, more: seq<Attempt>, cfg: Config)
    ensures History(sp, tries + more, cfg) == History(History(sp, tries, cfg), more, cfg)
    decreases tries
  {
    if tries == [] {
      assert tries + more == more;
    } else {
      assert (tries + more)[0] == tries[0] && (tries + more)[1..] == tries[1..] + more;
      HistorySplits(RowAfter(sp, tries[0], cfg), tries[1..], more, cfg);
    }
  }

  /** In these operations Discord created `channel` denied to @everyone, and later allowed the
      agent role on `category`. */
  ghost predicate Earned(ops: seq<Op>, channel: Id, category: Id) {
    exists i, j :: 0 <= i < j < |ops| && Creates(ops[i], channel) && Allows(ops[j], category)
  }

  predicate Creates(op: Op, channel: Id) {
    op.CallCreate? && op.made == Created(channel)
  }

  predicate Allows(op: Op, category: Id) {
    op.CallAllow? && op.category == category && op.answer.AllowDone?
  }

  /** Attempt k of the history, on the row it found, earned `channel`. */
  ghost predicate EarnedAt(sp: Space, tries: seq<Attempt>, k: int, channel: Id, category: Id, cfg: Config) {
    0 <= k < |tries| && Earned(Does(History(sp, tries[..k], cfg), tries[k], cfg).ops, channel, category)
  }

  ghost predicate EverEarned(sp: Space, tries: seq<Attempt>, channel: Id, category: Id, cfg: Config) {
    exists k :: EarnedAt(sp, tries, k, channel, category, cfg)
  }

  ghost predicate RowEarned(sp: Space, tries: seq<Attempt>, row: Space, cfg: Config) {
    row.channel.Some? && row.category.Some? && EverEarned(sp, tries, row.channel.value, row.category.value, cfg)
  }

  /** Discord told the run of a new channel. */
  ghost predicate Told(ops: seq<Op>) {
    exists op :: op in ops && op.CallCreate? && op.made.Created?
  }

  /** The only write that says Applied names a channel the same run has earned. */
  lemma AppliedWriteIsEarned(sp: Space, a: Attempt, cfg: Config)
    requires Does(sp, a, cfg).write.SetChannel?
    ensures Earned(Does(sp, a, cfg).ops, Does(sp, a, cfg).write.channel, Does(sp, a, cfg).write.category)
    ensures !Provisioned(sp)
  {
    var e := Does(sp, a, cfg);
    assert e.ops == [TakeGlobal(a.env.global1.at, a.env.global1.o, a.re.global1), TakeRoute(CREATE_ROUTE, a.env.route1.at, a.re.route1),
                     CallCreate(a.env.createAt, a.env.create),
                     TakeGlobal(a.env.global2.at, a.env.global2.o, a.re.global2),
                     TakeRoute(AllowRoute(Category(a.p, cfg)), a.env.route2.at, a.re.route2),
                     CallAllow(a.env.allowAt, Category(a.p, cfg), a.re.allow)];
    assert Creates(e.ops[2], e.write.channel) && Allows(e.ops[5], e.write.category);
  }

  lemma PlayedUpTo(c: D.Channels, ops: seq<Op>, i: nat, cfg: Config)
    requires i < |ops|
    ensures PlayedAll(c, ops[..i + 1], cfg) == Played(PlayedAll(c, ops[..i], cfg), ops[i], cfg)
    ensures ops[i].TakeGlobal? || ops[i].TakeRoute? ==> PlayedAll(c, ops[..i + 1], cfg) == PlayedAll(c, ops[..i], cfg)
  {
    assert ops[..i + 1] == ops[..i] + [ops[i]];
    OneMorePlayed(c, ops[..i], ops[i], cfg);
  }

  /** A create, two takes and an allow: what they leave on the channel and on the category. */
  lemma CreateThenAllow(c: D.Channels, ops: seq<Op>, channel: Id, category: Id, cfg: Config)
    requires |ops| == 6 && Creates(ops[2], channel) && ops[3].TakeGlobal? && ops[4].TakeRoute? && Allows(ops[5], category)
    requires category in PlayedAll(c, ops, cfg)
    ensures var after := PlayedAll(c, ops, cfg);
      && channel in after
      && cfg.agentRole in after[category] && after[category][cfg.agentRole] == D.AGENT_ALLOW
      && (channel != category ==> after[channel] == D.BornDenied(cfg.everyone))
  {
    PlayedUpTo(c, ops, 2, cfg);
    PlayedUpTo(c, ops, 3, cfg);
    PlayedUpTo(c, ops, 4, cfg);
    PlayedUpTo(c, ops, 5, cfg);
    assert ops[..6] == ops;
  }

  /** In the guild as such a run leaves it, the new channel denies @everyone and the category allows
      the agents: Discord confirms an allow only on a category it has. */
  lemma AppliedWriteIsProjected(c: D.Channels, sp: Space, a: Attempt, cfg: Config)
    requires Does(sp, a, cfg).write.SetChannel?
    requires Confirmed(Does(sp, a, cfg).ops, PlayedAll(c, Does(sp, a, cfg).ops, cfg))
    ensures var w := Does(sp, a, cfg).write;
      var after := PlayedAll(c, Does(sp, a, cfg).ops, cfg);
      && w.channel in after && w.category in after
      && cfg.agentRole in after[w.category] && after[w.category][cfg.agentRole] == Overwrite(RoleTarget, {ViewChannel}, {})
      && (w.channel != w.category ==> after[w.channel] == map[cfg.everyone := Overwrite(RoleTarget, {}, {ViewChannel})])
  {
    var ops := Does(sp, a, cfg).ops;
    assert |ops| == 6 && Creates(ops[2], a.env.create.id) && Allows(ops[5], Category(a.p, cfg));
    CreateThenAllow(c, ops, a.env.create.id, Category(a.p, cfg), cfg);
  }

  /** A row is Applied exactly when it names a channel; it then names a category too, and one
      attempt both created that channel denied and allowed the agents on that category. */
  lemma {:induction false} AppliedIsEarned(sp: Space, tries: seq<Attempt>, cfg: Config)
    requires sp.channel == None && sp.acl != Applied
    ensures var last := History(sp, tries, cfg);
      && (last.acl == Applied <==> last.channel.Some?)
      && (last.acl == Applied ==> RowEarned(sp, tries, last, cfg))
    decreases |tries|
  {
    if tries != [] {
      var n := |tries| - 1;
      var before := History(sp, tries[..n], cfg);
      AppliedIsEarned(sp, tries[..n], cfg);
      assert tries == tries[..n] + [tries[n]];
      HistorySplits(sp, tries[..n], [tries[n]], cfg);
      assert [tries[n]][1..] == [];
      assert History(sp, tries, cfg) == RowAfter(before, tries[n], cfg);
      if Does(before, tries[n], cfg).write.SetChannel? {
        AppliedWriteIsEarned(before, tries[n], cfg);
        var wrote := Does(before, tries[n], cfg).write;
        assert EarnedAt(sp, tries, n, wrote.channel, wrote.category, cfg);
      }
      forall k, channel, category | EarnedAt(sp, tries[..n], k, channel, category, cfg)
        ensures EarnedAt(sp, tries, k, channel, category, cfg)
      {
        assert tries[..n][..k] == tries[..k];
      }
    }
  }

  /** Once Applied, no later attempt changes the row or calls Discord. */
  lemma {:induction false} AppliedIsFinal(sp: Space, tries: seq<Attempt>, cfg: Config)
    requires Provisioned(sp)
    ensures History(sp, tries, cfg) == sp
    ensures forall a :: a in tries ==> Does(sp, a, cfg).ops == [] && Does(sp, a, cfg).verdict == Success
    decreases tries
  {
    if tries != [] {
      AppliedIsFinal(sp, tries[1..], cfg);
    }
  }

  /** A terminal failure whose row write lands leaves Failed exactly when Discord told the run of
      no new channel, and Degraded otherwise; either way the row names no channel it did not name. */
  lemma TerminalFailureState(sp: Space, a: Attempt, cfg: Config)
    requires Does(sp, a, cfg).verdict == SkipRetry
    ensures !a.env.row.Effective() ==> RowAfter(sp, a, cfg) == sp
    ensures a.env.row.Effective() ==>
      RowAfter(sp, a, cfg) == sp.(acl := if Told(Does(sp, a, cfg).ops) then Degraded else Failed)
  {
  }

  /** The run gets as far as asking Discord for a channel. */
  predicate AsksForAChannel(sp: Space, a: Attempt, cfg: Config) {
    !Provisioned(sp) && (a.p.category != "" || cfg.defaultCategory != "") && a.re.global1.Allowed? && a.re.route1.Allowed?
  }

  /** Failed is meant to say that there is no channel to repair. A terminal failure records it over
      a channel that does exist exactly when the create took effect although Discord answered with an error. */
  lemma FailedHidesAChannelIff(sp: Space, a: Attempt, cfg: Config)
    requires Does(sp, a, cfg).verdict == SkipRetry && a.env.row.Effective()
    ensures RowAfter(sp, a, cfg).acl == Failed && PlayedAll(map[], Does(sp, a, cfg).ops, cfg).Keys != {}
       <==> AsksForAChannel(sp, a, cfg) && a.env.create.CreateFailed? && a.env.create.orphan.Some?
  {
    var takes := [TakeGlobal(a.env.global1.at, a.env.global1.o, a.re.global1), TakeRoute(CREATE_ROUTE, a.env.route1.at, a.re.route1)];
    if AsksForAChannel(sp, a, cfg) && a.env.create.CreateFailed? {
      OneMorePlayed(map[], takes, CallCreate(a.env.createAt, a.env.create), cfg);
      assert PlayedAll(map[], takes, cfg) == map[] by {
        assert takes[1..][1..] == [];
        assert PlayedAll(map[], takes[1..], cfg) == PlayedAll(map[], takes[1..][1..], cfg);
      }
      if a.env.create.orphan.Some? {
        assert a.env.create.orphan.value in PlayedAll(map[], Does(sp, a, cfg).ops, cfg).Keys;
      }
    }
  }

  /** With every job update working, a run that succeeds leaves its job Completed exactly when it is
      the run that provisioned the space: a repeated run reopens the job and leaves it Active. */
  lemma CompletedJobIff(spaces: map<Id, Space>, jobs: map<Id, JobStatus>, p: Payload, cfg: Config, env: Env, re: Replies)
    requires p.space in jobs && env.startJob == Done && env.endJob == Done
    requires Run(spaces, p, cfg, env, re).verdict == Success
    ensures var after := JobsAfter(jobs, p, env, Run(spaces, p, cfg, env, re));
      (after[p.space] == JobCompleted <==> !Provisioned(spaces[p.space]))
      && (after[p.space] != JobCompleted ==> after[p.space] == JobActive)
  {
  }

  // ---- Many workers, one merchant lock ----

  /** A worker that has read the row but not yet written it remembers what it read. */
  datatype System = System(lock: L.State, row: Space, reading: map<string, Space>)

  datatype Event =
    | LockStep(e: L.Event)
    | Load(token: string)
    | Write(token: string, a: Attempt)

  predicate Enabled(s: System, e: Event, key: string) {
    match e
    case LockStep(le) => L.Enabled(s.lock, le)
    case Load(token) => token in s.lock.grants && s.lock.grants[token].key == key
    case Write(token, _) => token in s.reading
  }

  function Next(s: System, e: Event, key: string, ttl: int, cfg: Config): System
    requires Enabled(s, e, key)
  {
    match e
    case LockStep(le) => s.(lock := L.Next(s.lock, le, ttl))
    case Load(token) => s.(reading := s.reading[token := s.row])
    case Write(token, a) =>
      s.(row := Written(s.row, Does(s.reading[token], a, cfg).write, a.env.row), reading := s.reading - {token})
  }

  /** The worker still holds its lease, on this merchant's lock, when it writes. */
  predicate Timely(s: System, e: Event, key: string) {
    e.Write? ==> L.Holds(s.lock, e.token) && s.lock.grants[e.token].key == key
  }

  /** The reading a worker writes on agrees with the row on whether the space is provisioned. */
  predicate Current(s: System, e: Event) {
    e.Write? && e.token in s.reading ==> (Provisioned(s.reading[e.token]) <==> Provisioned(s.row))
  }

  predicate CanRun(s: System, es: seq<Event>, key: string, ttl: int, cfg: Config)
    decreases es
  {
    es == [] || (Enabled(s, es[0], key) && CanRun(Next(s, es[0], key, ttl, cfg), es[1..], key, ttl, cfg))
  }

  function RunAll(s: System, es: seq<Event>, key: string, ttl: int, cfg: Config): System
    requires CanRun(s, es, key, ttl, cfg)
    decreases es
  {
    if es == [] then s else RunAll(Next(s, es[0], key, ttl, cfg), es[1..], key, ttl, cfg)
  }

  predicate AllTimely(s: System, es: seq<Event>, key: string, ttl: int, cfg: Config)
    requires CanRun(s, es, key, ttl, cfg)
    decreases es
  {
    es == [] || (Timely(s, es[0], key) && AllTimely(Next(s, es[0], key, ttl, cfg), es[1..], key, ttl, cfg))
  }

  predicate AllCurrent(s: System, es: seq<Event>, key: string, ttl: int, cfg: Config)
    requires CanRun(s, es, key, ttl, cfg)
    decreases es
  {
    es == [] || (Current(s, es[0]) && AllCurrent(Next(s, es[0], key, ttl, cfg), es[1..], key, ttl, cfg))
  }

  /** The attempts of a run, in the order of their writes. */
  function Writes(es: seq<Event>): seq<Attempt>
    decreases es
  {
    if es == [] then [] else (if es[0].Write? then [es[0].a] else []) + Writes(es[1..])
  }

  ghost predicate Inv(s: System, key: string, ttl: int) {
    && L.Inv(s.lock, ttl)
    && s.reading.Keys <= s.lock.used
    && forall t :: t in s.reading && L.Holds(s.lock, t) && s.lock.grants[t].key == key ==> s.reading[t] == s.row
  }

  lemma OneHolder(s: System, t1: string, t2: string, key: string, ttl: int)
    requires Inv(s, key, ttl) && L.Holds(s.lock, t1) && L.Holds(s.lock, t2)
    requires s.lock.grants[t1].key == key && s.lock.grants[t2].key == key
    ensures t1 == t2
  {
  }

  lemma StepKeepsInv(s: System, e: Event, key: string, ttl: int, cfg: Config)
    requires Inv(s, key, ttl) && Enabled(s, e, key) && Timely(s, e, key)
    ensures Inv(Next(s, e, key, ttl, cfg), key, ttl)
    ensures Next(s, e, key, ttl, cfg).row == if e.Write? then RowAfter(s.row, e.a, cfg) else s.row
  {
    var s' := Next(s, e, key, ttl, cfg);
    if e.LockStep? {
      L.StepKeepsInv(s.lock, e.e, ttl);
    }
    forall t | t in s'.reading && L.Holds(s'.lock, t) && s'.lock.grants[t].key == key
      ensures s'.reading[t] == s'.row
    {
      match e {
        case LockStep(le) =>
          assert L.Holds(s.lock, t) && s.lock.grants[t] == s'.lock.grants[t];
        case Load(token) =>
        case Write(token, a) =>
          OneHolder(s, token, t, key, ttl);
      }
    }
  }

  /** An attempt in which everything works and Discord hands out `channel`. */
  function Smooth(channel: Id): Attempt {
    var st := Stamp(0, Done);
    Attempt(Payload("m", "s", "cat"),
            Env(Done, Free, false, st, st, 0, Created(channel), st, st, 0, AllowDone, st, Done, Done, Done),
            Replies(Provision.R.Allowed, Provision.R.Allowed, Provision.R.Allowed, Provision.R.Allowed, AllowDone))
  }

  /** The worker's write is what an attempt on the row as it now stands would write, whatever the
      attempt did, exactly when its reading is current. */
  lemma WriteIsSequentialIff(s: System, token: string, key: string, ttl: int, cfg: Config)
    requires token in s.reading
    ensures (forall a :: Next(s, Write(token, a), key, ttl, cfg).row == RowAfter(s.row, a, cfg))
       <==> (Provisioned(s.reading[token]) <==> Provisioned(s.row))
  {
    var other := if s.row.channel == Some("one") then "two" else "one";
    if Provisioned(s.reading[token]) <==> Provisioned(s.row) {
      forall a
        ensures Next(s, Write(token, a), key, ttl, cfg).row == RowAfter(s.row, a, cfg)
      {
        CurrentReadingsActAlike(s.reading[token], s.row, a, cfg);
      }
    } else {
      assert Next(s, Write(token, Smooth(other)), key, ttl, cfg).row != RowAfter(s.row, Smooth(other), cfg);
    }
  }

  lemma CurrentReadingsActAlike(sp: Space, row: Space, a: Attempt, cfg: Config)
    requires Provisioned(sp) <==> Provisioned(row)
    ensures Does(sp, a, cfg) == Does(row, a, cfg)
  {
  }

  /** However many workers race, as long as each writes on a current reading the row goes through
      exactly the states of a sequential history of their attempts. */
  lemma {:induction false} LockSerializes(s: System, es: seq<Event>, key: string, ttl: int, cfg: Config)
    requires CanRun(s, es, key, ttl, cfg) && AllCurrent(s, es, key, ttl, cfg)
    ensures RunAll(s, es, key, ttl, cfg).row == History(s.row, Writes(es), cfg)
    decreases es
  {
    if es != [] {
      var s' := Next(s, es[0], key, ttl, cfg);
      LockSerializes(s', es[1..], key, ttl, cfg);
      if es[0].Write? {
        CurrentReadingsActAlike(s.reading[es[0].token], s.row, es[0].a, cfg);
        var w := Writes(es);
        assert w[0] == es[0].a && w[1..] == Writes(es[1..]);
      } else {
        assert Writes(es) == Writes(es[1..]);
      }
    }
  }

  /** A worker can make sure by writing within its lease: under the lock its reading is then current. */
  lemma {:induction false} TimelyIsCurrent(s: System, es: seq<Event>, key: string, ttl: int, cfg: Config)
    requires Inv(s, key, ttl) && CanRun(s, es, key, ttl, cfg) && AllTimely(s, es, key, ttl, cfg)
    ensures AllCurrent(s, es, key, ttl, cfg)
    ensures Inv(RunAll(s, es, key, ttl, cfg), key, ttl)
    decreases es
  {
    if es != [] {
      StepKeepsInv(s, es[0], key, ttl, cfg);
      TimelyIsCurrent(Next(s, es[0], key, ttl, cfg), es[1..], key, ttl, cfg);
    }
  }

  function Idle(now: int, row: Space): System {
    System(L.Start(now), row, map[])
  }

  /** From an idle system: what is Applied was earned, and once Applied the row never changes, over
      every interleaving of any number of workers that write on current readings. */
  lemma FailClosedUnderTheLock(now: int, row: Space, es: seq<Event>, more: seq<Event>, key: string, ttl: int, cfg: Config)
    requires row.channel == None && row.acl != Applied
    requires CanRun(Idle(now, row), es, key, ttl, cfg) && AllCurrent(Idle(now, row), es, key, ttl, cfg)
    requires var s := RunAll(Idle(now, row), es, key, ttl, cfg);
      CanRun(s, more, key, ttl, cfg) && AllCurrent(s, more, key, ttl, cfg)
    ensures var s := RunAll(Idle(now, row), es, key, ttl, cfg);
      && (s.row.acl == Applied ==> RowEarned(row, Writes(es), s.row, cfg))
      && (s.row.acl == Applied ==> RunAll(s, more, key, ttl, cfg).row == s.row)
  {
    var s := RunAll(Idle(now, row), es, key, ttl, cfg);
    LockSerializes(Idle(now, row), es, key, ttl, cfg);
    AppliedIsEarned(row, Writes(es), cfg);
    LockSerializes(s, more, key, ttl, cfg);
    if s.row.acl == Applied {
      AppliedIsFinal(s.row, Writes(more), cfg);
    }
  }

  /** In particular when every worker writes within its lease. */
  lemma TimelyWorkersFailClosed(now: int, row: Space, es: seq<Event>, more: seq<Event>, key: string, ttl: nat, cfg: Config)
    requires row.channel == None && row.acl != Applied
    requires CanRun(Idle(now, row), es, key, ttl, cfg) && AllTimely(Idle(now, row), es, key, ttl, cfg)
    requires var s := RunAll(Idle(now, row), es, key, ttl, cfg);
      CanRun(s, more, key, ttl, cfg) && AllTimely(s, more, key, ttl, cfg)
    ensures var s := RunAll(Idle(now, row), es, key, ttl, cfg);
      s.row.acl == Applied ==> RowEarned(row, Writes(es), s.row, cfg) && RunAll(s, more, key, ttl, cfg).row == s.row
  {
    TimelyIsCurrent(Idle(now, row), es, key, ttl, cfg);
    TimelyIsCurrent(RunAll(Idle(now, row), es, key, ttl, cfg), more, key, ttl, cfg);
    FailClosedUnderTheLock(now, row, es, more, key, ttl, cfg);
  }

  /** A stale reading does harm: whenever a worker that read an unprovisioned row is still to write,
      an attempt in which all went well replaces whatever channel the row names by then. */
  lemma LateWriteReplacesTheChannel(s: System, token: string, channel: Id, key: string, ttl: int, cfg: Config)
    requires token in s.reading && !Provisioned(s.reading[token])
    ensures Next(s, Write(token, Smooth(channel)), key, ttl, cfg).row
         == s.row.(channel := Some(channel), category := Some("cat"), acl := Applied)
  {
  }

  ghost predicate Reachable(row: Space, s: System, key: string, ttl: int, cfg: Config) {
    exists es :: CanRun(Idle(0, row), es, key, ttl, cfg) && RunAll(Idle(0, row), es, key, ttl, cfg) == s
  }

  lemma {:induction false} RunOneMore(s: System, es: seq<Event>, e: Event, key: string, ttl: int, cfg: Config)
    requires CanRun(s, es, key, ttl, cfg) && Enabled(RunAll(s, es, key, ttl, cfg), e, key)
    ensures CanRun(s, es + [e], key, ttl, cfg)
    ensures RunAll(s, es + [e], key, ttl, cfg) == Next(RunAll(s, es, key, ttl, cfg), e, key, ttl, cfg)
    decreases es
  {
    if es == [] {
      assert [e][1..] == [];
    } else {
      assert (es + [e])[0] == es[0] && (es + [e])[1..] == es[1..] + [e];
      RunOneMore(Next(s, es[0], key, ttl, cfg), es[1..], e, key, ttl, cfg);
    }
  }

  lemma ReachableNext(row: Space, s: System, e: Event, key: string, ttl: int, cfg: Config)
    requires Reachable(row, s, key, ttl, cfg) && Enabled(s, e, key)
    ensures Reachable(row, Next(s, e, key, ttl, cfg), key, ttl, cfg)
  {
    var es :| CanRun(Idle(0, row), es, key, ttl, cfg) && RunAll(Idle(0, row), es, key, ttl, cfg) == s;
    RunOneMore(Idle(0, row), es, e, key, ttl, cfg);
  }

  /** Worker "a" has read the row and stalled past its lease; worker "b" has taken over the lock. */
  lemma TakenOver(row: Space, key: string, ttl: nat, cfg: Config) returns (s: System)
    ensures Reachable(row, s, key, ttl, cfg)
    ensures s.row == row && s.reading == map["a" := row]
    ensures "b" in s.lock.grants && s.lock.grants["b"].key == key
  {
    s := Idle(0, row);
    assert CanRun(s, [], key, ttl, cfg) && RunAll(s, [], key, ttl, cfg) == s;
    ReachableNext(row, s, LockStep(L.Acquire(key, "a", Done)), key, ttl, cfg);
    s := Next(s, LockStep(L.Acquire(key, "a", Done)), key, ttl, cfg);
    ReachableNext(row, s, Load("a"), key, ttl, cfg);
    s := Next(s, Load("a"), key, ttl, cfg);
    ReachableNext(row, s, LockStep(L.Tick(ttl)), key, ttl, cfg);
    s := Next(s, LockStep(L.Tick(ttl)), key, ttl, cfg);
    ReachableNext(row, s, LockStep(L.Acquire(key, "b", Done)), key, ttl, cfg);
    s := Next(s, LockStep(L.Acquire(key, "b", Done)), key, ttl, cfg);
  }

  /** And such a worker can be waiting while the row is already Applied. */
  lemma StalledWorkerIsReachable(row: Space, key: string, ttl: nat, cfg: Config) returns (s: System)
    requires !Provisioned(row)
    ensures Reachable(row, s, key, ttl, cfg)
    ensures Provisioned(s.row) && s.row.channel == Some("one")
    ensures "a" in s.reading && !Provisioned(s.reading["a"])
  {
    s := TakenOver(row, key, ttl, cfg);
    ReachableNext(row, s, Load("b"), key, ttl, cfg);
    s := Next(s, Load("b"), key, ttl, cfg);
    ReachableNext(row, s, Write("b", Smooth("one")), key, ttl, cfg);
    s := Next(s, Write("b", Smooth("one")), key, ttl, cfg);
  }
}
