/** Every worker step and API write over one database and one guild: which channels stay hidden
    from @everyone, and whom an expulsion keeps out. */
module Access {
  import opened Wrappers
  import opened Domain
  import C = Reconcile
  import Convergence
  import D = Discord
  import FailClosed
  import L = LifecycleChange
  import M = Membership
  import V = Provision

  datatype Step =
    | Provision(p: V.Payload, env: V.Env, re: V.Replies)
    | Invite(space: Id, user: Id, invite: M.InviteFaults)
    | Expel(space: Id, user: Id, expel: M.ExpelFaults)
    | Reconcile(space: Id, faults: C.Faults)
    | Lifecycle(space: Id, action: string, change: L.Faults)
    | CreateSpace(space: Id, merchant: Id)
    | CreateSpaceMember(row: Id, space: Id, user: Id)
    | CreateUser(user: Id, discord: Option<Id>)
    | UpdateDiscordUserID(user: Id, id: Id)

  /** `made` remembers every channel CreateChannelDenied ever made, recorded in Postgres or orphaned. */
  datatype State = State(w: World, made: set<Id>)

  function MadeBy(ops: seq<V.Op>): set<Id> {
    if ops == [] then {}
    else
      var rest := MadeBy(ops[1..]);
      match ops[0]
      case CallCreate(_, Created(id)) => rest + {id}
      case CallCreate(_, CreateFailed(Some(id))) => rest + {id}
      case _ => rest
  }

  function OpsOf(w: World, step: Step, cfg: V.Config): seq<V.Op> {
    if step.Provision? then V.Run(w.spaces, step.p, cfg, step.env, step.re).ops else []
  }

  // ---- API writes, as Postgres' constraints let them through ----

  function InsertSpace(spaces: map<Id, Space>, id: Id, merchant: Id): map<Id, Space> {
    if id in spaces || exists s :: s in spaces && spaces[s].merchant == merchant then spaces
    else spaces[id := Space(merchant, None, None, Pending, Active)]
  }

  function InsertMember(members: map<Id, Member>, row: Id, space: Id, user: Id): map<Id, Member> {
    if row in members || exists r :: r in members && members[r].space == space && members[r].user == user then members
    else members[row := Member(space, user, false, false)]
  }

  predicate Taken(users: map<Id, User>, discord: Option<Id>) {
    discord.Some? && exists u :: u in users && users[u].discord == discord
  }

  function InsertUser(users: map<Id, User>, user: Id, discord: Option<Id>): map<Id, User> {
    if user in users || Taken(users, discord) then users else users[user := User(discord)]
  }

  function LinkUser(users: map<Id, User>, user: Id, id: Id): map<Id, User> {
    if user !in users || Taken(users, Some(id)) then users else users[user := User(Some(id))]
  }

  ghost function WorldAfter(w: World, step: Step, cfg: V.Config): World {
    match step
    case Provision(p, env, re) =>
      w.(spaces := V.SpacesAfter(w.spaces, p, cfg, env, re),
         channels := V.PlayedAll(w.channels, OpsOf(w, step, cfg), cfg))
    case Invite(space, user, f) => M.Invite(w, space, user, f).0
    case Expel(space, user, f) => M.Expel(w, space, user, f).0
    case Reconcile(space, f) => C.Pass(w, space, f).0
    case Lifecycle(space, action, f) => L.Change(w, space, action, cfg.everyone, f).0
    case CreateSpace(space, merchant) => w.(spaces := InsertSpace(w.spaces, space, merchant))
    case CreateSpaceMember(row, space, user) => w.(members := InsertMember(w.members, row, space, user))
    case CreateUser(user, discord) => w.(users := InsertUser(w.users, user, discord))
    case UpdateDiscordUserID(user, id) => w.(users := LinkUser(w.users, user, id))
  }

  ghost function Next(s: State, step: Step, cfg: V.Config): State {
    State(WorldAfter(s.w, step, cfg), s.made + MadeBy(OpsOf(s.w, step, cfg)))
  }

  /** Discord hands out a snowflake once, and never the @everyone role's to a user. */
  predicate Snowflakes(s: State, step: Step, cfg: V.Config) {
    && MadeBy(OpsOf(s.w, step, cfg)) !! s.w.channels.Keys
    && (step.CreateUser? ==> step.discord != Some(cfg.everyone))
    && (step.UpdateDiscordUserID? ==> step.id != cfg.everyone)
  }

  ghost predicate CanRun(s: State, steps: seq<Step>, cfg: V.Config)
    decreases steps
  {
    steps == [] || (Snowflakes(s, steps[0], cfg) && CanRun(Next(s, steps[0], cfg), steps[1..], cfg))
  }

  ghost function Run(s: State, steps: seq<Step>, cfg: V.Config): State
    decreases steps
  {
    if steps == [] then s else Run(Next(s, steps[0], cfg), steps[1..], cfg)
  }

  // ---- Hidden from @everyone ----

  predicate Denies(acl: ACL, everyone: Id) {
    everyone in acl && acl[everyone].kind.RoleTarget? && ViewChannel in acl[everyone].deny
  }

  /** Every channel that hid from @everyone still does. */
  ghost predicate DenyKept(c: D.Channels, c': D.Channels, everyone: Id) {
    forall ch | ch in c :: ch in c' && (Denies(c[ch], everyone) ==> Denies(c'[ch], everyone))
  }

  ghost predicate AllHidden(s: State, everyone: Id) {
    forall ch | ch in s.made :: ch in s.w.channels && Denies(s.w.channels[ch], everyone)
  }

  predicate NoUserIsEveryone(w: World, everyone: Id) {
    forall u | u in w.users :: w.users[u].discord != Some(everyone)
  }

  /** What Postgres' constraints and the snowflakes guarantee at any time. */
  ghost predicate WellFormed(s: State, cfg: V.Config) {
    && Unique(s.w)
    && cfg.agentRole != cfg.everyone
    && s.made <= s.w.channels.Keys
    && NoUserIsEveryone(s.w, cfg.everyone)
    && (forall sp | sp in s.w.spaces :: s.w.spaces[sp].channel.Some? ==> s.w.spaces[sp].channel.value in s.made)
    && OwnChannels(s.w.spaces)
  }

  lemma OnePlayed(c: D.Channels, op: V.Op, cfg: V.Config)
    requires cfg.agentRole != cfg.everyone
    ensures DenyKept(c, V.Played(c, op, cfg), cfg.everyone)
  {
  }

  lemma {:induction false} AllPlayed(c: D.Channels, ops: seq<V.Op>, cfg: V.Config)
    requires cfg.agentRole != cfg.everyone
    ensures DenyKept(c, V.PlayedAll(c, ops, cfg), cfg.everyone)
    ensures forall ch | ch in MadeBy(ops) ::
      ch in V.PlayedAll(c, ops, cfg) && Denies(V.PlayedAll(c, ops, cfg)[ch], cfg.everyone)
    decreases ops
  {
    if ops != [] {
      var c1 := V.Played(c, ops[0], cfg);
      OnePlayed(c, ops[0], cfg);
      AllPlayed(c1, ops[1..], cfg);
      forall ch | ch in MadeBy(ops) && ch !in MadeBy(ops[1..])
        ensures ch in c1 && Denies(c1[ch], cfg.everyone)
      {
      }
    }
  }

  lemma RepairKeepsDeny(acl: ACL, desired: set<Id>, f: C.Faults, everyone: Id)
    requires everyone !in desired && Denies(acl, everyone)
    ensures Denies(C.Repaired(acl, desired, f), everyone)
  {
  }

  lemma PassKeepsDeny(w: World, space: Id, f: C.Faults, everyone: Id)
    requires NoUserIsEveryone(w, everyone)
    ensures DenyKept(w.channels, C.Pass(w, space, f).0.channels, everyone)
  {
    if C.Stops(w, space, f) == None {
      var channel := w.spaces[space].channel.value;
      if Denies(w.channels[channel], everyone) {
        RepairKeepsDeny(w.channels[channel], Desired(w, space), f, everyone);
      }
    }
  }

  /** A reopen or open whose Discord call lands. */
  predicate Lifts(w: World, step: Step) {
    && step.Lifecycle? && (step.action == "reopen" || step.action == "open")
    && L.Stops(w, step.space, step.action, step.change).None?
    && w.spaces[step.space].channel.Some?
    && step.change.discord.Effective()
  }

  lemma InviteKeepsDeny(w: World, space: Id, user: Id, f: M.InviteFaults, everyone: Id)
    requires NoUserIsEveryone(w, everyone)
    ensures DenyKept(w.channels, M.Invite(w, space, user, f).0.channels, everyone)
  {
  }

  lemma ExpelKeepsDeny(w: World, space: Id, user: Id, f: M.ExpelFaults, everyone: Id)
    requires NoUserIsEveryone(w, everyone)
    ensures DenyKept(w.channels, M.Expel(w, space, user, f).0.channels, everyone)
  {
  }

  lemma ChangeKeepsDeny(w: World, step: Step, everyone: Id)
    requires step.Lifecycle? && !Lifts(w, step)
    ensures DenyKept(w.channels, L.Change(w, step.space, step.action, everyone, step.change).0.channels, everyone)
  {
  }

  lemma StepKeepsDeny(s: State, step: Step, cfg: V.Config)
    requires WellFormed(s, cfg) && !Lifts(s.w, step)
    ensures DenyKept(s.w.channels, WorldAfter(s.w, step, cfg).channels, cfg.everyone)
  {
    match step
    case Provision(_, _, _) => AllPlayed(s.w.channels, OpsOf(s.w, step, cfg), cfg);
    case Invite(space, user, f) => InviteKeepsDeny(s.w, space, user, f, cfg.everyone);
    case Expel(space, user, f) => ExpelKeepsDeny(s.w, space, user, f, cfg.everyone);
    case Reconcile(space, f) => PassKeepsDeny(s.w, space, f, cfg.everyone);
    case Lifecycle(_, _, _) => ChangeKeepsDeny(s.w, step, cfg.everyone);
    case _ => assert WorldAfter(s.w, step, cfg).channels == s.w.channels;
  }

  /** The one kind of step after which some channel the hub made is open to @everyone is a reopen
      or open that reaches Discord: UnarchiveChannel deletes the creation-time deny with the archive's. */
  lemma HiddenUnlessLifted(s: State, step: Step, cfg: V.Config)
    requires WellFormed(s, cfg) && AllHidden(s, cfg.everyone)
    ensures AllHidden(Next(s, step, cfg), cfg.everyone) <==> !Lifts(s.w, step)
  {
    if Lifts(s.w, step) {
      var channel := s.w.spaces[step.space].channel.value;
      assert channel in s.made;
      assert cfg.everyone !in WorldAfter(s.w, step, cfg).channels[channel];
    } else {
      StepKeepsDeny(s, step, cfg);
      if step.Provision? {
        AllPlayed(s.w.channels, OpsOf(s.w, step, cfg), cfg);
      }
    }
  }

  // ---- What every step keeps ----

  /** A provision run that records a channel has just made it. */
  lemma RecordedIsMade(spaces: map<Id, Space>, p: V.Payload, cfg: V.Config, env: V.Env, re: V.Replies)
    ensures var e := V.Run(spaces, p, cfg, env, re);
      e.write.SetChannel? ==> e.write.channel in MadeBy(e.ops)
  {
    var e := V.Run(spaces, p, cfg, env, re);
    if e.write.SetChannel? {
      var rest := e.ops[1..][1..];
      assert rest[0] == V.CallCreate(env.createAt, V.Created(e.write.channel));
      assert MadeBy(e.ops) >= MadeBy(e.ops[1..]) >= MadeBy(rest);
    }
  }

  ghost predicate Recorded(spaces: map<Id, Space>, made: set<Id>) {
    forall sp | sp in spaces :: spaces[sp].channel.Some? ==> spaces[sp].channel.value in made
  }

  /** A row changes its channel only to one that was in nobody's hands. */
  lemma ProvisionKeepsChannels(spaces: map<Id, Space>, made: set<Id>, p: V.Payload, cfg: V.Config,
                               env: V.Env, re: V.Replies)
    requires OwnChannels(spaces) && Recorded(spaces, made)
    requires MadeBy(V.Run(spaces, p, cfg, env, re).ops) !! made
    ensures var after := V.SpacesAfter(spaces, p, cfg, env, re);
      OwnChannels(after) && Recorded(after, made + MadeBy(V.Run(spaces, p, cfg, env, re).ops))
  {
    RecordedIsMade(spaces, p, cfg, env, re);
    var e := V.Run(spaces, p, cfg, env, re);
    var after := V.SpacesAfter(spaces, p, cfg, env, re);
    forall sp | sp in after
      ensures sp in spaces
      ensures || after[sp].channel == spaces[sp].channel
              || (sp == p.space && after[sp].channel.Some? && after[sp].channel.value in MadeBy(e.ops))
    {
    }
  }

  lemma StepKeepsChannels(s: State, step: Step, cfg: V.Config)
    requires OwnChannels(s.w.spaces) && Recorded(s.w.spaces, s.made) && s.made <= s.w.channels.Keys
    requires Snowflakes(s, step, cfg)
    ensures OwnChannels(Next(s, step, cfg).w.spaces) && Recorded(Next(s, step, cfg).w.spaces, Next(s, step, cfg).made)
  {
    if step.Provision? {
      ProvisionKeepsChannels(s.w.spaces, s.made, step.p, cfg, step.env, step.re);
    } else if step.Lifecycle? {
      ChangeKeepsChannels(s.w, step.space, step.action, cfg.everyone, step.change);
    }
  }

  lemma ChangeKeepsChannels(w: World, space: Id, action: string, everyone: Id, f: L.Faults)
    ensures var after := L.Change(w, space, action, everyone, f).0.spaces;
      after.Keys == w.spaces.Keys && forall sp | sp in after :: after[sp].channel == w.spaces[sp].channel
  {
  }

  /** The same rows, of which none was given back. */
  ghost predicate RowsStand(before: map<Id, Member>, after: map<Id, Member>) {
    forall r | r in before ::
      r in after && after[r].space == before[r].space && after[r].user == before[r].user
      && (before[r].revoked ==> after[r].revoked)
  }

  /** Flags may change and rows be revoked; nothing else. */
  ghost predicate OnlyFlags(w: World, after: World) {
    RowsStand(w.members, after.members) && after.members.Keys == w.members.Keys && after.users == w.users
  }

  lemma FlagsKeepUnique(w: World, after: World)
    requires Unique(w) && OnlyFlags(w, after)
    ensures Unique(after)
  {
    assert forall r, q :: SameSeat(after, r, q) ==> SameSeat(w, r, q);
    assert forall u, v :: SameAccount(after, u, v) ==> SameAccount(w, u, v);
  }

  lemma PassKeepsRows(w: World, space: Id, f: C.Faults)
    ensures OnlyFlags(w, C.Pass(w, space, f).0)
  {
    if C.Stops(w, space, f) == None {
      CarriedKeepsRows(w, C.PlanOf(w, space, f));
    }
  }

  lemma CarriedKeepsRows(w: World, plan: C.Plan)
    ensures OnlyFlags(w, C.Carried(w, plan))
  {
  }

  lemma ExpelKeepsRows(w: World, space: Id, user: Id, f: M.ExpelFaults)
    ensures OnlyFlags(w, M.Expel(w, space, user, f).0)
  {
  }

  lemma InviteKeepsRows(w: World, space: Id, user: Id, f: M.InviteFaults)
    ensures OnlyFlags(w, M.Invite(w, space, user, f).0)
  {
  }

  lemma InsertMemberKeepsRows(w: World, row: Id, space: Id, user: Id)
    requires Unique(w)
    ensures var after := w.(members := InsertMember(w.members, row, space, user));
      RowsStand(w.members, after.members) && Unique(after)
  {
    var after := w.(members := InsertMember(w.members, row, space, user));
    assert forall r, q :: SameSeat(after, r, q) && r != q ==> SameSeat(w, r, q);
    assert forall u, v :: SameAccount(after, u, v) ==> SameAccount(w, u, v);
  }

  lemma InsertUserKeepsUnique(w: World, user: Id, discord: Option<Id>)
    requires Unique(w)
    ensures Unique(w.(users := InsertUser(w.users, user, discord)))
  {
    var after := w.(users := InsertUser(w.users, user, discord));
    assert forall r, q :: SameSeat(after, r, q) ==> SameSeat(w, r, q);
    assert forall u, v :: SameAccount(after, u, v) && u != v ==> SameAccount(w, u, v);
  }

  lemma LinkUserKeepsUnique(w: World, user: Id, id: Id)
    requires Unique(w)
    ensures Unique(w.(users := LinkUser(w.users, user, id)))
  {
    var after := w.(users := LinkUser(w.users, user, id));
    assert forall r, q :: SameSeat(after, r, q) ==> SameSeat(w, r, q);
    assert forall u, v :: SameAccount(after, u, v) && u != v ==> SameAccount(w, u, v);
  }

  predicate TouchesRows(step: Step) {
    !step.Provision? && !step.Lifecycle? && !step.CreateSpace?
  }

  lemma OthersKeepRows(w: World, step: Step, cfg: V.Config)
    requires !TouchesRows(step)
    ensures OnlyFlags(w, WorldAfter(w, step, cfg))
  {
  }

  lemma StepKeepsRows(w: World, step: Step, cfg: V.Config)
    requires Unique(w)
    ensures RowsStand(w.members, WorldAfter(w, step, cfg).members)
    ensures Unique(WorldAfter(w, step, cfg))
  {
    if !TouchesRows(step) {
      OthersKeepRows(w, step, cfg);
      FlagsKeepUnique(w, WorldAfter(w, step, cfg));
    } else {
      RowStepKeepsRows(w, step, cfg);
    }
  }

  lemma RowStepKeepsRows(w: World, step: Step, cfg: V.Config)
    requires Unique(w) && TouchesRows(step)
    ensures RowsStand(w.members, WorldAfter(w, step, cfg).members)
    ensures Unique(WorldAfter(w, step, cfg))
  {
    var after := WorldAfter(w, step, cfg);
    match step
    case Invite(space, user, f) => InviteKeepsRows(w, space, user, f); FlagsKeepUnique(w, after);
    case Expel(space, user, f) => ExpelKeepsRows(w, space, user, f); FlagsKeepUnique(w, after);
    case Reconcile(space, f) => PassKeepsRows(w, space, f); FlagsKeepUnique(w, after);
    case CreateSpaceMember(row, space, user) => InsertMemberKeepsRows(w, row, space, user);
    case CreateUser(user, discord) => InsertUserKeepsUnique(w, user, discord);
    case UpdateDiscordUserID(user, id) => LinkUserKeepsUnique(w, user, id);
  }

  lemma StepKeepsUsers(s: State, step: Step, cfg: V.Config)
    requires WellFormed(s, cfg) && Snowflakes(s, step, cfg)
    ensures NoUserIsEveryone(WorldAfter(s.w, step, cfg), cfg.everyone)
  {
  }

  lemma StepKeepsWellFormed(s: State, step: Step, cfg: V.Config)
    requires WellFormed(s, cfg) && Snowflakes(s, step, cfg)
    ensures WellFormed(Next(s, step, cfg), cfg)
  {
    StepKeepsRows(s.w, step, cfg);
    StepKeepsUsers(s, step, cfg);
    StepKeepsChannels(s, step, cfg);
    StepKeepsMade(s, step, cfg);
  }

  lemma StepKeepsMade(s: State, step: Step, cfg: V.Config)
    requires WellFormed(s, cfg)
    ensures Next(s, step, cfg).made <= Next(s, step, cfg).w.channels.Keys
  {
    if Lifts(s.w, step) {
      assert WorldAfter(s.w, step, cfg).channels.Keys == s.w.channels.Keys;
    } else {
      StepKeepsDeny(s, step, cfg);
      AllPlayed(s.w.channels, OpsOf(s.w, step, cfg), cfg);
    }
  }

  ghost predicate NeverLifts(s: State, steps: seq<Step>, cfg: V.Config)
    decreases steps
  {
    steps == [] || (!Lifts(s.w, steps[0]) && NeverLifts(Next(s, steps[0], cfg), steps[1..], cfg))
  }

  /** In every state that provision, invite, expel, reconcile, archive, resolve and API steps can
      reach, in any order and with any failures, every channel the hub ever made hides from
      @everyone, and no two spaces share a channel. */
  lemma {:induction false} EveryChannelStaysHidden(s: State, steps: seq<Step>, cfg: V.Config)
    requires WellFormed(s, cfg) && AllHidden(s, cfg.everyone)
    requires CanRun(s, steps, cfg) && NeverLifts(s, steps, cfg)
    ensures AllHidden(Run(s, steps, cfg), cfg.everyone)
    ensures WellFormed(Run(s, steps, cfg), cfg)
    decreases steps
  {
    if steps != [] {
      StepKeepsWellFormed(s, steps[0], cfg);
      HiddenUnlessLifted(s, steps[0], cfg);
      EveryChannelStaysHidden(Next(s, steps[0], cfg), steps[1..], cfg);
    }
  }

  const NOTHING := State(World(map[], map[], map[], map[]), {})

  const CREATED := CreateSpace("s", "m")

  function Provisions(channel: Id): Step {
    var a := FailClosed.Smooth(channel);
    Provision(a.p, a.env, a.re)
  }

  function Acts(action: string): Step {
    Lifecycle("s", action, L.Faults(Done, false, Done, Done, Done, Done))
  }

  lemma FirstSteps(cfg: V.Config)
    ensures var s1 := Next(NOTHING, CREATED, cfg);
      && Snowflakes(s1, Provisions("c"), cfg)
      && Next(s1, Provisions("c"), cfg).w.spaces == map["s" := Space("m", Some("c"), Some("cat"), Applied, Active)]
  {
    var s1 := Next(NOTHING, CREATED, cfg);
    assert s1.w.spaces == map["s" := Space("m", None, None, Pending, Active)];
  }

  lemma OneStep(s: State, step: Step, steps: seq<Step>, cfg: V.Config)
    requires Snowflakes(s, step, cfg) && !Lifts(s.w, step)
    requires CanRun(Next(s, step, cfg), steps, cfg) && NeverLifts(Next(s, step, cfg), steps, cfg)
    ensures CanRun(s, [step] + steps, cfg) && NeverLifts(s, [step] + steps, cfg)
    ensures Run(s, [step] + steps, cfg) == Run(Next(s, step, cfg), steps, cfg)
  {
    var all := [step] + steps;
    assert all[0] == step && all[1..] == steps;
  }

  /** The lifted deny happens where nothing fails: a space is provisioned, archived and reopened, and
      its channel hides from @everyone up to the reopen and no longer. */
  lemma ReopenedIsOpen(cfg: V.Config)
    requires cfg.agentRole != cfg.everyone
    ensures var before := [CREATED, Provisions("c"), Acts("archive")];
      && WellFormed(NOTHING, cfg) && CanRun(NOTHING, before, cfg)
      && AllHidden(Run(NOTHING, before, cfg), cfg.everyone)
      && !AllHidden(Next(Run(NOTHING, before, cfg), Acts("reopen"), cfg), cfg.everyone)
  {
    var before := [CREATED, Provisions("c"), Acts("archive")];
    var s1 := Next(NOTHING, CREATED, cfg);
    var s2 := Next(s1, Provisions("c"), cfg);
    FirstSteps(cfg);
    OneStep(s2, Acts("archive"), [], cfg);
    OneStep(s1, Provisions("c"), [Acts("archive")], cfg);
    OneStep(NOTHING, CREATED, [Provisions("c"), Acts("archive")], cfg);
    assert before == [CREATED] + [Provisions("c"), Acts("archive")];
    assert [Provisions("c"), Acts("archive")] == [Provisions("c")] + [Acts("archive")];
    assert [Acts("archive")] == [Acts("archive")] + [];
    EveryChannelStaysHidden(NOTHING, before, cfg);
    ChannelStays(s2, cfg);
    HiddenUnlessLifted(Run(NOTHING, before, cfg), Acts("reopen"), cfg);
  }

  lemma ChannelStays(s: State, cfg: V.Config)
    requires "s" in s.w.spaces && s.w.spaces["s"].channel == Some("c")
    ensures Lifts(Run(s, [Acts("archive")], cfg).w, Acts("reopen"))
  {
    ChangeKeepsChannels(s.w, "s", "archive", cfg.everyone, Acts("archive").change);
    var steps := [Acts("archive")];
    assert steps[1..] == [];
  }

  /** A revoked row stays revoked whatever happens, lifecycle steps included. */
  lemma {:induction false} RevokedForGood(s: State, steps: seq<Step>, cfg: V.Config)
    requires WellFormed(s, cfg) && CanRun(s, steps, cfg)
    ensures WellFormed(Run(s, steps, cfg), cfg)
    ensures RowsStand(s.w.members, Run(s, steps, cfg).w.members)
    decreases steps
  {
    if steps != [] {
      StepKeepsRows(s.w, steps[0], cfg);
      StepKeepsWellFormed(s, steps[0], cfg);
      RevokedForGood(Next(s, steps[0], cfg), steps[1..], cfg);
    }
  }

  // ---- Expulsion ----

  /** When expel reports success for a member that has a row, that row is revoked, whatever
      became of the Discord calls. */
  lemma ExpelRevokes(w: World, space: Id, user: Id, row: Id, f: M.ExpelFaults)
    requires Unique(w) && M.IsRow(w, space, user, row)
    requires M.Expel(w, space, user, f).1.Success?
    ensures row in M.Expel(w, space, user, f).0.members && M.Expel(w, space, user, f).0.members[row].revoked
  {
    M.RowOfIs(w, space, user, row);
  }

  /** Expelled, then anything at all, then one fault-free pass of the space, unless its rows are all of
      users without a Discord identity: Discord shows no overwrite for the account the user holds by then. */
  lemma ExpulsionSticks(s: State, space: Id, user: Id, row: Id, f: M.ExpelFaults, steps: seq<Step>, g: C.Faults,
                        cfg: V.Config)
    requires WellFormed(s, cfg) && M.IsRow(s.w, space, user, row)
    requires M.Expel(s.w, space, user, f).1.Success?
    requires CanRun(Next(s, Expel(space, user, f), cfg), steps, cfg)
    requires var w := Run(Next(s, Expel(space, user, f), cfg), steps, cfg).w;
      Convergence.Provisioned(w, space) && Convergence.FaultFree(g)
      && !Convergence.Unresolvable(w, space, Convergence.AclOf(w, space))
      && user in w.users && w.users[user].discord.Some?
    ensures var w := Run(Next(s, Expel(space, user, f), cfg), steps, cfg).w;
      var after := C.Pass(w, space, g).0;
      Convergence.Provisioned(after, space)
      && w.users[user].discord.value !in MemberIds(Convergence.AclOf(after, space))
  {
    var s1 := Next(s, Expel(space, user, f), cfg);
    ExpelRevokes(s.w, space, user, row, f);
    StepKeepsRows(s.w, Expel(space, user, f), cfg);
    StepKeepsWellFormed(s, Expel(space, user, f), cfg);
    RevokedForGood(s1, steps, cfg);
    var w := Run(s1, steps, cfg).w;
    Convergence.BreakerIff(w, space, Convergence.AclOf(w, space));
    Convergence.FaultFreePassAgreesIff(w, space, g);
    RevokedIsUndesired(w, space, user, row);
  }

  /** With the row of (space, user) revoked, nothing in Postgres asks for the user's account there. */
  lemma RevokedIsUndesired(w: World, space: Id, user: Id, row: Id)
    requires Unique(w) && M.IsRow(w, space, user, row) && w.members[row].revoked
    requires user in w.users && w.users[user].discord.Some?
    ensures w.users[user].discord.value !in Desired(w, space)
  {
    forall other | Backs(w, space, other)
      ensures DiscordOf(w, other) != w.users[user].discord.value
    {
      assert SameAccount(w, w.members[other].user, user) ==> SameSeat(w, row, other);
    }
  }

  /** Nothing stops an invite run before its Discord call. It reads the row's overwrite_applied, never its revoked_at. */
  predicate InviteGoesAhead(w: World, space: Id, user: Id, row: Id, f: M.InviteFaults)
    requires row in w.members && user in w.users
  {
    && space != "" && user != "" && f.lock.Free? && !f.spaceFails && !f.userFails && !f.rowFails
    && !w.members[row].overwriteApplied
    && w.users[user].discord.Some? && w.users[user].discord.value != ""
  }

  /** An invite that was still under way gives a revoked member access again exactly when it runs
      before the row is marked applied and its Discord call lands; only reconcile takes it back. */
  lemma InviteRegrantsIff(w: World, space: Id, user: Id, row: Id, f: M.InviteFaults)
    requires Unique(w) && M.IsRow(w, space, user, row) && w.members[row].revoked
    requires Convergence.Provisioned(w, space) && user in w.users && w.users[user].discord.Some?
    requires w.users[user].discord.value !in MemberIds(Convergence.AclOf(w, space))
    ensures var after := M.Invite(w, space, user, f).0;
      Convergence.Provisioned(after, space)
      && (w.users[user].discord.value in MemberIds(Convergence.AclOf(after, space))
          <==> InviteGoesAhead(w, space, user, row, f) && f.set_.Effective())
  {
    M.RowOfIs(w, space, user, row);
  }
}
