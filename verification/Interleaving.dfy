/** The deny of @everyone call by call: any number of handlers whose Discord calls interleave. */
module Interleaving {
  import opened Wrappers
  import opened Domain
  import opened Access
  import C = Reconcile
  import D = Discord
  import L = LifecycleChange
  import M = Membership
  import V = Provision

  /** What a reconcile pass remembers of its channel: the members it found there. */
  datatype Reading = Reading(channel: Id, members: set<Id>)

  datatype System = System(channels: D.Channels, made: set<Id>, readings: map<nat, Reading>)

  /** One Discord call that takes effect, whoever makes it. */
  datatype Call =
    | Create(id: Id)                     // CreateChannelDenied
    | AllowAgents(category: Id)          // ApplyCategoryAgentAllow
    | Grant(channel: Id, user: Id)       // SetCollaboratorOverwrite, by an invite or a pass
    | Drop(channel: Id, user: Id)        // DeleteCollaboratorOverwrite, by an expulsion
    | Read(pass: nat, channel: Id)       // GetChannelOverwrites, by a pass
    | Revoke(pass: nat, id: Id)          // DeleteCollaboratorOverwrite, by a pass, of what it has read
    | Archive(channel: Id)               // ArchiveChannel
    | Lift(channel: Id)                  // UnarchiveChannel

  /** Snowflakes are fresh, and users' are not the @everyone role's; a pass revokes what it has read. */
  predicate Allowed(s: System, call: Call, cfg: V.Config) {
    match call
    case Create(id) => id !in s.channels
    case Grant(_, user) => user != cfg.everyone
    case Drop(_, user) => user != cfg.everyone
    case Read(_, channel) => channel in s.channels
    case Revoke(pass, id) => pass in s.readings && id in s.readings[pass].members
    case _ => true
  }

  function Land(c: D.Channels, call: Call, channel: Id, cfg: V.Config): D.Channels {
    match call
    case Create(id) => c[id := D.BornDenied(cfg.everyone)]
    case AllowAgents(category) => D.SetOverwrite(c, category, cfg.agentRole, D.AGENT_ALLOW)
    case Grant(_, user) => D.SetOverwrite(c, channel, user, COLLABORATOR)
    case Drop(_, user) => D.DeleteOverwrite(c, channel, user)
    case Read(_, _) => c
    case Revoke(_, id) => D.DeleteOverwrite(c, channel, id)
    case Archive(_) => D.SetOverwrite(c, channel, cfg.everyone, D.ARCHIVE_DENY)
    case Lift(_) => D.DeleteOverwrite(c, channel, cfg.everyone)
  }

  /** The channel a call is about. */
  function ChannelOf(s: System, call: Call): Id
    requires call.Revoke? ==> call.pass in s.readings
  {
    match call
    case Create(id) => id
    case AllowAgents(category) => category
    case Revoke(pass, _) => s.readings[pass].channel
    case _ => call.channel
  }

  function Next(s: System, call: Call, cfg: V.Config): System
    requires Allowed(s, call, cfg)
  {
    System(Land(s.channels, call, ChannelOf(s, call), cfg),
           if call.Create? then s.made + {call.id} else s.made,
           if call.Read? then s.readings[call.pass := Reading(call.channel, MemberIds(s.channels[call.channel]))]
           else s.readings)
  }

  predicate CanRun(s: System, calls: seq<Call>, cfg: V.Config)
    decreases calls
  {
    calls == [] || (Allowed(s, calls[0], cfg) && CanRun(Next(s, calls[0], cfg), calls[1..], cfg))
  }

  function Run(s: System, calls: seq<Call>, cfg: V.Config): System
    requires CanRun(s, calls, cfg)
    decreases calls
  {
    if calls == [] then s else Run(Next(s, calls[0], cfg), calls[1..], cfg)
  }

  /** Every channel the hub made denies @everyone, and no pass takes @everyone for a member of one. */
  ghost predicate Hidden(s: System, everyone: Id) {
    && (forall ch | ch in s.made :: ch in s.channels && Denies(s.channels[ch], everyone))
    && forall n | n in s.readings :: s.readings[n].channel in s.made ==> everyone !in s.readings[n].members
  }

  /** A call keeps that exactly when it does not lift the deny of a channel the hub made. */
  lemma CallKeepsHiddenIff(s: System, call: Call, cfg: V.Config)
    requires Hidden(s, cfg.everyone) && Allowed(s, call, cfg) && cfg.agentRole != cfg.everyone
    requires forall n | n in s.readings :: s.readings[n].channel in s.channels
    ensures Hidden(Next(s, call, cfg), cfg.everyone) <==> !(call.Lift? && call.channel in s.made)
    ensures forall n | n in Next(s, call, cfg).readings :: Next(s, call, cfg).readings[n].channel in Next(s, call, cfg).channels
  {
    var s' := Next(s, call, cfg);
    if call.Lift? && call.channel in s.made {
      assert cfg.everyone !in s'.channels[call.channel];
    } else {
      forall ch | ch in s'.made
        ensures ch in s'.channels && Denies(s'.channels[ch], cfg.everyone)
      {
      }
    }
  }

  /** However the calls of provision runs, invites, expulsions, reconcile passes and archivings
      interleave, and wherever any of them stops, every channel the hub ever made stays hidden. */
  lemma {:induction false} HiddenThroughout(s: System, calls: seq<Call>, cfg: V.Config)
    requires CanRun(s, calls, cfg) && Hidden(s, cfg.everyone) && cfg.agentRole != cfg.everyone
    requires forall n | n in s.readings :: s.readings[n].channel in s.channels
    requires forall i :: 0 <= i < |calls| ==> !calls[i].Lift?
    ensures Hidden(Run(s, calls, cfg), cfg.everyone)
    decreases calls
  {
    if calls != [] {
      CallKeepsHiddenIff(s, calls[0], cfg);
      HiddenThroughout(Next(s, calls[0], cfg), calls[1..], cfg);
    }
  }

  // ---- These are the calls the handlers make ----

  lemma ProvisionCalls(c: D.Channels, op: V.Op, cfg: V.Config)
    ensures V.Played(c, op, cfg) ==
      match op
      case CallCreate(_, Created(id)) => Land(c, Create(id), id, cfg)
      case CallCreate(_, CreateFailed(Some(id))) => Land(c, Create(id), id, cfg)
      case CallAllow(_, category, answer) =>
        if answer.AllowDone? || (answer.AllowFailed? && answer.landed) then Land(c, AllowAgents(category), category, cfg) else c
      case _ => c
  {
  }

  lemma PassCalls(w: World, channel: Id, id: Id, row: Id, pass: nat, f: C.Faults, cfg: V.Config)
    ensures C.RevokeStep(w, channel, id, f).channels
         == if f.revoke(id).Effective() then Land(w.channels, Revoke(pass, id), channel, cfg) else w.channels
    ensures C.ReapplyStep(w, channel, id, row, f).channels
         == if f.reapply(id).Effective() then Land(w.channels, Grant(channel, id), channel, cfg) else w.channels
  {
  }

  /** And they are allowed, wherever other calls have come in between: a pass revokes ids of its own
      reading and grants users' ids. */
  lemma PassCallsAllowed(s: System, w: World, space: Id, acl: ACL, pass: nat, id: Id, cfg: V.Config)
    requires pass in s.readings && MemberIds(acl) == s.readings[pass].members
    requires NoUserIsEveryone(w, cfg.everyone)
    ensures id in C.Extra(acl, Desired(w, space)) ==> Allowed(s, Revoke(pass, id), cfg)
    ensures id in C.Missing(acl, Desired(w, space)) ==> Allowed(s, Grant(s.readings[pass].channel, id), cfg)
  {
  }

  lemma MembershipCalls(s: System, w: World, space: Id, user: Id, expel: M.ExpelFaults, invite: M.InviteFaults,
                        cfg: V.Config)
    requires space in w.spaces && user in w.users
    requires w.spaces[space].channel.Some? && w.users[user].discord.Some?
    requires NoUserIsEveryone(w, cfg.everyone)
    ensures var channel, id := w.spaces[space].channel.value, w.users[user].discord.value;
      && M.Expel(w, space, user, expel).0.channels in {w.channels, Land(w.channels, Drop(channel, id), channel, cfg)}
      && M.Invite(w, space, user, invite).0.channels in {w.channels, Land(w.channels, Grant(channel, id), channel, cfg)}
      && Allowed(s, Drop(channel, id), cfg) && Allowed(s, Grant(channel, id), cfg)
  {
  }

  lemma LifecycleCalls(c: D.Channels, channel: Id, action: string, o: Outcome, cfg: V.Config)
    requires L.ActionToTargetState(action).Some?
    ensures L.Projected(c, channel, action, cfg.everyone, o).0 ==
      if action == "resolve" || !o.Effective() then c
      else Land(c, if action == "archive" then Archive(channel) else Lift(channel), channel, cfg)
  {
  }

  // ---- Every step, run alone, is a run of allowed calls ----

  predicate NoLift(calls: seq<Call>) {
    forall i :: 0 <= i < |calls| ==> !calls[i].Lift?
  }

  lemma {:induction false} RunsAppend(s: System, a: seq<Call>, b: seq<Call>, cfg: V.Config)
    requires CanRun(s, a, cfg) && CanRun(Run(s, a, cfg), b, cfg)
    ensures CanRun(s, a + b, cfg) && Run(s, a + b, cfg) == Run(Run(s, a, cfg), b, cfg)
    decreases a
  {
    if a == [] {
      assert a + b == b;
    } else {
      RunsAppend(Next(s, a[0], cfg), a[1..], b, cfg);
      assert (a + b)[0] == a[0] && (a + b)[1..] == a[1..] + b;
    }
  }

  lemma OneCall(s: System, call: Call, cfg: V.Config)
    requires Allowed(s, call, cfg)
    ensures CanRun(s, [call], cfg) && Run(s, [call], cfg) == Next(s, call, cfg)
  {
    assert [call][1..] == [];
  }

  /** A pass's first loop, in some order. */
  lemma {:induction false} RevokesRun(s: System, pass: nat, ids: set<Id>, cfg: V.Config) returns (calls: seq<Call>)
    requires pass in s.readings && ids <= s.readings[pass].members && s.readings[pass].channel in s.channels
    ensures CanRun(s, calls, cfg) && NoLift(calls)
    ensures var channel := s.readings[pass].channel;
      Run(s, calls, cfg) == s.(channels := s.channels[channel := s.channels[channel] - ids])
    decreases ids
  {
    var channel := s.readings[pass].channel;
    if ids == {} {
      calls := [];
      assert s.channels[channel] - ids == s.channels[channel];
    } else {
      var id :| id in ids;
      var first := RevokesRun(s, pass, ids - {id}, cfg);
      var s1 := Run(s, first, cfg);
      OneCall(s1, Revoke(pass, id), cfg);
      RunsAppend(s, first, [Revoke(pass, id)], cfg);
      calls := first + [Revoke(pass, id)];
      assert s1.channels[channel] - {id} == s.channels[channel] - ids;
    }
  }

  lemma OneMoreGrant(acl: ACL, ids: set<Id>, id: Id)
    requires id in ids
    ensures (acl + C.Grants(ids - {id}))[id := COLLABORATOR] == acl + C.Grants(ids)
  {
  }

  /** Its second loop, in some order. */
  lemma {:induction false} GrantsRun(s: System, channel: Id, ids: set<Id>, cfg: V.Config) returns (calls: seq<Call>)
    requires cfg.everyone !in ids && channel in s.channels
    ensures CanRun(s, calls, cfg) && NoLift(calls)
    ensures Run(s, calls, cfg) == s.(channels := s.channels[channel := s.channels[channel] + C.Grants(ids)])
    decreases ids
  {
    if ids == {} {
      calls := [];
      assert s.channels[channel] + C.Grants(ids) == s.channels[channel];
    } else {
      var id :| id in ids;
      var first := GrantsRun(s, channel, ids - {id}, cfg);
      var s1 := Run(s, first, cfg);
      OneCall(s1, Grant(channel, id), cfg);
      RunsAppend(s, first, [Grant(channel, id)], cfg);
      calls := first + [Grant(channel, id)];
      OneMoreGrant(s.channels[channel], ids, id);
    }
  }

  /** The loops after the reading, on a channel's overwrites. */
  lemma LoopsRun(s: System, channel: Id, drop: set<Id>, grant: set<Id>, pass: nat, cfg: V.Config) returns (calls: seq<Call>)
    requires channel in s.channels && drop <= MemberIds(s.channels[channel]) && cfg.everyone !in grant
    ensures CanRun(s, calls, cfg) && NoLift(calls)
    ensures Run(s, calls, cfg).channels == s.channels[channel := (s.channels[channel] - drop) + C.Grants(grant)]
    ensures Run(s, calls, cfg).made == s.made
  {
    var read := [Read(pass, channel)];
    OneCall(s, read[0], cfg);
    var s1 := Run(s, read, cfg);
    var revokes := RevokesRun(s1, pass, drop, cfg);
    var s2 := Run(s1, revokes, cfg);
    var grants := GrantsRun(s2, channel, grant, cfg);
    RunsAppend(s, read, revokes, cfg);
    RunsAppend(s, read + revokes, grants, cfg);
    calls := read + revokes + grants;
  }

  lemma PassRuns(s: System, w: World, space: Id, f: C.Faults, pass: nat, cfg: V.Config) returns (calls: seq<Call>)
    requires s.channels == w.channels && NoUserIsEveryone(w, cfg.everyone)
    ensures CanRun(s, calls, cfg) && NoLift(calls)
    ensures Run(s, calls, cfg).channels == C.Pass(w, space, f).0.channels && Run(s, calls, cfg).made == s.made
  {
    if C.Stops(w, space, f).Some? {
      calls := [];
    } else {
      var channel := w.spaces[space].channel.value;
      var acl, desired := w.channels[channel], Desired(w, space);
      calls := LoopsRun(s, channel, C.Landed(C.Extra(acl, desired), f.revoke),
                        C.Landed(C.Missing(acl, desired), f.reapply), pass, cfg);
    }
  }

  /** What an operation of a provision run does to Discord. */
  function CallsOf(op: V.Op): seq<Call> {
    match op
    case CallCreate(_, Created(id)) => [Create(id)]
    case CallCreate(_, CreateFailed(Some(id))) => [Create(id)]
    case CallAllow(_, category, answer) =>
      if answer.AllowDone? || (answer.AllowFailed? && answer.landed) then [AllowAgents(category)] else []
    case _ => []
  }

  lemma OpRuns(s: System, op: V.Op, cfg: V.Config)
    requires MadeBy([op]) !! s.channels.Keys
    ensures CanRun(s, CallsOf(op), cfg) && NoLift(CallsOf(op))
    ensures Run(s, CallsOf(op), cfg).channels == V.Played(s.channels, op, cfg)
    ensures Run(s, CallsOf(op), cfg).made == s.made + MadeBy([op])
  {
    assert [op][0] == op;
    if CallsOf(op) != [] {
      OneCall(s, CallsOf(op)[0], cfg);
    }
  }

  /** No channel is made twice. */
  predicate MadeOnce(ops: seq<V.Op>)
    decreases ops
  {
    ops == [] || (MadeBy([ops[0]]) !! MadeBy(ops[1..]) && MadeOnce(ops[1..]))
  }

  lemma {:induction false} OpsRun(s: System, ops: seq<V.Op>, cfg: V.Config) returns (calls: seq<Call>)
    requires MadeBy(ops) !! s.channels.Keys && MadeOnce(ops)
    ensures CanRun(s, calls, cfg) && NoLift(calls)
    ensures Run(s, calls, cfg).channels == V.PlayedAll(s.channels, ops, cfg)
    ensures Run(s, calls, cfg).made == s.made + MadeBy(ops)
    decreases ops
  {
    calls := [];
    if ops != [] {
      assert MadeBy(ops) == MadeBy([ops[0]]) + MadeBy(ops[1..]);
      OpRuns(s, ops[0], cfg);
      var first := CallsOf(ops[0]);
      var s1 := Run(s, first, cfg);
      assert s1.channels.Keys <= s.channels.Keys + MadeBy([ops[0]]);
      var rest := OpsRun(s1, ops[1..], cfg);
      RunsAppend(s, first, rest, cfg);
      calls := first + rest;
    }
  }

  lemma {:induction false} NoneMade(ops: seq<V.Op>)
    requires forall i :: 0 <= i < |ops| ==> !ops[i].CallCreate?
    ensures MadeBy(ops) == {} && MadeOnce(ops)
    decreases ops
  {
    if ops != [] {
      NoneMade(ops[1..]);
    }
  }

  lemma {:induction false} OneCreate(ops: seq<V.Op>, at: nat)
    requires forall i :: 0 <= i < |ops| && ops[i].CallCreate? ==> i == at
    ensures MadeOnce(ops)
    decreases ops
  {
    if ops != [] {
      if at == 0 {
        NoneMade(ops[1..]);
      } else {
        NoneMade([ops[0]]);
        OneCreate(ops[1..], at - 1);
      }
    }
  }

  /** A provision run creates at most one channel, in its third operation. */
  lemma ProvisionMakesOnce(spaces: map<Id, Space>, p: V.Payload, cfg: V.Config, env: V.Env, re: V.Replies)
    ensures MadeOnce(V.Run(spaces, p, cfg, env, re).ops)
  {
    var ops := V.Run(spaces, p, cfg, env, re).ops;
    assert forall i :: 0 <= i < |ops| && ops[i].CallCreate? ==> i == 2;
    OneCreate(ops, 2);
  }

  /** At most one call, as the effect says. */
  lemma OneOrNone(s: System, call: Call, landed: D.Channels, cfg: V.Config) returns (calls: seq<Call>)
    requires Allowed(s, call, cfg) && !call.Create?
    requires landed in {s.channels, Land(s.channels, call, ChannelOf(s, call), cfg)}
    ensures CanRun(s, calls, cfg) && Run(s, calls, cfg).channels == landed && Run(s, calls, cfg).made == s.made
    ensures calls == if landed == s.channels then [] else [call]
  {
    OneCall(s, call, cfg);
    calls := if landed == s.channels then [] else [call];
  }

  lemma MembershipRuns(s: System, w: World, step: Step, landed: D.Channels, cfg: V.Config) returns (calls: seq<Call>)
    requires s.channels == w.channels && NoUserIsEveryone(w, cfg.everyone)
    requires (step.Invite? && landed == M.Invite(w, step.space, step.user, step.invite).0.channels)
             || (step.Expel? && landed == M.Expel(w, step.space, step.user, step.expel).0.channels)
    ensures CanRun(s, calls, cfg) && NoLift(calls)
    ensures Run(s, calls, cfg).channels == landed && Run(s, calls, cfg).made == s.made
  {
    if step.space !in w.spaces || step.user !in w.users || w.spaces[step.space].channel.None?
       || w.users[step.user].discord.None? {
      calls := [];
    } else {
      var channel, id := w.spaces[step.space].channel.value, w.users[step.user].discord.value;
      calls := OneOrNone(s, if step.Invite? then Grant(channel, id) else Drop(channel, id), landed, cfg);
    }
  }

  lemma LifecycleRuns(s: System, w: World, step: Step, cfg: V.Config) returns (calls: seq<Call>)
    requires s.channels == w.channels && step.Lifecycle?
    ensures CanRun(s, calls, cfg)
    ensures (exists i :: 0 <= i < |calls| && calls[i].Lift?) <==> Lifts(w, step)
    ensures Run(s, calls, cfg).channels == L.Change(w, step.space, step.action, cfg.everyone, step.change).0.channels
    ensures Run(s, calls, cfg).made == s.made
  {
    calls := [];
    if L.Stops(w, step.space, step.action, step.change).None? && w.spaces[step.space].channel.Some?
       && step.action != "resolve" && step.change.discord.Effective() {
      var channel := w.spaces[step.space].channel.value;
      calls := [if step.action == "archive" then Archive(channel) else Lift(channel)];
      OneCall(s, calls[0], cfg);
      assert Lifts(w, step) ==> calls[0].Lift?;
    }
  }

  /** Every step of the system of whole handler runs is, with nothing in between, a run of allowed
      calls, and a Lift is among them exactly when the step lifts a deny. */
  lemma StepIsARun(s: State, sys: System, step: Step, pass: nat, cfg: V.Config) returns (calls: seq<Call>)
    requires WellFormed(s, cfg) && Snowflakes(s, step, cfg)
    requires sys.channels == s.w.channels && sys.made == s.made
    ensures CanRun(sys, calls, cfg)
    ensures Run(sys, calls, cfg).channels == Access.Next(s, step, cfg).w.channels
    ensures Run(sys, calls, cfg).made == Access.Next(s, step, cfg).made
    ensures (exists i :: 0 <= i < |calls| && calls[i].Lift?) <==> Lifts(s.w, step)
  {
    match step
    case Provision(p, env, re) =>
      ProvisionMakesOnce(s.w.spaces, p, cfg, env, re);
      calls := OpsRun(sys, OpsOf(s.w, step, cfg), cfg);
    case Invite(_, _, _) => calls := MembershipRuns(sys, s.w, step, WorldAfter(s.w, step, cfg).channels, cfg);
    case Expel(_, _, _) => calls := MembershipRuns(sys, s.w, step, WorldAfter(s.w, step, cfg).channels, cfg);
    case Reconcile(space, f) => calls := PassRuns(sys, s.w, space, f, pass, cfg);
    case Lifecycle(_, _, _) => calls := LifecycleRuns(sys, s.w, step, cfg);
    case _ => calls := [];
  }
}
