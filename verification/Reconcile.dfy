/** The reconcile engine of internal/reconcile: Postgres always wins. */
module Reconcile {
  import opened Wrappers
  import opened Domain
  import P = Postgres
  import D = Discord

  /** How every call of one pass comes out. Calls repeated over a set carry one outcome per element. */
  datatype Faults = Faults(
    lock: LockAnswer,
    spaceFails: bool,
    membersFail: bool,
    userFails: Id -> bool,        // by space_members row
    overwritesFail: bool,
    revoke: Id -> Outcome,        // by Discord user id
    reapply: Id -> Outcome,       // by Discord user id
    mark: Id -> Outcome,          // by space_members row
    audit: Id -> Outcome)         // by Discord user id

  datatype Report =
    | LockError | SpaceError | MembersError | UserError | OverwritesError | BreakerTripped
    | LockBusy | NotProvisioned
    | Swept(found: nat, repaired: nat)
  {
    predicate Errored() {
      !LockBusy? && !NotProvisioned? && !Swept?
    }
  }

  // ---- Outcomes over a set of calls ----

  /** The calls that took effect. */
  function Landed(ids: set<Id>, o: Id -> Outcome): set<Id> {
    set id | id in ids && o(id).Effective()
  }

  /** The calls that came back without an error. */
  function Confirmed(ids: set<Id>, o: Id -> Outcome): set<Id> {
    set id | id in ids && o(id).Seen()
  }

  lemma OneMore(ids: set<Id>, id: Id, o: Id -> Outcome)
    requires id !in ids
    ensures |ids + {id}| == |ids| + 1
    ensures Landed(ids + {id}, o) == if o(id).Effective() then Landed(ids, o) + {id} else Landed(ids, o)
    ensures Confirmed(ids + {id}, o) == if o(id).Seen() then Confirmed(ids, o) + {id} else Confirmed(ids, o)
    ensures |Confirmed(ids + {id}, o)| == |Confirmed(ids, o)| + if o(id).Seen() then 1 else 0
  {
  }

  /** Walking `all` and skipping `skip`: what has been handled once `id` is done too. */
  lemma WalkStep(all: set<Id>, rest: set<Id>, skip: set<Id>, id: Id)
    requires rest <= all && id in rest
    ensures id in skip ==> (all - (rest - {id})) - skip == (all - rest) - skip
    ensures id !in skip ==> (all - (rest - {id})) - skip == ((all - rest) - skip) + {id}
    ensures id !in (all - rest) - skip
  {
  }

  lemma DropOneMore(c: D.Channels, channel: Id, ids: set<Id>, id: Id, o: Id -> Outcome)
    requires channel in c && id !in ids
    ensures var before := c[channel := c[channel] - Landed(ids, o)];
      (if o(id).Effective() then D.DeleteOverwrite(before, channel, id) else before)
      == c[channel := c[channel] - Landed(ids + {id}, o)]
  {
    OneMore(ids, id, o);
    assert c[channel] - Landed(ids, o) - {id} == c[channel] - (Landed(ids, o) + {id});
  }

  lemma GrantOneMore(c: D.Channels, channel: Id, ids: set<Id>, id: Id, o: Id -> Outcome)
    requires channel in c && id !in ids
    ensures var before := c[channel := c[channel] + Grants(Landed(ids, o))];
      (if o(id).Effective() then D.SetOverwrite(before, channel, id, COLLABORATOR) else before)
      == c[channel := c[channel] + Grants(Landed(ids + {id}, o))]
  {
    OneMore(ids, id, o);
    assert (c[channel] + Grants(Landed(ids, o)))[id := COLLABORATOR] == c[channel] + Grants(Landed(ids, o) + {id});
  }

  // ---- One pass, as a function of the state it starts from ----

  function Extra(acl: ACL, desired: set<Id>): set<Id> { MemberIds(acl) - desired }

  function Missing(acl: ACL, desired: set<Id>): set<Id> { desired - MemberIds(acl) }

  function Drift(acl: ACL, desired: set<Id>): set<Id> { Extra(acl, desired) + Missing(acl, desired) }

  function Grants(ids: set<Id>): ACL {
    map id | id in ids :: COLLABORATOR
  }

  /** The overwrites the two repair loops leave behind, in whatever order they ran. */
  function Repaired(acl: ACL, desired: set<Id>, f: Faults): ACL {
    (acl - Landed(Extra(acl, desired), f.revoke)) + Grants(Landed(Missing(acl, desired), f.reapply))
  }

  function Revoked(acl: ACL, desired: set<Id>, f: Faults): set<Id> {
    Confirmed(Extra(acl, desired), f.revoke)
  }

  function Reapplied(acl: ACL, desired: set<Id>, f: Faults): set<Id> {
    Confirmed(Missing(acl, desired), f.reapply)
  }

  const REVOKE_ACTION := "reconcile.repair:revoke_unbacked_overwrite"
  const REAPPLY_ACTION := "reconcile.repair:reapply_missing_overwrite"

  /** The audit rows of the repairs in `ids`, less those whose insert failed. */
  function Entries(action: string, space: Id, ids: set<Id>, f: Faults): multiset<AuditEntry> {
    multiset(Rows(action, space, Landed(ids, f.audit)))
  }

  function Rows(action: string, space: Id, ids: set<Id>): set<AuditEntry> {
    set id | id in ids :: AuditEntry(action, space, id)
  }

  function MarkAll(members: map<Id, Member>, rows: set<Id>): map<Id, Member> {
    map row | row in members :: if row in rows then members[row].(overwriteApplied := true) else members[row]
  }

  lemma NoEntries(action: string, space: Id, o: Id -> Outcome, f: Faults)
    ensures Confirmed({}, o) == {} && Entries(action, space, {}, f) == multiset{}
  {
  }

  lemma EntriesGrow(log: multiset<AuditEntry>, action: string, space: Id, ids: set<Id>, id: Id, o: Id -> Outcome, f: Faults)
    requires id !in ids
    ensures Logged(log + Entries(action, space, Confirmed(ids, o), f), action, space, id, o(id), f)
         == log + Entries(action, space, Confirmed(ids + {id}, o), f)
  {
  }

  /** The rows the second loop marks after re-applying `ids`. */
  function MarkedRows(ids: set<Id>, desired: map<Id, Id>, f: Faults): set<Id> {
    set id | id in ids && id in desired && f.mark(desired[id]).Effective() :: desired[id]
  }

  lemma MarkedRowsGrow(ids: set<Id>, id: Id, desired: map<Id, Id>, f: Faults, members: map<Id, Member>)
    requires id in desired && id !in ids
    ensures MarkAll(MarkAll(members, MarkedRows(Confirmed(ids, f.reapply), desired, f)),
                    if f.reapply(id).Seen() && f.mark(desired[id]).Effective() then {desired[id]} else {})
         == MarkAll(members, MarkedRows(Confirmed(ids + {id}, f.reapply), desired, f))
  {
  }

  /** Rows marked overwrite_applied by the second loop. */
  function Marked(w: World, space: Id, acl: ACL, f: Faults): set<Id> {
    set row | row in w.members && Backs(w, space, row)
              && DiscordOf(w, row) in Reapplied(acl, Desired(w, space), f) && f.mark(row).Effective()
  }

  /** Members exist, none resolves to a Discord id, and Discord still shows overwrites. */
  predicate Breaker(w: World, space: Id, acl: ACL) {
    ActiveRows(w, space) != {} && Desired(w, space) == {} && MemberIds(acl) != {}
  }

  /** Why a pass stops before touching anything; None when it reaches the repair loops. */
  function Stops(w: World, space: Id, f: Faults): Option<Report> {
    if f.lock.Broken? then Some(LockError)
    else if f.lock.Busy? then Some(LockBusy)
    else if f.spaceFails || space !in w.spaces then Some(SpaceError)
    else if w.spaces[space].channel.None? || w.spaces[space].acl != Applied then Some(NotProvisioned)
    else if f.membersFail then Some(MembersError)
    else if exists row :: row in ActiveRows(w, space) && f.userFails(row) then Some(UserError)
    else if f.overwritesFail || w.spaces[space].channel.value !in w.channels then Some(OverwritesError)
    else if Breaker(w, space, w.channels[w.spaces[space].channel.value]) then Some(BreakerTripped)
    else None
  }

  /** What the repair loops of a pass write. */
  datatype Plan = Plan(channel: Id, acl: ACL, marked: set<Id>)

  function PlanOf(w: World, space: Id, f: Faults): Plan
    requires Stops(w, space, f) == None
  {
    var channel := w.spaces[space].channel.value;
    Plan(channel, Repaired(w.channels[channel], Desired(w, space), f), Marked(w, space, w.channels[channel], f))
  }

  function Carried(w: World, p: Plan): World {
    w.(channels := w.channels[p.channel := p.acl], members := MarkAll(w.members, p.marked))
  }

  function Summary(acl: ACL, desired: set<Id>, f: Faults): Report {
    Swept(|Drift(acl, desired)|, |Revoked(acl, desired, f)| + |Reapplied(acl, desired, f)|)
  }

  function Pass(w: World, space: Id, f: Faults): (World, Report) {
    var stop := Stops(w, space, f);
    if stop.Some? then (w, stop.value)
    else (Carried(w, PlanOf(w, space, f)), Summary(w.channels[w.spaces[space].channel.value], Desired(w, space), f))
  }

  function RepairAudit(space: Id, acl: ACL, desired: set<Id>, f: Faults): multiset<AuditEntry> {
    Entries(REVOKE_ACTION, space, Revoked(acl, desired, f), f) + Entries(REAPPLY_ACTION, space, Reapplied(acl, desired, f), f)
  }

  /** The audit rows a pass adds. */
  function PassAudit(w: World, space: Id, f: Faults): multiset<AuditEntry> {
    if Stops(w, space, f).Some? then multiset{}
    else RepairAudit(space, w.channels[w.spaces[space].channel.value], Desired(w, space), f)
  }

  function Sweep(w: World, listed: seq<Id>, fs: Id -> Faults): (World, nat)
    decreases listed
  {
    if listed == [] then (w, 0)
    else
      var r := Pass(w, listed[0], fs(listed[0]));
      var rest := Sweep(r.0, listed[1..], fs);
      (rest.0, (if r.1.Errored() then 1 else 0) + rest.1)
  }

  /** The audit rows a sweep adds. */
  function SweepAudit(w: World, listed: seq<Id>, fs: Id -> Faults): multiset<AuditEntry>
    decreases listed
  {
    if listed == [] then multiset{}
    else PassAudit(w, listed[0], fs(listed[0])) + SweepAudit(Pass(w, listed[0], fs(listed[0])).0, listed[1..], fs)
  }

  // ---- The two loops, one call and many calls at a time ----

  function RevokeStep(w: World, channel: Id, id: Id, f: Faults): World {
    var o := f.revoke(id);
    w.(channels := if o.Effective() then D.DeleteOverwrite(w.channels, channel, id) else w.channels)
  }

  function RevokeAll(w: World, channel: Id, ids: set<Id>, f: Faults): World
    requires channel in w.channels
  {
    w.(channels := w.channels[channel := w.channels[channel] - Landed(ids, f.revoke)])
  }

  lemma RevokeNone(w: World, channel: Id, f: Faults)
    requires channel in w.channels
    ensures RevokeAll(w, channel, {}, f) == w
  {
    assert w.channels[channel] - Landed({}, f.revoke) == w.channels[channel];
  }

  lemma RevokeOneMore(w: World, channel: Id, ids: set<Id>, id: Id, f: Faults)
    requires channel in w.channels && id !in ids
    ensures RevokeStep(RevokeAll(w, channel, ids, f), channel, id, f)
         == RevokeAll(w, channel, ids + {id}, f)
  {
    DropOneMore(w.channels, channel, ids, id, f.revoke);
  }

  function ReapplyStep(w: World, channel: Id, id: Id, row: Id, f: Faults): World {
    var o := f.reapply(id);
    w.(channels := if o.Effective() then D.SetOverwrite(w.channels, channel, id, COLLABORATOR) else w.channels,
       members := MarkAll(w.members, if o.Seen() && f.mark(row).Effective() then {row} else {}))
  }

  function ReapplyAll(w: World, channel: Id, ids: set<Id>, desired: map<Id, Id>, f: Faults): World
    requires channel in w.channels
  {
    w.(channels := w.channels[channel := w.channels[channel] + Grants(Landed(ids, f.reapply))],
       members := MarkAll(w.members, MarkedRows(Confirmed(ids, f.reapply), desired, f)))
  }

  lemma ReapplyNone(w: World, channel: Id, desired: map<Id, Id>, f: Faults)
    requires channel in w.channels
    ensures ReapplyAll(w, channel, {}, desired, f) == w
  {
    assert w.channels[channel] + Grants(Landed({}, f.reapply)) == w.channels[channel];
    assert MarkAll(w.members, MarkedRows(Confirmed({}, f.reapply), desired, f)) == w.members;
  }

  lemma ReapplyOneMore(w: World, channel: Id, ids: set<Id>, id: Id, desired: map<Id, Id>, f: Faults)
    requires channel in w.channels && id !in ids && id in desired
    ensures ReapplyStep(ReapplyAll(w, channel, ids, desired, f), channel, id, desired[id], f)
         == ReapplyAll(w, channel, ids + {id}, desired, f)
  {
    GrantOneMore(w.channels, channel, ids, id, f.reapply);
    MarkedRowsGrow(ids, id, desired, f, w.members);
  }

  function Logged(log: multiset<AuditEntry>, action: string, space: Id, id: Id, o: Outcome, f: Faults): multiset<AuditEntry> {
    if o.Seen() && f.audit(id).Effective() then log + multiset{AuditEntry(action, space, id)} else log
  }

  /** All a repair loop keeps: the world, the audit log and its two counters. */
  datatype Tally = Tally(w: World, log: multiset<AuditEntry>, found: nat, repaired: nat)

  /** Where the first loop stands once the ids of `done` have been handled. */
  function Revoking(w: World, log: multiset<AuditEntry>, space: Id, channel: Id, done: set<Id>, f: Faults): Tally
    requires channel in w.channels
  {
    Tally(RevokeAll(w, channel, done, f), log + Entries(REVOKE_ACTION, space, Confirmed(done, f.revoke), f),
          |done|, |Confirmed(done, f.revoke)|)
  }

  lemma RevokingStarts(w: World, log: multiset<AuditEntry>, space: Id, channel: Id, f: Faults)
    requires channel in w.channels
    ensures Revoking(w, log, space, channel, {}, f) == Tally(w, log, 0, 0)
  {
    RevokeNone(w, channel, f);
    NoEntries(REVOKE_ACTION, space, f.revoke, f);
  }

  lemma RevokingGoesOn(w: World, log: multiset<AuditEntry>, space: Id, channel: Id, done: set<Id>, f: Faults, id: Id)
    requires channel in w.channels && id !in done
    ensures var t := Revoking(w, log, space, channel, done, f);
      Revoking(w, log, space, channel, done + {id}, f)
      == Tally(RevokeStep(t.w, channel, id, f), Logged(t.log, REVOKE_ACTION, space, id, f.revoke(id), f),
               t.found + 1, t.repaired + if f.revoke(id).Seen() then 1 else 0)
  {
    OneMore(done, id, f.revoke);
    RevokeOneMore(w, channel, done, id, f);
    EntriesGrow(log, REVOKE_ACTION, space, done, id, f.revoke, f);
  }

  /** Where the second loop stands once the ids of `done` have been handled. */
  function Reapplying(w: World, log: multiset<AuditEntry>, space: Id, channel: Id, done: set<Id>,
                      desired: map<Id, Id>, f: Faults): Tally
    requires channel in w.channels
  {
    Tally(ReapplyAll(w, channel, done, desired, f), log + Entries(REAPPLY_ACTION, space, Confirmed(done, f.reapply), f),
          |done|, |Confirmed(done, f.reapply)|)
  }

  lemma ReapplyingStarts(w: World, log: multiset<AuditEntry>, space: Id, channel: Id, desired: map<Id, Id>, f: Faults)
    requires channel in w.channels
    ensures Reapplying(w, log, space, channel, {}, desired, f) == Tally(w, log, 0, 0)
  {
    ReapplyNone(w, channel, desired, f);
    NoEntries(REAPPLY_ACTION, space, f.reapply, f);
  }

  lemma ReapplyingGoesOn(w: World, log: multiset<AuditEntry>, space: Id, channel: Id, done: set<Id>,
                         desired: map<Id, Id>, f: Faults, id: Id)
    requires channel in w.channels && id !in done && id in desired
    ensures var t := Reapplying(w, log, space, channel, done, desired, f);
      Reapplying(w, log, space, channel, done + {id}, desired, f)
      == Tally(ReapplyStep(t.w, channel, id, desired[id], f), Logged(t.log, REAPPLY_ACTION, space, id, f.reapply(id), f),
               t.found + 1, t.repaired + if f.reapply(id).Seen() then 1 else 0)
  {
    OneMore(done, id, f.reapply);
    ReapplyOneMore(w, channel, done, id, desired, f);
    EntriesGrow(log, REAPPLY_ACTION, space, done, id, f.reapply, f);
  }

  lemma LoopsMakeTheCounts(acl: ACL, shown: set<Id>, desired: set<Id>, f: Faults,
                           found1: nat, found2: nat, repaired1: nat, repaired2: nat)
    requires shown == MemberIds(acl)
    requires found1 == |shown - desired| && repaired1 == |Confirmed(shown - desired, f.revoke)|
    requires found2 == |desired - shown| && repaired2 == |Confirmed(desired - shown, f.reapply)|
    ensures found1 + found2 == Summary(acl, desired, f).found
    ensures repaired1 + repaired2 == Summary(acl, desired, f).repaired
  {
  }

  lemma LoopsMakeTheLog(w: World, log: multiset<AuditEntry>, space: Id, shown: set<Id>, desired: set<Id>, f: Faults)
    requires Stops(w, space, f) == None && desired == Desired(w, space)
    requires shown == MemberIds(w.channels[w.spaces[space].channel.value])
    ensures log + Entries(REVOKE_ACTION, space, Confirmed(shown - desired, f.revoke), f)
                + Entries(REAPPLY_ACTION, space, Confirmed(desired - shown, f.reapply), f)
         == log + PassAudit(w, space, f)
  {
  }

  /** Both loops run to their ends make exactly one pass. */
  lemma LoopsMakeThePass(w: World, space: Id, channel: Id, shown: set<Id>, desired: map<Id, Id>, f: Faults)
    requires Unique(w) && Stops(w, space, f) == None && channel == w.spaces[space].channel.value
    requires shown == MemberIds(w.channels[channel])
    requires desired.Keys == Desired(w, space)
    requires forall d :: d in desired ==> Backs(w, space, desired[d]) && DiscordOf(w, desired[d]) == d
    ensures var w1 := RevokeAll(w, channel, shown - desired.Keys, f);
      ReapplyAll(w1, channel, desired.Keys - shown, desired, f) == Carried(w, PlanOf(w, space, f))
  {
    var acl := w.channels[channel];
    MarksAreTheRows(w, space, acl, desired, f);
    assert w.channels[channel := acl - Landed(Extra(acl, desired.Keys), f.revoke)][channel := Repaired(acl, desired.Keys, f)]
        == w.channels[channel := Repaired(acl, desired.Keys, f)];
  }

  /** The rows the loop marks through its map are the rows that back the re-applied ids. */
  lemma MarksAreTheRows(w: World, space: Id, acl: ACL, desired: map<Id, Id>, f: Faults)
    requires Unique(w) && desired.Keys == Desired(w, space)
    requires forall d :: d in desired ==> Backs(w, space, desired[d]) && DiscordOf(w, desired[d]) == d
    ensures MarkedRows(Reapplied(acl, desired.Keys, f), desired, f) == Marked(w, space, acl, f)
  {
    forall row | Backs(w, space, row)
      ensures DiscordOf(w, row) in desired && desired[DiscordOf(w, row)] == row
    {
      assert DiscordOf(w, row) in Desired(w, space);
      var other := desired[DiscordOf(w, row)];
      assert SameAccount(w, w.members[row].user, w.members[other].user);
      assert SameSeat(w, row, other);
    }
  }

  // ---- The engine ----

  class Engine {
    const store: P.Store
    const discord: D.Session

    constructor (store: P.Store, discord: D.Session)
      ensures this.store == store && this.discord == discord
    {
      this.store, this.discord := store, discord;
    }

    ghost function Now(): World
      reads this, store, discord
    {
      World(store.spaces, store.members, store.users, discord.channels)
    }

    /** Step 3: discord id -> row, or None when a user could not be read. */
    method BuildDesired(spaceID: Id, f: Faults) returns (desired: Option<map<Id, Id>>)
      requires Unique(Now())
      ensures desired.None? <==> exists row :: row in ActiveRows(Now(), spaceID) && f.userFails(row)
      ensures desired.Some? ==>
        && desired.value.Keys == Desired(Now(), spaceID)
        && forall d :: d in desired.value ==> Backs(Now(), spaceID, desired.value[d])
                                              && DiscordOf(Now(), desired.value[d]) == d
    {
      ghost var w := Now();
      var byDiscord: map<Id, Id> := map[];
      var rest := set row | row in store.members && store.members[row].space == spaceID && !store.members[row].revoked;
      ghost var seen: set<Id> := {};
      while rest != {}
        invariant rest !! seen && rest + seen == ActiveRows(w, spaceID)
        invariant forall row :: row in seen ==> !f.userFails(row)
        invariant byDiscord.Keys == set row | row in seen && Backs(w, spaceID, row) :: DiscordOf(w, row)
        invariant forall d :: d in byDiscord ==> Backs(w, spaceID, byDiscord[d]) && DiscordOf(w, byDiscord[d]) == d
        decreases rest
      {
        var row :| row in rest;
        rest, seen := rest - {row}, seen + {row};
        if f.userFails(row) {
          assert row in ActiveRows(w, spaceID);
          return None;
        }
        var user := store.members[row].user;
        if user in store.users && store.users[user].discord.Some? {
          byDiscord := byDiscord[store.users[user].discord.value := row];
        }
      }
      desired := Some(byDiscord);
    }

    method RevokeOne(spaceID: Id, channelID: Id, id: Id, f: Faults) returns (ok: bool)
      requires channelID in discord.channels
      modifies discord`channels, store`audit
      ensures ok == f.revoke(id).Seen()
      ensures Now() == RevokeStep(old(Now()), channelID, id, f)
      ensures store.audit == Logged(old(store.audit), REVOKE_ACTION, spaceID, id, f.revoke(id), f)
    {
      ok := discord.DeleteCollaboratorOverwrite(channelID, id, f.revoke(id));
      if ok {
        store.InsertAuditEntry(AuditEntry(REVOKE_ACTION, spaceID, id), f.audit(id));
      }
    }

    /** One turn of the first loop, with its counters. */
    method RevokeNext(spaceID: Id, channelID: Id, id: Id, f: Faults, found0: nat, repaired0: nat,
                      ghost w: World, ghost log: multiset<AuditEntry>, ghost done: set<Id>)
      returns (found: nat, repaired: nat)
      requires channelID in w.channels && channelID in discord.channels && id !in done
      requires Tally(Now(), store.audit, found0, repaired0) == Revoking(w, log, spaceID, channelID, done, f)
      modifies discord`channels, store`audit
      ensures Tally(Now(), store.audit, found, repaired) == Revoking(w, log, spaceID, channelID, done + {id}, f)
      ensures channelID in discord.channels
    {
      RevokingGoesOn(w, log, spaceID, channelID, done, f, id);
      found, repaired := found0 + 1, repaired0;
      var ok := RevokeOne(spaceID, channelID, id, f);
      if ok {
        repaired := repaired + 1;
      }
    }

    /** Rule 1: in Discord, not in Postgres. */
    method RevokeUnbacked(spaceID: Id, channelID: Id, shown: set<Id>, desired: set<Id>, f: Faults)
      returns (found: nat, repaired: nat)
      requires channelID in discord.channels
      modifies discord`channels, store`audit
      ensures channelID in discord.channels && Now() == RevokeAll(old(Now()), channelID, shown - desired, f)
      ensures store.audit == old(store.audit) + Entries(REVOKE_ACTION, spaceID, Confirmed(shown - desired, f.revoke), f)
      ensures found == |shown - desired| && repaired == |Confirmed(shown - desired, f.revoke)|
    {
      found, repaired := 0, 0;
      var rest := shown;
      ghost var w, log := Now(), store.audit;
      ghost var done: set<Id> := {};
      RevokingStarts(w, log, spaceID, channelID, f);
      while rest != {}
        invariant rest <= shown && done == (shown - rest) - desired
        invariant channelID in discord.channels
        invariant Tally(Now(), store.audit, found, repaired) == Revoking(w, log, spaceID, channelID, done, f)
        decreases rest
      {
        var id :| id in rest;
        WalkStep(shown, rest, desired, id);
        rest := rest - {id};
        if id !in desired {
          found, repaired := RevokeNext(spaceID, channelID, id, f, found, repaired, w, log, done);
          done := done + {id};
        }
      }
      assert done == shown - desired;
    }

    method ReapplyOne(spaceID: Id, channelID: Id, id: Id, row: Id, f: Faults) returns (ok: bool)
      requires channelID in discord.channels
      modifies discord`channels, store`audit, store`members
      ensures ok == f.reapply(id).Seen()
      ensures Now() == ReapplyStep(old(Now()), channelID, id, row, f)
      ensures store.audit == Logged(old(store.audit), REAPPLY_ACTION, spaceID, id, f.reapply(id), f)
    {
      ok := discord.SetCollaboratorOverwrite(channelID, id, f.reapply(id));
      if ok {
        var _ := store.SetSpaceMemberOverwriteApplied(row, f.mark(row));
        store.InsertAuditEntry(AuditEntry(REAPPLY_ACTION, spaceID, id), f.audit(id));
      }
    }

    /** One turn of the second loop, with its counters. */
    method ReapplyNext(spaceID: Id, channelID: Id, id: Id, desired: map<Id, Id>, f: Faults, found0: nat, repaired0: nat,
                       ghost w: World, ghost log: multiset<AuditEntry>, ghost done: set<Id>)
      returns (found: nat, repaired: nat)
      requires channelID in w.channels && channelID in discord.channels && id in desired && id !in done
      requires Tally(Now(), store.audit, found0, repaired0) == Reapplying(w, log, spaceID, channelID, done, desired, f)
      modifies discord`channels, store`audit, store`members
      ensures Tally(Now(), store.audit, found, repaired) == Reapplying(w, log, spaceID, channelID, done + {id}, desired, f)
      ensures channelID in discord.channels
    {
      ReapplyingGoesOn(w, log, spaceID, channelID, done, desired, f, id);
      found, repaired := found0 + 1, repaired0;
      var ok := ReapplyOne(spaceID, channelID, id, desired[id], f);
      if ok {
        repaired := repaired + 1;
      }
    }

    /** Rule 2: in Postgres, not in Discord. */
    method ReapplyMissing(spaceID: Id, channelID: Id, shown: set<Id>, desired: map<Id, Id>, f: Faults)
      returns (found: nat, repaired: nat)
      requires channelID in discord.channels
      modifies discord`channels, store`audit, store`members
      ensures Now() == ReapplyAll(old(Now()), channelID, desired.Keys - shown, desired, f)
      ensures store.audit == old(store.audit) + Entries(REAPPLY_ACTION, spaceID, Confirmed(desired.Keys - shown, f.reapply), f)
      ensures found == |desired.Keys - shown| && repaired == |Confirmed(desired.Keys - shown, f.reapply)|
    {
      found, repaired := 0, 0;
      var ids := desired.Keys;
      var rest := ids;
      ghost var w, log := Now(), store.audit;
      ghost var done: set<Id> := {};
      ReapplyingStarts(w, log, spaceID, channelID, desired, f);
      while rest != {}
        invariant rest <= ids && done == (ids - rest) - shown
        invariant channelID in discord.channels
        invariant Tally(Now(), store.audit, found, repaired) == Reapplying(w, log, spaceID, channelID, done, desired, f)
        decreases rest
      {
        var id :| id in rest;
        WalkStep(ids, rest, shown, id);
        rest := rest - {id};
        if id !in shown {
          found, repaired := ReapplyNext(spaceID, channelID, id, desired, f, found, repaired, w, log, done);
          done := done + {id};
        }
      }
      assert done == ids - shown;
    }

    /** The reads of a pass, in order, up to the circuit breaker. */
    method Prepare(spaceID: Id, f: Faults) returns (stop: Option<Report>, channelID: Id, desired: map<Id, Id>)
      requires Unique(Now())
      ensures stop == Stops(Now(), spaceID, f)
      ensures stop.None? ==>
        && channelID == Now().spaces[spaceID].channel.value
        && desired.Keys == Desired(Now(), spaceID)
        && forall d :: d in desired ==> Backs(Now(), spaceID, desired[d]) && DiscordOf(Now(), desired[d]) == d
    {
      channelID, desired := "", map[];
      match f.lock {
        case Broken => return Some(LockError), channelID, desired;
        case Busy => return Some(LockBusy), channelID, desired;
        case Free =>
      }
      if f.spaceFails || spaceID !in store.spaces {
        return Some(SpaceError), channelID, desired;
      }
      var sp := store.spaces[spaceID];
      if sp.channel.None? || sp.acl != Applied {
        return Some(NotProvisioned), channelID, desired;
      }
      channelID := sp.channel.value;
      if f.membersFail {
        return Some(MembersError), channelID, desired;
      }
      var members := set row | row in store.members && store.members[row].space == spaceID && !store.members[row].revoked;
      assert members == ActiveRows(Now(), spaceID);
      var built := BuildDesired(spaceID, f);
      if built.None? {
        return Some(UserError), channelID, desired;
      }
      desired := built.value;
      if f.overwritesFail || channelID !in discord.channels {
        return Some(OverwritesError), channelID, desired;
      }
      var acl := discord.channels[channelID];
      var shown := set id | id in acl && acl[id].kind.MemberTarget?;
      assert shown == MemberIds(acl);
      if members != {} && desired.Keys == {} && shown != {} {
        return Some(BreakerTripped), channelID, desired;
      }
      stop := None;
    }

    /** The two repair loops of a pass nothing has stopped. */
    method Repair(spaceID: Id, channelID: Id, desired: map<Id, Id>, f: Faults, ghost w: World)
      returns (found: nat, repaired: nat)
      requires w == Now() && Unique(w) && Stops(w, spaceID, f) == None && channelID == w.spaces[spaceID].channel.value
      requires desired.Keys == Desired(w, spaceID)
      requires forall d :: d in desired ==> Backs(w, spaceID, desired[d]) && DiscordOf(w, desired[d]) == d
      modifies discord`channels, store`audit, store`members
      ensures Now() == Carried(w, PlanOf(w, spaceID, f))
      ensures store.audit == old(store.audit) + PassAudit(w, spaceID, f)
      ensures found == Summary(w.channels[channelID], Desired(w, spaceID), f).found
      ensures repaired == Summary(w.channels[channelID], Desired(w, spaceID), f).repaired
    {
      ghost var log := store.audit;
      var acl := discord.channels[channelID];
      var shown := set id | id in acl && acl[id].kind.MemberTarget?;
      assert shown == MemberIds(acl);
      var found1, repaired1 := RevokeUnbacked(spaceID, channelID, shown, desired.Keys, f);
      var found2, repaired2 := ReapplyMissing(spaceID, channelID, shown, desired, f);
      found, repaired := found1 + found2, repaired1 + repaired2;
      LoopsMakeThePass(w, spaceID, channelID, shown, desired, f);
      LoopsMakeTheLog(w, log, spaceID, shown, desired.Keys, f);
      LoopsMakeTheCounts(w.channels[channelID], shown, Desired(w, spaceID), f, found1, found2, repaired1, repaired2);
    }

    method ReconcileSpace(spaceID: Id, f: Faults) returns (report: Report)
      requires Unique(Now())
      modifies discord`channels, store`audit, store`members
      ensures Now() == Pass(old(Now()), spaceID, f).0
      ensures report == Pass(old(Now()), spaceID, f).1
      ensures store.audit == old(store.audit) + PassAudit(old(Now()), spaceID, f)
    {
      var stop, channelID, desired := Prepare(spaceID, f);
      if stop.Some? {
        return stop.value;
      }
      var found, repaired := Repair(spaceID, channelID, desired, f, Now());
      report := Swept(found, repaired);
    }

    /** One pass per listed space; an error is counted and the sweep goes on. */
    method ReconcileEach(listed: seq<Id>, fs: Id -> Faults) returns (errs: nat)
      requires Unique(Now())
      modifies discord`channels, store`audit, store`members
      ensures Now() == Sweep(old(Now()), listed, fs).0
      ensures errs == Sweep(old(Now()), listed, fs).1
      ensures store.audit == old(store.audit) + SweepAudit(old(Now()), listed, fs)
    {
      ghost var w := Now();
      errs := 0;
      for i := 0 to |listed|
        invariant Unique(Now())
        invariant Sweep(w, listed, fs).0 == Sweep(Now(), listed[i..], fs).0
        invariant Sweep(w, listed, fs).1 == errs + Sweep(Now(), listed[i..], fs).1
        invariant store.audit + SweepAudit(Now(), listed[i..], fs) == old(store.audit) + SweepAudit(w, listed, fs)
      {
        PassKeepsUnique(Now(), listed[i], fs(listed[i]));
        SweepHead(Now(), listed, i, fs);
        var report := ReconcileSpace(listed[i], fs(listed[i]));
        if report.Errored() {
          errs := errs + 1;
        }
      }
    }

    method ReconcileGuild(listFails: bool, fs: Id -> Faults) returns (ok: bool)
      requires Unique(Now())
      modifies discord`channels, store`audit, store`members
      ensures listFails ==> !ok && Now() == old(Now()) && store.audit == old(store.audit)
      ensures !listFails ==> exists listed ::
        IsListing(old(Now()), listed) && Now() == Sweep(old(Now()), listed, fs).0
        && (ok <==> Sweep(old(Now()), listed, fs).1 == 0)
        && store.audit == old(store.audit) + SweepAudit(old(Now()), listed, fs)
    {
      if listFails {
        return false;
      }
      var listed := ListActiveProvisionedSpaces();
      var errs := ReconcileEach(listed, fs);
      ok := errs == 0;
    }

    /** SELECT ... WHERE lifecycle_state = 'active' AND discord_channel_id IS NOT NULL, in any order. */
    method ListActiveProvisionedSpaces() returns (listed: seq<Id>)
      ensures IsListing(Now(), listed)
    {
      listed := [];
      var rest := set id | id in store.spaces && store.spaces[id].lifecycle.Active? && store.spaces[id].channel.Some?;
      ghost var all := rest;
      while rest != {}
        invariant rest <= all
        invariant forall id :: id in listed <==> id in all && id !in rest
        invariant forall i, j :: 0 <= i < j < |listed| ==> listed[i] != listed[j]
        decreases rest
      {
        var id :| id in rest;
        rest := rest - {id};
        listed := listed + [id];
      }
    }
  }

  /** Every active space with a channel, once each. */
  ghost predicate IsListing(w: World, listed: seq<Id>) {
    && (forall id :: id in listed <==> id in w.spaces && w.spaces[id].lifecycle.Active? && w.spaces[id].channel.Some?)
    && (forall i, j :: 0 <= i < j < |listed| ==> listed[i] != listed[j])
  }

  lemma SweepHead(w: World, listed: seq<Id>, i: nat, fs: Id -> Faults)
    requires i < |listed|
    ensures var r := Pass(w, listed[i], fs(listed[i]));
      && Sweep(w, listed[i..], fs).0 == Sweep(r.0, listed[i + 1..], fs).0
      && Sweep(w, listed[i..], fs).1 == (if r.1.Errored() then 1 else 0) + Sweep(r.0, listed[i + 1..], fs).1
      && SweepAudit(w, listed[i..], fs) == PassAudit(w, listed[i], fs(listed[i])) + SweepAudit(r.0, listed[i + 1..], fs)
  {
  }

  lemma CarriedKeepsUnique(w: World, p: Plan)
    requires Unique(w)
    ensures Unique(Carried(w, p))
  {
    var after := Carried(w, p);
    assert forall r, q :: SameSeat(after, r, q) ==> SameSeat(w, r, q);
    assert forall u, v :: SameAccount(after, u, v) ==> SameAccount(w, u, v);
  }

  lemma PassKeepsUnique(w: World, space: Id, f: Faults)
    requires Unique(w)
    ensures Unique(Pass(w, space, f).0)
  {
    if Stops(w, space, f) == None {
      CarriedKeepsUnique(w, PlanOf(w, space, f));
    }
  }
}
