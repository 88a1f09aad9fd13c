/** What a reconcile pass, a run of passes and a guild sweep achieve, whatever calls fail. */
module Convergence {
  import opened Wrappers
  import opened Domain
  import opened Reconcile

  // ---- One pass ----

  function Rejections(ids: set<Id>, o: Id -> Outcome): set<Id> {
    set id | id in ids && o(id).Rejected?
  }

  function Losses(ids: set<Id>, o: Id -> Outcome): set<Id> {
    set id | id in ids && o(id).Lost?
  }

  /** What remains wrong is exactly what Discord refused to do. */
  lemma RepairLeavesTheRefusals(acl: ACL, desired: set<Id>, f: Faults)
    ensures Extra(Repaired(acl, desired, f), desired) == Rejections(Extra(acl, desired), f.revoke)
    ensures Missing(Repaired(acl, desired, f), desired) == Rejections(Missing(acl, desired), f.reapply)
  {
  }

  /** Role overwrites, and members Postgres and Discord agree on, come through bit for bit, and
      nothing appears that Postgres does not ask for. */
  lemma RepairTouchesOnlyDrift(acl: ACL, desired: set<Id>, f: Faults, id: Id)
    requires forall d :: d in desired && d in acl ==> acl[d].kind.MemberTarget?
    ensures id !in Drift(acl, desired) ==>
      var after := Repaired(acl, desired, f);
      (id in after <==> id in acl) && (id in acl ==> after[id] == acl[id])
  {
  }

  lemma SplitOutcomes(ids: set<Id>, o: Id -> Outcome)
    ensures |ids| == |Confirmed(ids, o)| + |Losses(ids, o)| + |Rejections(ids, o)|
  {
    assert ids == Confirmed(ids, o) + Losses(ids, o) + Rejections(ids, o);
  }

  /** driftFound is the symmetric difference before the pass; what is found and not counted as
      repaired is the difference that is left, plus the calls whose success got lost. */
  lemma DriftCountsAreExact(acl: ACL, desired: set<Id>, f: Faults)
    ensures |Drift(acl, desired)| - (|Revoked(acl, desired, f)| + |Reapplied(acl, desired, f)|)
         == |Drift(Repaired(acl, desired, f), desired)|
            + |Losses(Extra(acl, desired), f.revoke)| + |Losses(Missing(acl, desired), f.reapply)|
  {
    var extra, missing := Extra(acl, desired), Missing(acl, desired);
    RepairLeavesTheRefusals(acl, desired, f);
    SplitOutcomes(extra, f.revoke);
    SplitOutcomes(missing, f.reapply);
    assert extra !! missing;
    assert Rejections(extra, f.revoke) !! Rejections(missing, f.reapply);
  }

  lemma RowsAreAsMany(action: string, space: Id, ids: set<Id>)
    ensures |Rows(action, space, ids)| == |ids|
  {
    if ids != {} {
      var id :| id in ids;
      RowsAreAsMany(action, space, ids - {id});
      assert Rows(action, space, ids) == Rows(action, space, ids - {id}) + {AuditEntry(action, space, id)};
    }
  }

  /** One audit row per repair, short only of the inserts that failed. */
  lemma OneAuditRowPerRepair(w: World, space: Id, f: Faults)
    requires Stops(w, space, f) == None
    ensures var acl, desired := w.channels[w.spaces[space].channel.value], Desired(w, space);
      |PassAudit(w, space, f)| == |Landed(Revoked(acl, desired, f), f.audit)| + |Landed(Reapplied(acl, desired, f), f.audit)|
    ensures (forall id :: f.audit(id).Done?) ==> |PassAudit(w, space, f)| == Pass(w, space, f).1.repaired
  {
    var acl, desired := w.channels[w.spaces[space].channel.value], Desired(w, space);
    RowsAreAsMany(REVOKE_ACTION, space, Landed(Revoked(acl, desired, f), f.audit));
    RowsAreAsMany(REAPPLY_ACTION, space, Landed(Reapplied(acl, desired, f), f.audit));
    if forall id :: f.audit(id).Done? {
      assert Landed(Revoked(acl, desired, f), f.audit) == Revoked(acl, desired, f);
      assert Landed(Reapplied(acl, desired, f), f.audit) == Reapplied(acl, desired, f);
    }
  }

  // ---- Runs of passes ----

  predicate Provisioned(w: World, space: Id) {
    && space in w.spaces
    && w.spaces[space].channel.Some?
    && w.spaces[space].acl == Applied
    && w.spaces[space].channel.value in w.channels
  }

  function AclOf(w: World, space: Id): ACL
    requires Provisioned(w, space)
  {
    w.channels[w.spaces[space].channel.value]
  }

  function DriftOf(w: World, space: Id): set<Id>
    requires Provisioned(w, space)
  {
    Drift(AclOf(w, space), Desired(w, space))
  }

  /** Postgres asks for the same in both states. */
  ghost predicate SameRows(w: World, w': World, space: Id) {
    && w'.spaces == w.spaces
    && w'.users == w.users
    && ActiveRows(w', space) == ActiveRows(w, space)
    && Desired(w', space) == Desired(w, space)
  }

  lemma MarksKeepRows(w: World, w': World, rows: set<Id>, space: Id)
    requires w'.spaces == w.spaces && w'.users == w.users && w'.members == MarkAll(w.members, rows)
    ensures SameRows(w, w', space)
  {
    forall row
      ensures Backs(w', space, row) <==> Backs(w, space, row)
      ensures row in ActiveRows(w', space) <==> row in ActiveRows(w, space)
      ensures Backs(w, space, row) ==> DiscordOf(w', row) == DiscordOf(w, row)
    {
      if row in w.members {
        assert w'.members[row] == if row in rows then w.members[row].(overwriteApplied := true) else w.members[row];
      }
    }
  }

  lemma CarriedStaysHome(w: World, p: Plan)
    requires p.channel in w.channels
    ensures var w' := Carried(w, p);
      && w'.spaces == w.spaces && w'.channels.Keys == w.channels.Keys
      && w'.channels[p.channel] == p.acl
      && forall c :: c in w.channels && c != p.channel ==> w'.channels[c] == w.channels[c]
  {
  }

  /** A pass rewrites flags, overwrites and the audit log, never what Postgres asks for. */
  lemma PassKeepsPostgres(w: World, space: Id, f: Faults, other: Id)
    ensures SameRows(w, Pass(w, space, f).0, other)
    ensures Pass(w, space, f).0.channels.Keys == w.channels.Keys
  {
    if Stops(w, space, f) == None {
      var p := PlanOf(w, space, f);
      MarksKeepRows(w, Carried(w, p), p.marked, other);
      CarriedStaysHome(w, p);
    }
  }

  /** The pass reached its loops and at least one of its calls did something. */
  predicate Progresses(w: World, space: Id, f: Faults)
    requires Provisioned(w, space)
  {
    Stops(w, space, f) == None
    && (Landed(Extra(AclOf(w, space), Desired(w, space)), f.revoke) != {}
        || Landed(Missing(AclOf(w, space), Desired(w, space)), f.reapply) != {})
  }

  lemma RepairShrinksDrift(acl: ACL, desired: set<Id>, f: Faults)
    ensures Drift(Repaired(acl, desired, f), desired) <= Drift(acl, desired)
    ensures Landed(Extra(acl, desired), f.revoke) != {} || Landed(Missing(acl, desired), f.reapply) != {} ==>
      Drift(Repaired(acl, desired, f), desired) < Drift(acl, desired)
  {
  }

  lemma PassShrinksDrift(w: World, space: Id, f: Faults)
    requires Provisioned(w, space)
    ensures Provisioned(Pass(w, space, f).0, space)
    ensures var before, after := DriftOf(w, space), DriftOf(Pass(w, space, f).0, space);
      after <= before && (Progresses(w, space, f) ==> after < before)
  {
    PassKeepsPostgres(w, space, f, space);
    RepairShrinksDrift(AclOf(w, space), Desired(w, space), f);
  }

  function Passes(w: World, space: Id, fs: seq<Faults>): World
    decreases fs
  {
    if fs == [] then w else Passes(Pass(w, space, fs[0]).0, space, fs[1..])
  }

  /** How many passes of the run got something done. */
  ghost function Productive(w: World, space: Id, fs: seq<Faults>): nat
    requires Provisioned(w, space)
    decreases fs
  {
    if fs == [] then 0
    else
      PassShrinksDrift(w, space, fs[0]);
      (if Progresses(w, space, fs[0]) then 1 else 0) + Productive(Pass(w, space, fs[0]).0, space, fs[1..])
  }

  /** Over any run of faulty passes drift never grows, and every productive pass costs it at
      least one id; so at most |drift| passes of any run are productive, and once that many
      were, Discord shows exactly what Postgres asks for. */
  lemma {:induction false} RunsConverge(w: World, space: Id, fs: seq<Faults>)
    requires Provisioned(w, space)
    ensures Provisioned(Passes(w, space, fs), space)
    ensures DriftOf(Passes(w, space, fs), space) <= DriftOf(w, space)
    ensures |DriftOf(Passes(w, space, fs), space)| + Productive(w, space, fs) <= |DriftOf(w, space)|
    ensures Productive(w, space, fs) == |DriftOf(w, space)| ==>
              MemberIds(AclOf(Passes(w, space, fs), space)) == Desired(w, space)
    decreases fs
  {
    if fs == [] {
      NoDriftIsAgreement(w, space);
    } else {
      var w' := Pass(w, space, fs[0]).0;
      PassShrinksDrift(w, space, fs[0]);
      PassKeepsPostgres(w, space, fs[0], space);
      RunsConverge(w', space, fs[1..]);
      SubsetSize(DriftOf(w', space), DriftOf(w, space));
    }
  }

  lemma NoDriftIsAgreement(w: World, space: Id)
    requires Provisioned(w, space)
    ensures |DriftOf(w, space)| == 0 <==> MemberIds(AclOf(w, space)) == Desired(w, space)
  {
  }

  /** Once they agree no pass writes anything: no overwrite, no flag, no audit row. */
  lemma AgreementIsQuiet(w: World, space: Id, f: Faults)
    requires Provisioned(w, space) && MemberIds(AclOf(w, space)) == Desired(w, space)
    ensures Pass(w, space, f).0 == w && PassAudit(w, space, f) == multiset{}
    ensures Pass(w, space, f).1.Swept? ==> Pass(w, space, f).1 == Swept(0, 0)
  {
    if Stops(w, space, f) == None {
      var acl, desired := AclOf(w, space), Desired(w, space);
      assert Extra(acl, desired) == {} && Missing(acl, desired) == {};
      NoEntries(REVOKE_ACTION, space, f.revoke, f);
      NoEntries(REAPPLY_ACTION, space, f.reapply, f);
      assert Repaired(acl, desired, f) == acl;
      assert MarkAll(w.members, Marked(w, space, acl, f)) == w.members;
    }
  }

  // ---- Passes in which nothing fails ----

  predicate Unrevoked(w: World, space: Id, row: Id) {
    row in w.members && w.members[row].space == space && !w.members[row].revoked
  }

  /** The row's user has a Discord identity. */
  predicate Linked(w: World, row: Id) {
    row in w.members && w.members[row].user in w.users && w.users[w.members[row].user].discord.Some?
  }

  /** The row's user has this Discord identity. */
  predicate LinkedTo(w: World, row: Id, id: Id) {
    row in w.members && w.members[row].user in w.users && w.users[w.members[row].user].discord == Some(id)
  }

  predicate Shows(acl: ACL, id: Id) {
    id in acl && acl[id].kind == MemberTarget
  }

  /** Nobody who has a row can be told by a Discord id, yet Discord shows somebody. */
  ghost predicate Unresolvable(w: World, space: Id, acl: ACL) {
    && (exists row :: Unrevoked(w, space, row))
    && (forall row :: Unrevoked(w, space, row) ==> !Linked(w, row))
    && (exists id :: Shows(acl, id))
  }

  lemma BreakerIff(w: World, space: Id, acl: ACL)
    ensures Breaker(w, space, acl) <==> Unresolvable(w, space, acl)
  {
    assert forall row :: row in ActiveRows(w, space) <==> Unrevoked(w, space, row);
    assert forall id :: id in MemberIds(acl) <==> Shows(acl, id);
    forall row | Unrevoked(w, space, row) && Linked(w, row)
      ensures DiscordOf(w, row) in Desired(w, space)
    {
      assert Backs(w, space, row);
    }
  }

  ghost predicate FaultFree(f: Faults) {
    && f.lock.Free? && !f.spaceFails && !f.membersFail && !f.overwritesFail
    && forall id :: !f.userFails(id) && f.revoke(id).Done? && f.reapply(id).Done?
  }

  /** The breaker is the one thing that stops a pass in which nothing fails. */
  lemma FaultFreePassAgreesIff(w: World, space: Id, f: Faults)
    requires Provisioned(w, space) && FaultFree(f)
    ensures Provisioned(Pass(w, space, f).0, space)
    ensures MemberIds(AclOf(Pass(w, space, f).0, space)) == Desired(w, space) <==> !Unresolvable(w, space, AclOf(w, space))
    ensures Unresolvable(w, space, AclOf(w, space)) ==> Pass(w, space, f) == (w, BreakerTripped)
  {
    PassKeepsPostgres(w, space, f, space);
    BreakerIff(w, space, AclOf(w, space));
    if !Unresolvable(w, space, AclOf(w, space)) {
      var acl, desired := AclOf(w, space), Desired(w, space);
      assert Stops(w, space, f) == None;
      RepairLeavesTheRefusals(acl, desired, f);
      assert Rejections(Extra(acl, desired), f.revoke) == {};
      assert Rejections(Missing(acl, desired), f.reapply) == {};
      NoDriftIsAgreement(Pass(w, space, f).0, space);
    }
  }

  /** When a pass in which nothing fails stops at the circuit breaker. */
  lemma BreakerTripsIff(w: World, space: Id, channel: Id, f: Faults)
    requires space in w.spaces && w.spaces[space].channel == Some(channel) && w.spaces[space].acl == Applied
    requires channel in w.channels && FaultFree(f)
    ensures Pass(w, space, f).1 == BreakerTripped
       <==> (exists row :: Unrevoked(w, space, row))
            && (forall row :: Unrevoked(w, space, row) ==> !Linked(w, row))
            && exists id :: Shows(w.channels[channel], id)
    ensures Pass(w, space, f).1 == BreakerTripped ==> Pass(w, space, f).0 == w
  {
    BreakerIff(w, space, w.channels[channel]);
    StoppedIsNotSwept(w, space, f);
  }

  /** Otherwise it leaves overwrites for exactly the Discord ids of the space's unrevoked members. */
  lemma FaultFreePassShows(w: World, space: Id, channel: Id, f: Faults, id: Id)
    requires space in w.spaces && w.spaces[space].channel == Some(channel) && w.spaces[space].acl == Applied
    requires channel in w.channels && FaultFree(f) && !Unresolvable(w, space, w.channels[channel])
    ensures channel in Pass(w, space, f).0.channels
    ensures Shows(Pass(w, space, f).0.channels[channel], id)
       <==> exists row :: Unrevoked(w, space, row) && LinkedTo(w, row, id)
  {
    BreakerIff(w, space, w.channels[channel]);
    FaultFreePassAgreesIff(w, space, f);
    PassKeepsPostgres(w, space, f, space);
    assert Shows(Pass(w, space, f).0.channels[channel], id) <==> id in Desired(w, space);
    WantedIff(w, space, id);
  }

  /** In particular a space whose last member has been revoked loses its last overwrite. */
  lemma EmptiedSpaceShowsNobody(w: World, space: Id, channel: Id, f: Faults, id: Id)
    requires space in w.spaces && w.spaces[space].channel == Some(channel) && w.spaces[space].acl == Applied
    requires channel in w.channels && FaultFree(f) && forall row :: !Unrevoked(w, space, row)
    ensures channel in Pass(w, space, f).0.channels && !Shows(Pass(w, space, f).0.channels[channel], id)
  {
    FaultFreePassShows(w, space, channel, f, id);
  }

  lemma WantedIff(w: World, space: Id, id: Id)
    ensures id in Desired(w, space) <==> exists row :: Unrevoked(w, space, row) && LinkedTo(w, row, id)
  {
    assert forall row :: Backs(w, space, row) <==> Unrevoked(w, space, row) && Linked(w, row);
    assert forall row :: LinkedTo(w, row, id) <==> Linked(w, row) && DiscordOf(w, row) == id;
  }

  lemma SweptPass(w: World, space: Id, channel: Id, f: Faults)
    requires Pass(w, space, f).1.Swept? && space in w.spaces && w.spaces[space].channel == Some(channel)
    ensures channel in w.channels && channel in Pass(w, space, f).0.channels
    ensures Pass(w, space, f).0.channels[channel] == Repaired(w.channels[channel], Desired(w, space), f)
    ensures PassAudit(w, space, f) == RepairAudit(space, w.channels[channel], Desired(w, space), f)
  {
    StoppedIsNotSwept(w, space, f);
  }

  lemma RepairedUnder(acl: ACL, desired: set<Id>, f: Faults, id: Id)
    ensures var after := Repaired(acl, desired, f);
      && (Shows(acl, id) && id !in desired && !f.revoke(id).Rejected? ==> id !in after)
      && (!Shows(acl, id) && id in desired && !f.reapply(id).Rejected? ==>
            id in after && after[id] == Overwrite(MemberTarget, {ViewChannel, SendMessages}, {}))
      && ((Shows(acl, id) <==> id in desired) || (id !in desired && f.revoke(id).Rejected?)
          || (id in desired && f.reapply(id).Rejected?) ==>
            (id in after <==> id in acl) && (id in acl ==> after[id] == acl[id]))
  {
  }

  /** What a pass that reaches its loops leaves under one snowflake: nothing under a member's whom no
      row backs, the collaborator overwrite under a missing member's, and otherwise, and wherever
      Discord refuses, what was there. */
  lemma PassUnder(w: World, space: Id, channel: Id, f: Faults, id: Id)
    requires Pass(w, space, f).1.Swept? && space in w.spaces && w.spaces[space].channel == Some(channel)
    ensures channel in w.channels && channel in Pass(w, space, f).0.channels
    ensures var before, after := w.channels[channel], Pass(w, space, f).0.channels[channel];
      var wanted := exists row :: Unrevoked(w, space, row) && LinkedTo(w, row, id);
      && (Shows(before, id) && !wanted && !f.revoke(id).Rejected? ==> id !in after)
      && (!Shows(before, id) && wanted && !f.reapply(id).Rejected? ==>
            id in after && after[id] == Overwrite(MemberTarget, {ViewChannel, SendMessages}, {}))
      && ((Shows(before, id) <==> wanted) || (!wanted && f.revoke(id).Rejected?) || (wanted && f.reapply(id).Rejected?) ==>
            (id in after <==> id in before) && (id in before ==> after[id] == before[id]))
  {
    SweptPass(w, space, channel, f);
    WantedIff(w, space, id);
    RepairedUnder(w.channels[channel], Desired(w, space), f, id);
  }

  /** The audit rows of such a pass: one under its own action for every repair that Discord
      confirmed and whose insert landed, and no others. */
  lemma AuditRowsAre(w: World, space: Id, channel: Id, f: Faults, action: string, of: Id, id: Id)
    requires Pass(w, space, f).1.Swept? && space in w.spaces && w.spaces[space].channel == Some(channel)
    ensures channel in w.channels
    ensures var shown := Shows(w.channels[channel], id);
      var wanted := exists row :: Unrevoked(w, space, row) && LinkedTo(w, row, id);
      PassAudit(w, space, f)[AuditEntry(action, of, id)] ==
        if of == space && !f.audit(id).Rejected?
           && ((action == "reconcile.repair:revoke_unbacked_overwrite" && shown && !wanted && f.revoke(id).Done?)
               || (action == "reconcile.repair:reapply_missing_overwrite" && wanted && !shown && f.reapply(id).Done?))
        then 1 else 0
  {
    SweptPass(w, space, channel, f);
    WantedIff(w, space, id);
    var acl, desired := w.channels[channel], Desired(w, space);
    RepairRow(acl, desired, space, f, action, of, id);
  }

  lemma RepairRow(acl: ACL, desired: set<Id>, space: Id, f: Faults, action: string, of: Id, id: Id)
    ensures RepairAudit(space, acl, desired, f)[AuditEntry(action, of, id)] ==
        if of == space && !f.audit(id).Rejected?
           && ((action == "reconcile.repair:revoke_unbacked_overwrite" && Shows(acl, id) && id !in desired && f.revoke(id).Done?)
               || (action == "reconcile.repair:reapply_missing_overwrite" && id in desired && !Shows(acl, id) && f.reapply(id).Done?))
        then 1 else 0
  {
    RowIn("reconcile.repair:revoke_unbacked_overwrite", space, Landed(Revoked(acl, desired, f), f.audit), action, of, id);
    RowIn("reconcile.repair:reapply_missing_overwrite", space, Landed(Reapplied(acl, desired, f), f.audit), action, of, id);
    assert REVOKE_ACTION[19] == 'v' && REAPPLY_ACTION[19] == 'a';
  }

  lemma RowIn(a: string, space: Id, ids: set<Id>, action: string, of: Id, id: Id)
    ensures multiset(Rows(a, space, ids))[AuditEntry(action, of, id)] == if a == action && of == space && id in ids then 1 else 0
  {
  }

  lemma ErrsByStopping(w: World, space: Id, f: Faults)
    ensures Pass(w, space, f).1.Errored() <==> Stops(w, space, f).Some? && Stops(w, space, f).value.Errored()
  {
    StoppedIsNotSwept(w, space, f);
  }

  lemma DriftSplits(acl: ACL, desired: set<Id>)
    ensures |Drift(acl, desired)| == |MemberIds(acl) - desired| + |desired - MemberIds(acl)|
  {
    assert Extra(acl, desired) !! Missing(acl, desired);
  }

  /** What such a pass reports: the ids on which Postgres and Discord differed, and how many of them it
      knows to be repaired; the rest still differ, but for the calls whose success got lost. */
  lemma ReportIsExact(w: World, space: Id, channel: Id, f: Faults)
    requires Pass(w, space, f).1.Swept? && space in w.spaces && w.spaces[space].channel == Some(channel)
    ensures channel in w.channels && channel in Pass(w, space, f).0.channels
    ensures var before, after := MemberIds(w.channels[channel]), MemberIds(Pass(w, space, f).0.channels[channel]);
      var desired, report := Desired(w, space), Pass(w, space, f).1;
      && report.found == |before - desired| + |desired - before|
      && report.found - report.repaired
         == |after - desired| + |desired - after| + |Losses(before - desired, f.revoke)| + |Losses(desired - before, f.reapply)|
  {
    SweptPass(w, space, channel, f);
    var acl, desired := w.channels[channel], Desired(w, space);
    DriftSplits(acl, desired);
    DriftSplits(Repaired(acl, desired, f), desired);
    DriftCountsAreExact(acl, desired, f);
    SweptSummary(w, space, channel, f);
  }

  lemma SweptSummary(w: World, space: Id, channel: Id, f: Faults)
    requires Pass(w, space, f).1.Swept? && space in w.spaces && w.spaces[space].channel == Some(channel)
    ensures channel in w.channels && Pass(w, space, f).1 == Summary(w.channels[channel], Desired(w, space), f)
  {
    StoppedIsNotSwept(w, space, f);
  }

  /** Which passes err: one that cannot ask for the lock, and one that gets it and then cannot read
      the space, or has an applied space before it and cannot read a row, a user or the channel, or
      finds nobody it could tell by a Discord id. A busy lock or an unprovisioned space is no error. */
  lemma PassErrsIff(w: World, space: Id, f: Faults)
    ensures Pass(w, space, f).1.Errored() <==>
      || f.lock == Broken
      || (f.lock == Free && (f.spaceFails || space !in w.spaces))
      || (f.lock == Free && !f.spaceFails && space in w.spaces && w.spaces[space].channel.Some? && w.spaces[space].acl == Applied
          && (f.membersFail || (exists row :: Unrevoked(w, space, row) && f.userFails(row)) || f.overwritesFail
              || w.spaces[space].channel.value !in w.channels
              || Unresolvable(w, space, w.channels[w.spaces[space].channel.value])))
  {
    ErrsByStopping(w, space, f);
    if f.lock == Free && !f.spaceFails && space in w.spaces && w.spaces[space].channel.Some? && w.spaces[space].acl == Applied {
      ReadingErrs(w, space, w.spaces[space].channel.value, f);
    }
  }

  /** The reads of an applied space. */
  lemma ReadingErrs(w: World, space: Id, channel: Id, f: Faults)
    requires f.lock == Free && !f.spaceFails && space in w.spaces
    requires w.spaces[space].channel == Some(channel) && w.spaces[space].acl == Applied
    ensures Stops(w, space, f).Some? && Stops(w, space, f).value.Errored() <==>
      || f.membersFail || (exists row :: Unrevoked(w, space, row) && f.userFails(row)) || f.overwritesFail
      || channel !in w.channels || Unresolvable(w, space, w.channels[channel])
  {
    assert forall row :: row in ActiveRows(w, space) <==> Unrevoked(w, space, row);
    if channel in w.channels {
      BreakerIff(w, space, w.channels[channel]);
    }
  }

  /** A tripped breaker never resets itself: while Postgres stays as it is, no run of passes changes anything. */
  lemma {:induction false} TrippedStaysTripped(w: World, space: Id, fs: seq<Faults>)
    requires Provisioned(w, space) && Unresolvable(w, space, AclOf(w, space))
    ensures Passes(w, space, fs) == w
    decreases fs
  {
    if fs != [] {
      BreakerIff(w, space, AclOf(w, space));
      assert Stops(w, space, fs[0]).Some?;
      TrippedStaysTripped(w, space, fs[1..]);
    }
  }

  // ---- What gets marked overwrite_applied ----

  lemma CarriedMarks(w: World, p: Plan, row: Id)
    requires row in w.members
    ensures row in Carried(w, p).members
    ensures Carried(w, p).members[row].overwriteApplied <==> w.members[row].overwriteApplied || row in p.marked
  {
  }

  lemma MarkedMeans(w: World, space: Id, acl: ACL, f: Faults, row: Id)
    requires Backs(w, space, row)
    ensures row in Marked(w, space, acl, f) <==>
      DiscordOf(w, row) in Missing(acl, Desired(w, space)) && f.reapply(DiscordOf(w, row)).Seen() && f.mark(row).Effective()
  {
  }

  /** After a pass that reaches its loops, a row that backs an overwrite is marked exactly when it was
      before, or its overwrite was missing, was re-applied without an error and the mark landed. */
  lemma MarkedIff(w: World, space: Id, f: Faults, row: Id)
    requires Provisioned(w, space) && Stops(w, space, f) == None && Backs(w, space, row)
    ensures var after := Pass(w, space, f).0;
      && row in after.members
      && (after.members[row].overwriteApplied
          <==> w.members[row].overwriteApplied
               || (DiscordOf(w, row) in Missing(AclOf(w, space), Desired(w, space))
                   && f.reapply(DiscordOf(w, row)).Seen() && f.mark(row).Effective()))
  {
    MarkedMeans(w, space, AclOf(w, space), f, row);
    CarriedMarks(w, PlanOf(w, space, f), row);
  }

  /** The row backs an overwrite that Discord shows, and is not marked. */
  predicate ShownUnmarked(w: World, space: Id, row: Id)
    requires Provisioned(w, space)
  {
    Backs(w, space, row) && !w.members[row].overwriteApplied && DiscordOf(w, row) in MemberIds(AclOf(w, space))
  }

  lemma ShownStaysShown(acl: ACL, desired: set<Id>, f: Faults, id: Id)
    requires id in desired && id in MemberIds(acl)
    ensures id in MemberIds(Repaired(acl, desired, f))
  {
    RepairLeavesTheRefusals(acl, desired, f);
    assert id !in Missing(Repaired(acl, desired, f), desired);
  }

  lemma PassKeepsBacking(w: World, space: Id, f: Faults, row: Id)
    requires Backs(w, space, row)
    ensures Backs(Pass(w, space, f).0, space, row) && DiscordOf(Pass(w, space, f).0, row) == DiscordOf(w, row)
  {
  }

  lemma PassKeepsShownUnmarked(w: World, space: Id, f: Faults, row: Id)
    requires Provisioned(w, space) && ShownUnmarked(w, space, row)
    ensures Provisioned(Pass(w, space, f).0, space) && ShownUnmarked(Pass(w, space, f).0, space, row)
  {
    PassShrinksDrift(w, space, f);
    PassKeepsBacking(w, space, f, row);
    if Stops(w, space, f) == None {
      assert DiscordOf(w, row) in Desired(w, space);
      MarkedIff(w, space, f, row);
      ShownStaysShown(AclOf(w, space), Desired(w, space), f, DiscordOf(w, row));
      assert AclOf(Pass(w, space, f).0, space) == Repaired(AclOf(w, space), Desired(w, space), f);
    }
  }

  /** No run of passes ever marks a row whose overwrite is there already, as one is when an invite
      set it but could not mark its row. */
  lemma {:induction false} ShownIsNeverMarked(w: World, space: Id, fs: seq<Faults>, row: Id)
    requires Provisioned(w, space) && ShownUnmarked(w, space, row)
    ensures Provisioned(Passes(w, space, fs), space) && ShownUnmarked(Passes(w, space, fs), space, row)
    decreases fs
  {
    if fs != [] {
      PassKeepsShownUnmarked(w, space, fs[0], row);
      ShownIsNeverMarked(Pass(w, space, fs[0]).0, space, fs[1..], row);
    }
  }

  /** One applied space with one member, whose overwrite an invite has set without marking the row. */
  const INVITED_UNMARKED := World(
    map["s" := Space("m", Some("c"), None, Applied, Active)],
    map["row" := Member("s", "u", false, false)],
    map["u" := User(Some("d"))],
    map["c" := map["d" := COLLABORATOR]])

  lemma InvitedUnmarkedStaysUnmarked(fs: seq<Faults>)
    ensures var after := Passes(INVITED_UNMARKED, "s", fs);
      "row" in after.members && !after.members["row"].overwriteApplied
  {
    ShownIsNeverMarked(INVITED_UNMARKED, "s", fs, "row");
  }

  // ---- Guild sweeps ----

  /** All of `w` that a pass over `space` looks at. */
  ghost predicate SameFor(w: World, w': World, space: Id) {
    && SameRows(w, w', space)
    && w'.channels.Keys == w.channels.Keys
    && (space in w.spaces && w.spaces[space].channel.Some? && w.spaces[space].channel.value in w.channels ==>
          w'.channels[w.spaces[space].channel.value] == w.channels[w.spaces[space].channel.value])
  }

  lemma PassKeepsSpaces(w: World, space: Id, f: Faults)
    ensures Pass(w, space, f).0.spaces == w.spaces && Pass(w, space, f).0.channels.Keys == w.channels.Keys
  {
    if Stops(w, space, f) == None {
      CarriedStaysHome(w, PlanOf(w, space, f));
    }
  }

  predicate OwnsChannel(w: World, space: Id, channel: Id) {
    space in w.spaces && w.spaces[space].channel == Some(channel)
  }

  lemma PassStaysHome(w: World, space: Id, f: Faults, channel: Id)
    requires channel in w.channels && !OwnsChannel(w, space, channel)
    ensures channel in Pass(w, space, f).0.channels && Pass(w, space, f).0.channels[channel] == w.channels[channel]
  {
    if Stops(w, space, f) == None {
      CarriedStaysHome(w, PlanOf(w, space, f));
    }
  }

  lemma SamePassForTheSame(w: World, w': World, space: Id, f: Faults)
    requires SameFor(w, w', space)
    ensures Pass(w', space, f).1.Errored() <==> Pass(w, space, f).1.Errored()
    ensures forall channel :: channel in w.channels && OwnsChannel(w, space, channel) ==>
      Pass(w', space, f).0.channels[channel] == Pass(w, space, f).0.channels[channel]
  {
    SameStops(w, w', space, f);
    if Stops(w, space, f) == None {
      var channel := w.spaces[space].channel.value;
      assert Repaired(w'.channels[channel], Desired(w', space), f) == Repaired(w.channels[channel], Desired(w, space), f);
    }
  }

  lemma SameStops(w: World, w': World, space: Id, f: Faults)
    requires SameFor(w, w', space)
    ensures Stops(w', space, f) == Stops(w, space, f)
  {
  }

  lemma OtherPassesDoNotMatter(w: World, space: Id, other: Id, f: Faults)
    requires OwnChannels(w.spaces) && space != other
    ensures SameFor(w, Pass(w, other, f).0, space)
  {
    PassKeepsPostgres(w, other, f, space);
    if space in w.spaces && w.spaces[space].channel.Some? && w.spaces[space].channel.value in w.channels {
      PassStaysHome(w, other, f, w.spaces[space].channel.value);
    }
  }

  /** A channel no listed space owns comes through a sweep unchanged. */
  lemma {:induction false} UnlistedChannelsStay(w: World, listed: seq<Id>, fs: Id -> Faults, channel: Id)
    requires channel in w.channels
    requires forall s :: s in listed ==> !OwnsChannel(w, s, channel)
    ensures channel in Sweep(w, listed, fs).0.channels && Sweep(w, listed, fs).0.channels[channel] == w.channels[channel]
    decreases listed
  {
    if listed != [] {
      var w' := Pass(w, listed[0], fs(listed[0])).0;
      PassStaysHome(w, listed[0], fs(listed[0]), channel);
      PassKeepsSpaces(w, listed[0], fs(listed[0]));
      forall s | s in listed[1..]
        ensures !OwnsChannel(w', s, channel)
      {
        assert s in listed;
      }
      UnlistedChannelsStay(w', listed[1..], fs, channel);
    }
  }

  /** What a sweep does to a listed space's channel is what that space's pass alone would have
      done to it, wherever in the list it comes and whatever happens to the others. */
  lemma {:induction false} SweepIsPassPerSpace(w: World, listed: seq<Id>, fs: Id -> Faults, space: Id, channel: Id)
    requires OwnChannels(w.spaces) && space in listed && OwnsChannel(w, space, channel) && channel in w.channels
    requires forall i, j :: 0 <= i < j < |listed| ==> listed[i] != listed[j]
    ensures channel in Sweep(w, listed, fs).0.channels
    ensures Sweep(w, listed, fs).0.channels[channel] == Pass(w, space, fs(space)).0.channels[channel]
    decreases listed
  {
    var f := fs(listed[0]);
    var w' := Pass(w, listed[0], f).0;
    PassKeepsSpaces(w, listed[0], f);
    if listed[0] == space {
      assert forall s :: s in listed[1..] ==> s != space;
      UnlistedChannelsStay(w', listed[1..], fs, channel);
    } else {
      OtherPassesDoNotMatter(w, space, listed[0], f);
      SamePassForTheSame(w, w', space, fs(space));
      SweepIsPassPerSpace(w', listed[1..], fs, space, channel);
    }
  }

  predicate Errs(w: World, space: Id, fs: Id -> Faults) {
    Pass(w, space, fs(space)).1.Errored()
  }

  lemma ErrsAlikeAfterAnother(w: World, space: Id, other: Id, fs: Id -> Faults)
    requires OwnChannels(w.spaces) && space != other
    ensures Errs(Pass(w, other, fs(other)).0, space, fs) <==> Errs(w, space, fs)
  {
    OtherPassesDoNotMatter(w, space, other, fs(other));
    SamePassForTheSame(w, Pass(w, other, fs(other)).0, space, fs(space));
  }

  lemma ErrsInRest(w: World, w': World, listed: seq<Id>, fs: Id -> Faults)
    requires listed != [] && forall s :: s in listed[1..] ==> (Errs(w', s, fs) <==> Errs(w, s, fs))
    ensures (exists s :: s in listed && Errs(w, s, fs))
       <==> Errs(w, listed[0], fs) || exists s :: s in listed[1..] && Errs(w', s, fs)
  {
  }

  /** The sweep reports an error iff some listed space's own pass errs. */
  lemma {:induction false} SweepErrsIff(w: World, listed: seq<Id>, fs: Id -> Faults)
    requires OwnChannels(w.spaces)
    requires forall i, j :: 0 <= i < j < |listed| ==> listed[i] != listed[j]
    ensures Sweep(w, listed, fs).1 > 0 <==> exists s :: s in listed && Errs(w, s, fs)
    decreases listed
  {
    if listed != [] {
      var f := fs(listed[0]);
      var w' := Pass(w, listed[0], f).0;
      PassKeepsSpaces(w, listed[0], f);
      SweepErrsIff(w', listed[1..], fs);
      forall s | s in listed[1..]
        ensures Errs(w', s, fs) <==> Errs(w, s, fs)
      {
        ErrsAlikeAfterAnother(w, s, listed[0], fs);
      }
      ErrsInRest(w, w', listed, fs);
    }
  }

  lemma StoppedWritesNothing(w: World, space: Id, f: Faults)
    requires Stops(w, space, f).Some?
    ensures Pass(w, space, f).0 == w
  {
  }

  lemma SummaryIsSwept(acl: ACL, desired: set<Id>, f: Faults)
    ensures Summary(acl, desired, f).Swept?
  {
  }

  lemma UnappliedIsStopped(w: World, space: Id, f: Faults)
    requires space in w.spaces && w.spaces[space].acl != Applied
    ensures Stops(w, space, f).Some?
  {
  }

  /** A pass reports a sweep unless something stopped it. */
  lemma StoppedIsNotSwept(w: World, space: Id, f: Faults)
    ensures Stops(w, space, f).Some? <==> !Pass(w, space, f).1.Swept?
  {
    if Stops(w, space, f) == None {
      SummaryIsSwept(w.channels[w.spaces[space].channel.value], Desired(w, space), f);
    }
  }

  /** A sweep leaves the channel of every space that is not active as it is. */
  lemma OnlyActiveSpacesAreSwept(w: World, listed: seq<Id>, fs: Id -> Faults, space: Id, channel: Id)
    requires OwnChannels(w.spaces) && IsListing(w, listed) && OwnsChannel(w, space, channel) && channel in w.channels
    requires w.spaces[space].lifecycle != Active
    ensures channel in Sweep(w, listed, fs).0.channels && Sweep(w, listed, fs).0.channels[channel] == w.channels[channel]
  {
    GuildIsolation(w, listed, fs, space, channel);
  }

  /** After a sweep each listed, applied space whose calls all worked and whose breaker is not
      tripped shows exactly its own desired set; each space whose pass erred, was skipped (because
      another sweep holds its lock, or because it is not applied) or is not listed is as it was. */
  lemma GuildIsolation(w: World, listed: seq<Id>, fs: Id -> Faults, space: Id, channel: Id)
    requires OwnChannels(w.spaces) && IsListing(w, listed) && OwnsChannel(w, space, channel) && channel in w.channels
    ensures var after := Sweep(w, listed, fs).0;
      && channel in after.channels
      && (space in listed && w.spaces[space].acl == Applied && FaultFree(fs(space)) && !Unresolvable(w, space, w.channels[channel]) ==>
            MemberIds(after.channels[channel]) == Desired(w, space))
      && (space !in listed || !Pass(w, space, fs(space)).1.Swept? ==> after.channels[channel] == w.channels[channel])
      && (w.spaces[space].acl != Applied ==> after.channels[channel] == w.channels[channel])
  {
    if space in listed {
      SweepIsPassPerSpace(w, listed, fs, space, channel);
      StoppedIsNotSwept(w, space, fs(space));
      if w.spaces[space].acl != Applied {
        UnappliedIsStopped(w, space, fs(space));
      }
      if Stops(w, space, fs(space)).Some? {
        StoppedWritesNothing(w, space, fs(space));
      }
      if w.spaces[space].acl == Applied && FaultFree(fs(space)) {
        PassKeepsPostgres(w, space, fs(space), space);
        BreakerIff(w, space, w.channels[channel]);
        FaultFreePassAgreesIff(w, space, fs(space));
      }
    } else {
      UnlistedChannelsStay(w, listed, fs, channel);
    }
  }
}
