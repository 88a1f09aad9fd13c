/** The invite and expel handlers of internal/worker. */
module Membership {
  import opened Wrappers
  import opened Domain
  import P = Postgres
  import D = Discord

  ghost predicate IsRow(w: World, space: Id, user: Id, row: Id) {
    row in w.members && w.members[row].space == space && w.members[row].user == user
  }

  /** GetSpaceMemberBySpaceAndUser: the row, revoked or not. */
  ghost function RowOf(w: World, space: Id, user: Id): Option<Id> {
    if row :| IsRow(w, space, user, row) then Some(row) else None
  }

  lemma RowOfIs(w: World, space: Id, user: Id, row: Id)
    requires Unique(w) && IsRow(w, space, user, row)
    ensures RowOf(w, space, user) == Some(row)
  {
    assert SameSeat(w, row, RowOf(w, space, user).value);
  }

  datatype ExpelFaults = ExpelFaults(
    lock: LockAnswer, spaceFails: bool, userFails: bool, rowFails: bool,
    delete: Outcome, kick: Outcome, revoke: Outcome, audit: Outcome)

  datatype InviteFaults = InviteFaults(
    lock: LockAnswer, spaceFails: bool, userFails: bool, rowFails: bool,
    token: bool, join: Outcome, set_: Outcome, mark: Outcome, audit: Outcome)

  /** The outcome of the reads every membership task starts with. */
  datatype Start = Stop(v: Verdict) | Go(row: Id)

  ghost function ExpelStart(w: World, space: Id, user: Id, f: ExpelFaults): Start {
    if space == "" || user == "" then Stop(SkipRetry)
    else if !f.lock.Free? then Stop(Retry)
    else if f.spaceFails || space !in w.spaces then Stop(Retry)
    else if f.userFails then Stop(Retry)
    else if user !in w.users then Stop(SkipRetry)
    else if f.rowFails then Stop(Retry)
    else match RowOf(w, space, user)
      case None => Stop(Success)
      case Some(row) => Go(row)
  }

  function Dropped(c: D.Channels, sp: Space, u: User, o: Outcome): D.Channels {
    if sp.channel.Some? && u.discord.Some? && o.Effective()
    then D.DeleteOverwrite(c, sp.channel.value, u.discord.value) else c
  }

  function RevokeRow(members: map<Id, Member>, row: Id, o: Outcome): map<Id, Member> {
    if row in members && !members[row].revoked && o.Effective()
    then members[row := members[row].(revoked := true)] else members
  }

  /** One run of the expel handler, at either scope. */
  ghost function Expel(w: World, space: Id, user: Id, f: ExpelFaults): (World, Verdict) {
    match ExpelStart(w, space, user, f)
    case Stop(v) => (w, v)
    case Go(row) =>
      (w.(channels := Dropped(w.channels, w.spaces[space], w.users[user], f.delete),
          members := RevokeRow(w.members, row, f.revoke)),
       if w.members[row].revoked || f.revoke.Seen() then Success else Retry)
  }

  ghost function InviteStart(w: World, space: Id, user: Id, f: InviteFaults): Start {
    if space == "" || user == "" then Stop(SkipRetry)
    else if !f.lock.Free? then Stop(Retry)
    else if f.spaceFails || space !in w.spaces then Stop(Retry)
    else if w.spaces[space].channel.None? || w.spaces[space].acl != Applied then Stop(Retry)
    else if f.userFails then Stop(Retry)
    else if user !in w.users then Stop(SkipRetry)
    else if f.rowFails then Stop(Retry)
    else match RowOf(w, space, user)
      case None => Stop(Success)
      case Some(row) =>
        if w.members[row].overwriteApplied then Stop(Success)
        else if w.users[user].discord.None? || w.users[user].discord.value == "" then Stop(Retry)
        else Go(row)
  }

  /** One run of the invite handler. It never looks at `revoked`. */
  ghost function Invite(w: World, space: Id, user: Id, f: InviteFaults): (World, Verdict) {
    match InviteStart(w, space, user, f)
    case Stop(v) => (w, v)
    case Go(row) =>
      var channel := w.spaces[space].channel.value;
      var w1 := if f.set_.Effective()
                then w.(channels := D.SetOverwrite(w.channels, channel, w.users[user].discord.value, COLLABORATOR)) else w;
      if !f.set_.Seen() || channel !in w.channels then (w1, Retry)
      else if f.mark.Effective() then
        (w1.(members := w.members[row := w.members[row].(overwriteApplied := true)]), Success)
      else (w1, Success)
  }

  /** Once an invite has gone through and marked its row, no later run of it does anything. */
  lemma InviteOnce(w: World, space: Id, user: Id, f: InviteFaults, later: InviteFaults)
    requires Unique(w) && InviteStart(w, space, user, f).Go? && f.mark.Effective()
    requires Invite(w, space, user, f).1.Success?
    ensures var after := Invite(w, space, user, f).0;
      Invite(after, space, user, later).0 == after
      && InviteStart(after, space, user, later).Stop?
  {
    var after := Invite(w, space, user, f).0;
    var row := RowOf(w, space, user).value;
    assert forall r, q :: SameSeat(after, r, q) ==> SameSeat(w, r, q);
    assert forall u, v :: SameAccount(after, u, v) ==> SameAccount(w, u, v);
    RowOfIs(after, space, user, row);
  }

  // ---- What a run does, by what it is asked and what it reads ----

  ghost predicate HasRow(w: World, space: Id, user: Id) {
    exists row :: IsRow(w, space, user, row)
  }

  /** An expulsion gets to work: it has the lock, reads all it needs and finds the member's row. */
  ghost predicate ExpelGoes(w: World, space: Id, user: Id, f: ExpelFaults) {
    && space != "" && user != "" && f.lock == Free
    && !f.spaceFails && space in w.spaces && !f.userFails && user in w.users && !f.rowFails
    && HasRow(w, space, user)
  }

  lemma ExpelStartsIff(w: World, space: Id, user: Id, f: ExpelFaults)
    requires Unique(w)
    ensures ExpelStart(w, space, user, f).Go? <==> ExpelGoes(w, space, user, f)
    ensures ExpelGoes(w, space, user, f) ==> IsRow(w, space, user, ExpelStart(w, space, user, f).row)
  {
  }

  /** It takes the user's overwrite off the space's channel, and nothing else off any channel; a
      delete that never arrives, or has nothing to name, takes nothing. */
  lemma ExpelDropsTheOverwrite(w: World, space: Id, user: Id, f: ExpelFaults, channel: Id, id: Id)
    requires Unique(w) && ExpelGoes(w, space, user, f)
    requires w.spaces[space].channel == Some(channel) && channel in w.channels && w.users[user].discord == Some(id)
    ensures var after := Expel(w, space, user, f).0.channels;
      && after.Keys == w.channels.Keys && (forall c :: c in after && c != channel ==> after[c] == w.channels[c])
      && (forall d :: d != id ==> (d in after[channel] <==> d in w.channels[channel]))
      && (forall d :: d != id && d in after[channel] ==> after[channel][d] == w.channels[channel][d])
      && (if f.delete != Rejected then id !in after[channel] else after == w.channels)
  {
    ExpelStartsIff(w, space, user, f);
  }

  /** It revokes the member's row, unless that was done before or the call never arrives, and keeps it. */
  lemma ExpelMarksTheRow(w: World, space: Id, user: Id, f: ExpelFaults, row: Id)
    requires Unique(w) && ExpelGoes(w, space, user, f)
    requires row in w.members && w.members[row].space == space && w.members[row].user == user
    ensures var w' := Expel(w, space, user, f).0;
      && w'.spaces == w.spaces && w'.users == w.users && w'.members.Keys == w.members.Keys
      && (forall r :: r in w.members && r != row ==> w'.members[r] == w.members[r])
      && w'.members[row] == Member(space, user, w.members[row].overwriteApplied,
                                   w.members[row].revoked || f.revoke != Rejected)
    ensures Expel(w, space, user, f).1 == if w.members[row].revoked || f.revoke == Done then Success else Retry
  {
    RowOfIs(w, space, user, row);
  }

  /** A run that does not get to work changes nothing: it ends for good when it names nobody, or nobody
      who exists; it is done when the user has no row; and it is run again in every other case. */
  lemma ExpelStopsIdle(w: World, space: Id, user: Id, f: ExpelFaults)
    requires Unique(w) && !ExpelGoes(w, space, user, f)
    ensures var loads := f.lock == Free && !f.spaceFails && space in w.spaces && !f.userFails;
      Expel(w, space, user, f) ==
        (w, if space == "" || user == "" || (loads && user !in w.users) then SkipRetry
            else if loads && !f.rowFails then Success else Retry)
  {
    ExpelStartsIff(w, space, user, f);
  }

  /** An invite gets to work: like an expulsion, and the space is applied, the row not yet marked, and
      the user linked. */
  ghost predicate InviteGoes(w: World, space: Id, user: Id, f: InviteFaults) {
    && space != "" && user != "" && f.lock == Free && !f.spaceFails && space in w.spaces
    && w.spaces[space].channel.Some? && w.spaces[space].acl == Applied
    && !f.userFails && user in w.users && !f.rowFails && HasRow(w, space, user)
    && (forall row :: IsRow(w, space, user, row) ==> !w.members[row].overwriteApplied)
    && w.users[user].discord.Some? && w.users[user].discord.value != ""
  }

  lemma InviteStartsIff(w: World, space: Id, user: Id, f: InviteFaults)
    requires Unique(w)
    ensures InviteStart(w, space, user, f).Go? <==> InviteGoes(w, space, user, f)
    ensures InviteGoes(w, space, user, f) ==> IsRow(w, space, user, InviteStart(w, space, user, f).row)
  {
    if HasRow(w, space, user) {
      var row :| IsRow(w, space, user, row);
      RowOfIs(w, space, user, row);
      assert forall r :: IsRow(w, space, user, r) ==> SameSeat(w, r, row);
    }
  }

  /** It lets the user view and write in the space's channel, and changes no other overwrite; a call
      that never arrives changes nothing. */
  lemma InviteGrants(w: World, space: Id, user: Id, f: InviteFaults, channel: Id, id: Id)
    requires Unique(w) && InviteGoes(w, space, user, f)
    requires w.spaces[space].channel == Some(channel) && channel in w.channels && w.users[user].discord == Some(id)
    ensures var after := Invite(w, space, user, f).0.channels;
      && after.Keys == w.channels.Keys && (forall c :: c in after && c != channel ==> after[c] == w.channels[c])
      && (forall d :: d != id ==> (d in after[channel] <==> d in w.channels[channel]))
      && (forall d :: d != id && d in after[channel] ==> after[channel][d] == w.channels[channel][d])
      && (if f.set_ != Rejected
          then id in after[channel] && after[channel][id] == Overwrite(MemberTarget, {ViewChannel, SendMessages}, {})
          else after == w.channels)
  {
    InviteStartsIff(w, space, user, f);
  }

  /** The row is marked once Discord has confirmed that, if the mark arrives; the run succeeds on
      Discord's word alone. */
  lemma InviteMarksTheRow(w: World, space: Id, user: Id, f: InviteFaults, row: Id)
    requires Unique(w) && InviteGoes(w, space, user, f)
    requires row in w.members && w.members[row].space == space && w.members[row].user == user
    ensures var w', confirmed := Invite(w, space, user, f).0, f.set_ == Done && w.spaces[space].channel.value in w.channels;
      && w'.spaces == w.spaces && w'.users == w.users && w'.members.Keys == w.members.Keys
      && (forall r :: r in w.members && r != row ==> w'.members[r] == w.members[r])
      && w'.members[row] == Member(space, user, confirmed && f.mark != Rejected, w.members[row].revoked)
      && Invite(w, space, user, f).1 == if confirmed then Success else Retry
  {
    RowOfIs(w, space, user, row);
    InviteStartsIff(w, space, user, f);
  }

  /** Nor does an invite that does not get to work change anything: it is done when there is no row, or
      the row is marked already, and waits for a space that is not applied or a user not yet linked. */
  lemma InviteStopsIdle(w: World, space: Id, user: Id, f: InviteFaults)
    requires Unique(w) && !InviteGoes(w, space, user, f)
    ensures var loads := f.lock == Free && !f.spaceFails && space in w.spaces
                         && w.spaces[space].channel.Some? && w.spaces[space].acl == Applied && !f.userFails;
      Invite(w, space, user, f) ==
        (w, if space == "" || user == "" || (loads && user !in w.users) then SkipRetry
            else if loads && !f.rowFails && forall row :: IsRow(w, space, user, row) ==> w.members[row].overwriteApplied then Success
            else Retry)
  {
    InviteStartsIff(w, space, user, f);
    if row :| IsRow(w, space, user, row) {
      RowOfIs(w, space, user, row);
      assert forall r :: IsRow(w, space, user, r) ==> SameSeat(w, r, row);
    }
  }

  const EXPEL_ACTION := "collaborator.expel"
  const INVITE_ACTION := "collaborator.invite"

  class Handlers {
    const store: P.Store
    const discord: D.Session

    constructor (store: P.Store, discord: D.Session)
      ensures this.store == store && this.discord == discord
    {
      this.store, this.discord := store, discord;
    }

    ghost function Now(): World
      reads this, store, discord
    {
      World(store.spaces, store.members, store.users, discord.channels)
    }

    method GetSpaceMemberBySpaceAndUser(space: Id, user: Id) returns (found: Option<Id>)
      requires Unique(Now())
      ensures found == RowOf(Now(), space, user)
    {
      var rows := set row | row in store.members && store.members[row].space == space && store.members[row].user == user;
      if rows == {} {
        assert forall row :: IsRow(Now(), space, user, row) ==> row in rows;
        return None;
      }
      var row :| row in rows;
      RowOfIs(Now(), space, user, row);
      found := Some(row);
    }

    /** `server` is scope=server: the user also leaves the guild. */
    method HandleExpel(space: Id, user: Id, server: bool, f: ExpelFaults) returns (v: Verdict)
      requires Unique(Now())
      modifies discord, store`audit, store`members
      ensures Now() == Expel(old(Now()), space, user, f).0
      ensures v == Expel(old(Now()), space, user, f).1
      ensures discord.guild == if ExpelStart(old(Now()), space, user, f).Go? && server
                                  && old(store.users)[user].discord.Some? && !f.kick.Rejected?
                               then old(discord.guild) - {old(store.users)[user].discord.value} else old(discord.guild)
      ensures store.audit == if ExpelStart(old(Now()), space, user, f).Go? && v == Success && f.audit.Effective()
                             then old(store.audit) + multiset{AuditEntry(EXPEL_ACTION, space, user)} else old(store.audit)
    {
      if space == "" || user == "" {
        return SkipRetry;
      }
      if !f.lock.Free? {
        return Retry;
      }
      if f.spaceFails || space !in store.spaces {
        return Retry;
      }
      var sp := store.spaces[space];
      if f.userFails {
        return Retry;
      }
      if user !in store.users {
        return SkipRetry;
      }
      var u := store.users[user];
      if f.rowFails {
        return Retry;
      }
      var found := GetSpaceMemberBySpaceAndUser(space, user);
      if found.None? {
        return Success;
      }
      var row := found.value;
      DropOnDiscord(sp, u, server, f);
      if !store.members[row].revoked {
        var ok := store.RevokeSpaceMember(row, f.revoke);
        if !ok {
          return Retry;
        }
      }
      store.InsertAuditEntry(AuditEntry(EXPEL_ACTION, space, user), f.audit);
      v := Success;
    }

    /** The two Discord calls of an expulsion; neither failure stops it. */
    method DropOnDiscord(sp: Space, u: User, server: bool, f: ExpelFaults)
      modifies discord
      ensures discord.channels == Dropped(old(discord.channels), sp, u, f.delete)
      ensures discord.guild == if server && u.discord.Some? && !f.kick.Rejected?
                               then old(discord.guild) - {u.discord.value} else old(discord.guild)
    {
      if sp.channel.Some? && u.discord.Some? {
        var _ := discord.DeleteCollaboratorOverwrite(sp.channel.value, u.discord.value, f.delete);
      }
      if server && u.discord.Some? {
        var _ := discord.RemoveGuildMember(u.discord.value, f.kick);
      }
    }

    /** `f.token` says whether an OAuth2 token could be loaded for the user. */
    method HandleInvite(space: Id, user: Id, f: InviteFaults) returns (v: Verdict)
      requires Unique(Now())
      modifies discord, store`audit, store`members
      ensures Now() == Invite(old(Now()), space, user, f).0
      ensures v == Invite(old(Now()), space, user, f).1
      ensures discord.guild == if InviteStart(old(Now()), space, user, f).Go? && f.token && !f.join.Rejected?
                               then old(discord.guild) + {old(store.users)[user].discord.value} else old(discord.guild)
      ensures store.audit == if InviteStart(old(Now()), space, user, f).Go? && v == Success && f.audit.Effective()
                             then old(store.audit) + multiset{AuditEntry(INVITE_ACTION, space, user)} else old(store.audit)
    {
      if space == "" || user == "" {
        return SkipRetry;
      }
      if !f.lock.Free? {
        return Retry;
      }
      if f.spaceFails || space !in store.spaces {
        return Retry;
      }
      var sp := store.spaces[space];
      if sp.channel.None? || sp.acl != Applied {
        return Retry;
      }
      if f.userFails {
        return Retry;
      }
      if user !in store.users {
        return SkipRetry;
      }
      var u := store.users[user];
      if f.rowFails {
        return Retry;
      }
      var found := GetSpaceMemberBySpaceAndUser(space, user);
      if found.None? {
        return Success;
      }
      var row := found.value;
      if store.members[row].overwriteApplied {
        return Success;
      }
      if u.discord.None? || u.discord.value == "" {
        return Retry;
      }
      if f.token {
        var _ := discord.AddGuildMember(u.discord.value, f.join);
      }
      var set_ := discord.SetCollaboratorOverwrite(sp.channel.value, u.discord.value, f.set_);
      if !set_ {
        return Retry;
      }
      var _ := store.SetSpaceMemberOverwriteApplied(row, f.mark);
      store.InsertAuditEntry(AuditEntry(INVITE_ACTION, space, user), f.audit);
      v := Success;
    }
  }
}
