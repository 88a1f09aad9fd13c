/** The rows of Postgres and the overwrites of Discord that the workers read and write. */
module Domain {
  import opened Wrappers

  type Id = string

  datatype ACLState = Pending | Applied | Degraded | Failed
  datatype Lifecycle = Active | Resolved | Archived

  datatype Space = Space(merchant: Id, channel: Option<Id>, category: Option<Id>, acl: ACLState, lifecycle: Lifecycle)
  datatype Member = Member(space: Id, user: Id, overwriteApplied: bool, revoked: bool)
  datatype User = User(discord: Option<Id>)
  datatype JobStatus = JobPending | JobActive | JobCompleted | JobArchived
  datatype AuditEntry = AuditEntry(action: string, space: Id, subject: Id)

  datatype TargetKind = RoleTarget | MemberTarget
  datatype Permission = ViewChannel | SendMessages
  datatype Overwrite = Overwrite(kind: TargetKind, allow: set<Permission>, deny: set<Permission>)

  /** A channel's overwrites, at most one per snowflake. */
  type ACL = map<Id, Overwrite>

  /** The tables and overwrites a worker step decides by; the audit log is kept apart. */
  datatype World = World(
    spaces: map<Id, Space>,
    members: map<Id, Member>,
    users: map<Id, User>,
    channels: map<Id, ACL>)

  /** What a worker hears when it asks for a lock. */
  datatype LockAnswer = Free | Busy | Broken

  const COLLABORATOR := Overwrite(MemberTarget, {ViewChannel, SendMessages}, {})

  /** Snowflakes with a member-type overwrite. */
  function MemberIds(acl: ACL): set<Id> {
    set id | id in acl && acl[id].kind.MemberTarget?
  }

  /** Two rows for one user in one space. */
  predicate SameSeat(w: World, r: Id, q: Id) {
    r in w.members && q in w.members && w.members[r].space == w.members[q].space && w.members[r].user == w.members[q].user
  }

  /** Two users with one Discord identity. */
  predicate SameAccount(w: World, u: Id, v: Id) {
    u in w.users && v in w.users && w.users[u].discord.Some? && w.users[u].discord == w.users[v].discord
  }

  /** The UNIQUE constraints on space_members and users. */
  ghost predicate Unique(w: World) {
    && (forall r, q :: SameSeat(w, r, q) ==> r == q)
    && (forall u, v :: SameAccount(w, u, v) ==> u == v)
  }

  /** UNIQUE (discord_channel_id). */
  ghost predicate OwnChannels(spaces: map<Id, Space>) {
    forall s, t | s in spaces && t in spaces && s != t ::
      spaces[s].channel.Some? && spaces[t].channel.Some? ==> spaces[s].channel != spaces[t].channel
  }

  /** An unrevoked row of the space whose user has a Discord identity. */
  predicate Backs(w: World, space: Id, row: Id) {
    && row in w.members
    && w.members[row].space == space
    && !w.members[row].revoked
    && w.members[row].user in w.users
    && w.users[w.members[row].user].discord.Some?
  }

  function DiscordOf(w: World, row: Id): Id
    requires row in w.members && w.members[row].user in w.users
    requires w.users[w.members[row].user].discord.Some?
  {
    w.users[w.members[row].user].discord.value
  }

  /** Discord ids the space's rows entitle to an overwrite. */
  function Desired(w: World, space: Id): set<Id> {
    set row | row in w.members && Backs(w, space, row) :: DiscordOf(w, row)
  }

  /** The space's rows that are not revoked, with or without a Discord identity. */
  function ActiveRows(w: World, space: Id): set<Id> {
    set row | row in w.members && w.members[row].space == space && !w.members[row].revoked
  }
}
