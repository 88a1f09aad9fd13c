/** The store methods of internal/store/postgres the workers call, as operations on tables. */
module Postgres {
  import opened Wrappers
  import opened Domain

  class Store {
    var spaces: map<Id, Space>
    var members: map<Id, Member>
    var users: map<Id, User>
    var audit: multiset<AuditEntry>
    var jobs: map<Id, JobStatus>           // most recent provision job, by space
    var lifecycleJobs: map<Id, JobStatus>  // most recent lifecycle job, by space

    constructor ()
      ensures spaces == map[] && members == map[] && users == map[] && audit == multiset{}
      ensures jobs == map[] && lifecycleJobs == map[]
    {
      spaces, members, users, audit, jobs, lifecycleJobs := map[], map[], map[], multiset{}, map[], map[];
    }

    /** GetJobBySpaceIDAndKind, then UpdateJobStatus; neither failure is reported. */
    method TransitionJob(space: Id, status: JobStatus, o: Outcome)
      modifies this`jobs
      ensures jobs == if o.Effective() && space in old(jobs) then old(jobs)[space := status] else old(jobs)
    {
      if o.Effective() && space in jobs {
        jobs := jobs[space := status];
      }
    }

    /** The same for the space's lifecycle job. */
    method AdvanceJob(space: Id, status: JobStatus, o: Outcome)
      modifies this`lifecycleJobs
      ensures lifecycleJobs == if o.Effective() && space in old(lifecycleJobs)
                               then old(lifecycleJobs)[space := status] else old(lifecycleJobs)
    {
      if o.Effective() && space in lifecycleJobs {
        lifecycleJobs := lifecycleJobs[space := status];
      }
    }

    /** UPDATE space_members SET overwrite_applied = TRUE. */
    method SetSpaceMemberOverwriteApplied(id: Id, o: Outcome) returns (ok: bool)
      modifies this`members
      ensures ok == (o.Seen() && id in members)
      ensures members == if o.Effective() && id in old(members)
                         then old(members)[id := old(members)[id].(overwriteApplied := true)] else old(members)
    {
      if o.Effective() && id in members {
        members := members[id := members[id].(overwriteApplied := true)];
      }
      ok := o.Seen() && id in members;
    }

    /** UPDATE space_members SET revoked_at = now(). */
    method RevokeSpaceMember(id: Id, o: Outcome) returns (ok: bool)
      modifies this`members
      ensures ok == (o.Seen() && id in members)
      ensures members == if o.Effective() && id in old(members)
                         then old(members)[id := old(members)[id].(revoked := true)] else old(members)
    {
      if o.Effective() && id in members {
        members := members[id := members[id].(revoked := true)];
      }
      ok := o.Seen() && id in members;
    }

    method InsertAuditEntry(entry: AuditEntry, o: Outcome)
      modifies this`audit
      ensures audit == if o.Effective() then old(audit) + multiset{entry} else old(audit)
    {
      if o.Effective() {
        audit := audit + multiset{entry};
      }
    }

    /** UPDATE spaces SET acl_state. */
    method UpdateSpaceACLState(id: Id, acl: ACLState, o: Outcome) returns (ok: bool)
      modifies this`spaces
      ensures ok == (o.Seen() && id in spaces)
      ensures spaces == if o.Effective() && id in old(spaces)
                        then old(spaces)[id := old(spaces)[id].(acl := acl)] else old(spaces)
    {
      if o.Effective() && id in spaces {
        spaces := spaces[id := spaces[id].(acl := acl)];
      }
      ok := o.Seen() && id in spaces;
    }

    /** UPDATE spaces SET lifecycle_state. */
    method UpdateSpaceLifecycle(id: Id, lifecycle: Lifecycle, o: Outcome) returns (ok: bool)
      modifies this`spaces
      ensures ok == (o.Seen() && id in spaces)
      ensures spaces == if o.Effective() && id in old(spaces)
                        then old(spaces)[id := old(spaces)[id].(lifecycle := lifecycle)] else old(spaces)
    {
      if o.Effective() && id in spaces {
        spaces := spaces[id := spaces[id].(lifecycle := lifecycle)];
      }
      ok := o.Seen() && id in spaces;
    }

    /** UPDATE spaces SET discord_channel_id, discord_category_id (kept when absent), acl_state. */
    method UpdateSpaceDiscordChannel(id: Id, channel: Id, category: Option<Id>, acl: ACLState, o: Outcome)
      returns (ok: bool)
      modifies this`spaces
      ensures ok == (o.Seen() && id in spaces)
      ensures spaces == if o.Effective() && id in old(spaces)
                        then old(spaces)[id := old(spaces)[id].(channel := Some(channel), acl := acl,
                               category := if category.None? then old(spaces)[id].category else category)]
                        else old(spaces)
    {
      if o.Effective() && id in spaces {
        var sp := spaces[id];
        spaces := spaces[id := sp.(channel := Some(channel),
                                   category := if category.Some? then category else sp.category,
                                   acl := acl)];
      }
      ok := o.Seen() && id in spaces;
    }
  }

  function MovedJob(jobs: map<Id, JobStatus>, space: Id, status: JobStatus, o: Outcome): map<Id, JobStatus> {
    if o.Effective() && space in jobs then jobs[space := status] else jobs
  }

  function Stamped(sp: Space, channel: Id, category: Option<Id>, acl: ACLState): Space {
    sp.(channel := Some(channel), category := if category.Some? then category else sp.category, acl := acl)
  }
}
