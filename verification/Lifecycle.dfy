/** The change_lifecycle handler of internal/worker. */
module LifecycleChange {
  import opened Wrappers
  import opened Domain
  import P = Postgres
  import D = Discord

  datatype Faults = Faults(startJob: Outcome, spaceFails: bool, discord: Outcome, persist: Outcome, audit: Outcome,
                           endJob: Outcome)

  function ActionToTargetState(action: string): Option<Lifecycle> {
    if action == "open" || action == "reopen" then Some(Active)
    else if action == "resolve" then Some(Resolved)
    else if action == "archive" then Some(Archived)
    else None
  }

  /** The Discord side of an action; the caller sees whether it succeeded. */
  function Projected(c: D.Channels, channel: Id, action: string, everyone: Id, o: Outcome): (D.Channels, bool) {
    if action == "resolve" then (c, true)
    else if !o.Effective() then (c, false)
    else if action == "archive" then (D.SetOverwrite(c, channel, everyone, D.ARCHIVE_DENY), o.Seen() && channel in c)
    else (D.DeleteOverwrite(c, channel, everyone), o.Seen() && channel in c)
  }

  /** Why a run ends before it touches Discord. */
  function Stops(w: World, space: Id, action: string, f: Faults): Option<Verdict> {
    if space == "" || action == "" then Some(SkipRetry)
    else if f.spaceFails || space !in w.spaces then Some(Retry)
    else if ActionToTargetState(action).None? then Some(SkipRetry)
    else None
  }

  function Discorded(w: World, space: Id, action: string, everyone: Id, f: Faults): (D.Channels, bool)
    requires space in w.spaces
  {
    if w.spaces[space].channel.None? then (w.channels, true)
    else Projected(w.channels, w.spaces[space].channel.value, action, everyone, f.discord)
  }

  function Persisted(spaces: map<Id, Space>, space: Id, to: Lifecycle, o: Outcome): map<Id, Space>
    requires space in spaces
  {
    if o.Effective() then spaces[space := spaces[space].(lifecycle := to)] else spaces
  }

  /** One run of the handler: the row follows only when Discord did not refuse. */
  function Change(w: World, space: Id, action: string, everyone: Id, f: Faults): (World, Verdict) {
    var stop := Stops(w, space, action, f);
    if stop.Some? then (w, stop.value)
    else
      var d := Discorded(w, space, action, everyone, f);
      if !d.1 then (w.(channels := d.0), Retry)
      else (w.(channels := d.0, spaces := Persisted(w.spaces, space, ActionToTargetState(action).value, f.persist)),
            if f.persist.Seen() then Success else Retry)
  }

  /** The job row is active while a run lasts; a run that is to be retried ends it as archived, too. */
  function JobAfter(jobs: map<Id, JobStatus>, space: Id, action: string, v: Verdict, f: Faults): map<Id, JobStatus> {
    if space == "" || action == "" then jobs
    else P.MovedJob(P.MovedJob(jobs, space, JobActive, f.startJob),
                    space, if v == Success then JobCompleted else JobArchived, f.endJob)
  }

  /** What each action asks for. */
  predicate Asks(action: string, to: Lifecycle) {
    match to
    case Active => action == "open" || action == "reopen"
    case Resolved => action == "resolve"
    case Archived => action == "archive"
  }

  lemma KnownIff(action: string)
    ensures ActionToTargetState(action).Some? <==> exists to :: Asks(action, to)
    ensures ActionToTargetState(action).Some? ==> Asks(action, ActionToTargetState(action).value)
  {
    if ActionToTargetState(action).Some? {
      assert Asks(action, ActionToTargetState(action).value);
    }
  }

  /** A run succeeds exactly when it reads its space, knows the action, and both Discord, where there is
      a channel and something to change on it, and Postgres confirm; the row then says what was asked. */
  lemma SucceedsIff(w: World, space: Id, action: string, everyone: Id, f: Faults)
    ensures var r := Change(w, space, action, everyone, f);
      && (r.1 == Success <==>
            && space != "" && !f.spaceFails && space in w.spaces && (exists to :: Asks(action, to)) && f.persist == Done
            && (w.spaces[space].channel.None? || action == "resolve"
                || (f.discord == Done && w.spaces[space].channel.value in w.channels)))
      && (r.1 == Success ==> space in r.0.spaces && Asks(action, r.0.spaces[space].lifecycle))
      && (r.1 == SkipRetry <==>
            space == "" || action == "" || (!f.spaceFails && space in w.spaces && forall to :: !Asks(action, to)))
  {
    KnownIff(action);
  }

  /** Whatever fails, the row's lifecycle is what was asked or what it was, and nothing else in Postgres
      changes; it is what it was unless Discord has confirmed. */
  lemma RowFollowsDiscord(w: World, space: Id, action: string, everyone: Id, f: Faults)
    ensures var after := Change(w, space, action, everyone, f).0;
      && after.members == w.members && after.users == w.users && after.spaces.Keys == w.spaces.Keys
      && (forall s :: s in w.spaces && s != space ==> after.spaces[s] == w.spaces[s])
      && (space in w.spaces ==>
            && after.spaces[space] == w.spaces[space].(lifecycle := after.spaces[space].lifecycle)
            && (Asks(action, after.spaces[space].lifecycle) || after.spaces[space] == w.spaces[space])
            && (f.persist == Rejected || (w.spaces[space].channel.Some? && action != "resolve" && f.discord != Done) ==>
                  after.spaces[space] == w.spaces[space]))
  {
  }

  /** On a channel that an action reaches, archiving leaves @everyone an overwrite that denies viewing
      and writing, opening leaves @everyone none, resolving changes nothing; no other overwrite changes. */
  lemma ChannelFollowsAction(w: World, space: Id, action: string, everyone: Id, f: Faults, channel: Id, to: Lifecycle)
    requires space != "" && !f.spaceFails && space in w.spaces && Asks(action, to)
    requires w.spaces[space].channel == Some(channel) && channel in w.channels
    ensures var after := Change(w, space, action, everyone, f).0.channels;
      && after.Keys == w.channels.Keys && (forall c :: c in after && c != channel ==> after[c] == w.channels[c])
      && (forall d :: d != everyone ==> (d in after[channel] <==> d in w.channels[channel]))
      && (forall d :: d != everyone && d in after[channel] ==> after[channel][d] == w.channels[channel][d])
      && (f.discord == Rejected || to == Resolved ==> after == w.channels)
      && (f.discord != Rejected && to == Archived ==>
            everyone in after[channel] && after[channel][everyone] == Overwrite(RoleTarget, {}, {ViewChannel, SendMessages}))
      && (f.discord != Rejected && to == Active ==> everyone !in after[channel])
  {
    KnownIff(action);
    var before, c := w.channels, Projected(w.channels, channel, action, everyone, f.discord).0;
    assert Change(w, space, action, everyone, f).0.channels == c;
    assert to == Archived <==> action == "archive";
    assert to == Resolved <==> action == "resolve";
  }

  /** The job row of a run that names a space and an action ends completed if the run succeeds and
      archived if it does not; if that update is lost on the way there, it stays active. */
  lemma JobTellsSuccess(jobs: map<Id, JobStatus>, space: Id, action: string, v: Verdict, f: Faults)
    requires space in jobs && space != "" && action != ""
    ensures var after := JobAfter(jobs, space, action, v, f);
      && after.Keys == jobs.Keys && (forall s :: s in jobs && s != space ==> after[s] == jobs[s])
      && (f.endJob != Rejected ==> after[space] == if v == Success then JobCompleted else JobArchived)
      && (f.endJob == Rejected ==> after[space] == if f.startJob == Rejected then jobs[space] else JobActive)
  {
  }

  class Handler {
    const store: P.Store
    const discord: D.Session
    const everyone: Id

    constructor (store: P.Store, discord: D.Session, guild: Id, everyone: Id)
      ensures this.store == store && this.discord == discord
      ensures this.everyone == if everyone == "" then guild else everyone
    {
      this.store, this.discord := store, discord;
      this.everyone := if everyone == "" then guild else everyone;
    }

    ghost function Now(): World
      reads this, store, discord
    {
      World(store.spaces, store.members, store.users, discord.channels)
    }

    method ApplyDiscordChange(channel: Id, action: string, o: Outcome) returns (ok: bool)
      requires ActionToTargetState(action).Some?
      modifies discord`channels
      ensures (discord.channels, ok) == Projected(old(discord.channels), channel, action, everyone, o)
    {
      match action {
        case "archive" => ok := discord.ArchiveChannel(channel, everyone, o);
        case "reopen" => ok := discord.UnarchiveChannel(channel, everyone, o);
        case "open" => ok := discord.UnarchiveChannel(channel, everyone, o);
        case _ => ok := true;
      }
    }

    method Handle(space: Id, action: string, f: Faults) returns (v: Verdict)
      modifies discord`channels, store`spaces, store`audit, store`lifecycleJobs
      ensures (Now(), v) == Change(old(Now()), space, action, everyone, f)
      ensures store.audit == if v == Success && f.audit.Effective()
                             then old(store.audit) + multiset{AuditEntry("space.lifecycle." + action, space, action)}
                             else old(store.audit)
      ensures store.lifecycleJobs == JobAfter(old(store.lifecycleJobs), space, action, v, f)
    {
      if space == "" || action == "" {
        return SkipRetry;
      }
      store.AdvanceJob(space, JobActive, f.startJob);
      if f.spaceFails || space !in store.spaces {
        store.AdvanceJob(space, JobArchived, f.endJob);
        return Retry;
      }
      var sp := store.spaces[space];
      var target := ActionToTargetState(action);
      if target.None? {
        store.AdvanceJob(space, JobArchived, f.endJob);
        return SkipRetry;
      }
      if sp.channel.Some? {
        var ok := ApplyDiscordChange(sp.channel.value, action, f.discord);
        if !ok {
          store.AdvanceJob(space, JobArchived, f.endJob);
          return Retry;
        }
      }
      var ok := store.UpdateSpaceLifecycle(space, target.value, f.persist);
      if !ok {
        store.AdvanceJob(space, JobArchived, f.endJob);
        return Retry;
      }
      store.InsertAuditEntry(AuditEntry("space.lifecycle." + action, space, action), f.audit);
      store.AdvanceJob(space, JobCompleted, f.endJob);
      v := Success;
    }
  }
}
