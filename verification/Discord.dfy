/** The calls of internal/discord that write overwrites, on one guild's channels and categories. */
module Discord {
  import opened Wrappers
  import opened Domain

  type Channels = map<Id, ACL>

  /** ChannelPermissionSet. */
  function SetOverwrite(c: Channels, channel: Id, id: Id, ow: Overwrite): Channels {
    if channel in c then c[channel := c[channel][id := ow]] else c
  }

  /** ChannelPermissionDelete: whatever stands under this snowflake goes. */
  function DeleteOverwrite(c: Channels, channel: Id, id: Id): Channels {
    if channel in c then c[channel := c[channel] - {id}] else c
  }

  /** A new channel whose only overwrite is the @everyone deny in its create payload. */
  function BornDenied(everyone: Id): ACL {
    map[everyone := Overwrite(RoleTarget, {}, {ViewChannel})]
  }

  const AGENT_ALLOW := Overwrite(RoleTarget, {ViewChannel}, {})
  const ARCHIVE_DENY := Overwrite(RoleTarget, {}, {ViewChannel, SendMessages})

  class Session {
    var channels: Channels
    var guild: set<Id>  // users in the guild

    constructor ()
      ensures channels == map[] && guild == {}
    {
      channels, guild := map[], {};
    }

    /** `newId` is the snowflake Discord hands out. */
    method CreateChannelDenied(newId: Id, everyone: Id, o: Outcome) returns (ok: bool)
      modifies this`channels
      ensures ok == o.Seen()
      ensures channels == if o.Effective() then old(channels)[newId := BornDenied(everyone)] else old(channels)
    {
      if o.Effective() {
        channels := channels[newId := map[everyone := Overwrite(RoleTarget, {}, {ViewChannel})]];
      }
      ok := o.Seen();
    }

    method Set(channel: Id, id: Id, ow: Overwrite, o: Outcome) returns (ok: bool)
      modifies this`channels
      ensures ok == (o.Seen() && channel in channels)
      ensures channels == if o.Effective() then SetOverwrite(old(channels), channel, id, ow) else old(channels)
    {
      if o.Effective() && channel in channels {
        channels := channels[channel := channels[channel][id := ow]];
      }
      ok := o.Seen() && channel in channels;
    }

    method ApplyCategoryAgentAllow(category: Id, role: Id, o: Outcome) returns (ok: bool)
      modifies this`channels
      ensures ok == (o.Seen() && category in channels)
      ensures channels == if o.Effective() then SetOverwrite(old(channels), category, role, AGENT_ALLOW) else old(channels)
    {
      ok := Set(category, role, Overwrite(RoleTarget, {ViewChannel}, {}), o);
    }

    method SetCollaboratorOverwrite(channel: Id, user: Id, o: Outcome) returns (ok: bool)
      modifies this`channels
      ensures ok == (o.Seen() && channel in channels)
      ensures channels == if o.Effective() then SetOverwrite(old(channels), channel, user, COLLABORATOR) else old(channels)
    {
      ok := Set(channel, user, Overwrite(MemberTarget, {ViewChannel, SendMessages}, {}), o);
    }

    method DeleteCollaboratorOverwrite(channel: Id, user: Id, o: Outcome) returns (ok: bool)
      modifies this`channels
      ensures ok == (o.Seen() && channel in channels)
      ensures channels == if o.Effective() then DeleteOverwrite(old(channels), channel, user) else old(channels)
    {
      if o.Effective() && channel in channels {
        channels := channels[channel := channels[channel] - {user}];
      }
      ok := o.Seen() && channel in channels;
    }

    method ArchiveChannel(channel: Id, everyone: Id, o: Outcome) returns (ok: bool)
      modifies this`channels
      ensures ok == (o.Seen() && channel in channels)
      ensures channels == if o.Effective() then SetOverwrite(old(channels), channel, everyone, ARCHIVE_DENY) else old(channels)
    {
      ok := Set(channel, everyone, Overwrite(RoleTarget, {}, {ViewChannel, SendMessages}), o);
    }

    /** Deletes the @everyone overwrite; nothing puts the creation deny back. */
    method UnarchiveChannel(channel: Id, everyone: Id, o: Outcome) returns (ok: bool)
      modifies this`channels
      ensures ok == (o.Seen() && channel in channels)
      ensures channels == if o.Effective() then DeleteOverwrite(old(channels), channel, everyone) else old(channels)
    {
      ok := DeleteCollaboratorOverwrite(channel, everyone, o);
    }

    method AddGuildMember(user: Id, o: Outcome) returns (ok: bool)
      modifies this`guild
      ensures ok == o.Seen()
      ensures guild == if o.Effective() then old(guild) + {user} else old(guild)
    {
      if o.Effective() {
        guild := guild + {user};
      }
      ok := o.Seen();
    }

    method RemoveGuildMember(user: Id, o: Outcome) returns (ok: bool)
      modifies this`guild
      ensures ok == o.Seen()
      ensures guild == if o.Effective() then old(guild) - {user} else old(guild)
    {
      if o.Effective() {
        guild := guild - {user};
      }
      ok := o.Seen();
    }
  }
}
