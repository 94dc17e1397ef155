/** The client's guild store and the mutation callbacks that write into it. */
module GuildsStore {
  import opened Common
  import opened Permissions
  import opened ChannelStore
  import opened PermissionMirror
  import opened ChannelsService

  lemma {:induction false} ReplaceOf(rows: seq<Overwrite>, row: Overwrite, k: nat)
    requires k < |rows|
    ensures Replace(rows[..k + 1], row)
            == Replace(rows[..k], row) + [if rows[k].targetId != row.targetId then rows[k] else row]
  {
    if k == 0 {
      assert rows[..1] == [rows[0]] && rows[..1][1..] == [] && rows[..0] == [];
    } else {
      assert rows[..k + 1][1..] == rows[1..][..k] && rows[..k][1..] == rows[1..][..k - 1];
      ReplaceOf(rows[1..], row, k - 1);
    }
  }

  lemma {:induction false} HeldRolesAppend(roles: seq<Id>, held: seq<Id>, r: Id)
    ensures HeldRoles(roles + [r], held) == HeldRoles(roles, held) + if r in held then [r] else []
  {
    if roles == [] {
      assert [r][1..] == [] && HeldRoles([], held) == [];
    } else {
      assert (roles + [r])[1..] == roles[1..] + [r];
      HeldRolesAppend(roles[1..], held, r);
    }
  }

  class Store {
    var channels: Copy

    constructor (snapshot: Copy)
      ensures channels == snapshot
    {
      channels := snapshot;
    }

    function GetChannel(channelId: Id): Option<ClientChannel>
      reads this
    {
      if channelId in channels then Some(channels[channelId]) else None
    }

    /** What the client shows a member of a channel, `roles` being the guild's roles as it lists them. */
    method GetEffectivePermission(g: Guild, roles: seq<Id>, member: GuildMember, guildId: Id, channelId: Id)
      returns (permissions: Perms)
      requires channelId in channels
      ensures permissions == ClientPermission(g, roles, channels, member, guildId, channelId)
      ensures g.ownerId == member.userId ==> permissions == ALL_PERMISSIONS
    {
      if g.ownerId == member.userId { return ALL_PERMISSIONS; }
      var held: seq<Id> := [];
      for i := 0 to |roles|
        invariant held == HeldRoles(roles[..i], member.roles)
      {
        assert roles[..i + 1] == roles[..i] + [roles[i]];
        HeldRolesAppend(roles[..i], member.roles, roles[i]);
        if roles[i] in member.roles { held := held + [roles[i]]; }
      }
      assert roles[..|roles|] == roles;
      permissions := AllowAll(g, RolePerms(g, guildId), held);
      var channel := channels[channelId];
      var rows := if channel.isSynced && channel.parent.Some? && channel.parent.value in channels
                  then channels[channel.parent.value].overwrites else channel.overwrites;
      permissions := ApplyChannelOverwritesOnClient(permissions, rows, Subject(member.userId, held, guildId));
    }

    /** A CHANNEL_UPDATE event and the responses to a creation and a sync end here. */
    method UpsertChannel(channelId: Id, dto: ChannelDTO)
      modifies this
      ensures channels == OnChannelDTO(old(channels), channelId, dto)
    {
      if channelId in channels {
        var channel := channels[channelId].(kind := dto.kind, isSynced := dto.isSynced);
        if dto.parent.Some? { channel := channel.(parent := dto.parent); }
        if dto.overwrites.Some? { channel := channel.(overwrites := dto.overwrites.value); }
        channels := channels[channelId := channel];
      } else {
        var rows := if dto.overwrites.Some? then dto.overwrites.value else [];
        channels := channels[channelId := ClientChannel(dto.kind, dto.parent, dto.isSynced, rows)];
      }
    }

    /** `throws` when the copy lacks the parent whose rows are to be taken over; the store's own channel has then
        been marked unsynced already. */
    method OnUpdateOverwriteSuccess(channelId: Id, overwrite: Overwrite) returns (throws: bool)
      modifies this
      ensures throws == UpdateThrows(old(channels), channelId)
      ensures throws <==> channelId in old(channels) && old(channels)[channelId].isSynced
                          && old(channels)[channelId].parent.Some?
                          && old(channels)[channelId].parent.value !in old(channels)
      ensures throws ==> channels == old(channels)[channelId := old(channels)[channelId].(isSynced := false)]
      ensures !throws ==> channels == OnOverwriteUpdated(old(channels), channelId, overwrite)
    {
      throws := false;
      var found := GetChannel(channelId);
      if found.None? { return; }
      var channel := found.value;
      if channel.isSynced && channel.parent.Some? {
        channel := channel.(isSynced := false);
        if channel.parent.value !in channels {
          channels := channels[channelId := channel];
          return true;
        }
        channel := channel.(overwrites := channels[channel.parent.value].overwrites);
      }
      var oldOverwrites := channel.overwrites;
      var k := IndexOf(oldOverwrites, overwrite.targetId);
      assert HasTarget(oldOverwrites, overwrite.targetId) <==> k < |oldOverwrites| by {
        if k < |oldOverwrites| { assert oldOverwrites[k].targetId == overwrite.targetId; }
      }
      if k < |oldOverwrites| {
        var rows: seq<Overwrite> := [];
        for i := 0 to |oldOverwrites|
          invariant channels == old(channels)
          invariant rows == Replace(oldOverwrites[..i], overwrite)
        {
          ReplaceOf(oldOverwrites, overwrite, i);
          rows := rows + [if oldOverwrites[i].targetId != overwrite.targetId then oldOverwrites[i] else overwrite];
        }
        assert oldOverwrites[..|oldOverwrites|] == oldOverwrites;
        channel := channel.(overwrites := rows);
      } else {
        channel := channel.(overwrites := oldOverwrites + [overwrite]);
      }
      channels := channels[channelId := channel];
    }

    method OnDeleteOverwriteSuccess(channelId: Id, targetId: Id)
      modifies this
      ensures channels == OnOverwriteDeleted(old(channels), channelId, targetId)
    {
      var found := GetChannel(channelId);
      if found.None? { return; }
      var channel := found.value;
      var kept: seq<Overwrite> := [];
      for i := 0 to |channel.overwrites|
        invariant channels == old(channels)
        invariant kept == DropTarget(channel.overwrites[..i], targetId)
      {
        DropTargetOf(channel.overwrites, targetId, i);
        if channel.overwrites[i].targetId != targetId { kept := kept + [channel.overwrites[i]]; }
      }
      assert channel.overwrites[..|channel.overwrites|] == channel.overwrites;
      channels := channels[channelId := channel.(overwrites := kept)];
    }

    method DeleteChannel(channelId: Id)
      modifies this
      ensures channels == OnChannelDeleted(old(channels), channelId)
      ensures channels.Keys == old(channels).Keys - {channelId}
      ensures forall x :: x in channels ==>
                var orphaned := channelId in old(channels) && old(channels)[channelId].kind == Category
                                && old(channels)[x].parent == Some(channelId);
                channels[x] == if orphaned then old(channels)[x].(parent := None) else old(channels)[x]
    {
      if channelId !in channels { return; }
      var updated := channels;
      if channels[channelId].kind == Category {
        updated := map x | x in updated ::
                     if updated[x].parent == Some(channelId) then updated[x].(parent := None) else updated[x];
      }
      updated := map x | x in updated && x != channelId :: updated[x];
      channels := updated;
    }
  }
}
