/** The guild service's channel operations as they run: guards, lookups, cloning, saving. */
module ChannelsService {
  import opened Common
  import opened Permissions
  import opened ChannelStore

  /** `find(...)` by target; the length when there is none. */
  function IndexOf(rows: seq<Overwrite>, targetId: Id): (i: nat)
    ensures i <= |rows|
    ensures i < |rows| ==> rows[i].targetId == targetId
    ensures forall k :: 0 <= k < i ==> rows[k].targetId != targetId
  {
    if rows == [] then 0
    else if rows[0].targetId == targetId then 0
    else
      var i := 1 + IndexOf(rows[1..], targetId);
      assert forall k :: 1 <= k < i ==> rows[1..][k - 1] == rows[k];
      i
  }

  /** Saving a row by primary key. */
  function SaveRow(rows: seq<Overwrite>, ow: Overwrite): seq<Overwrite> {
    var i := IndexOf(rows, ow.targetId);
    if i < |rows| then rows[i := ow] else rows + [ow]
  }

  lemma {:induction false} SetRowIsSave(rows: seq<Overwrite>, ow: Overwrite)
    ensures var i := IndexOf(rows, ow.targetId);
            var stored := if i < |rows| then rows[i].(allow := ow.allow, deny := ow.deny) else ow;
            SetRow(rows, ow) == SaveRow(rows, stored) && RowOf(SetRow(rows, ow), ow) == stored
  {
    if rows != [] && rows[0].targetId != ow.targetId {
      SetRowIsSave(rows[1..], ow);
      assert rows == [rows[0]] + rows[1..];
      var i := IndexOf(rows, ow.targetId);
      assert i == 1 + IndexOf(rows[1..], ow.targetId);
    }
  }

  lemma {:induction false} DropTargetOf(rows: seq<Overwrite>, t: Id, k: nat)
    requires k < |rows|
    ensures DropTarget(rows[..k + 1], t)
            == DropTarget(rows[..k], t) + if rows[k].targetId == t then [] else [rows[k]]
  {
    if k == 0 {
      assert rows[..1] == [rows[0]];
      assert rows[..1][1..] == [] && rows[..0] == [];
    } else {
      assert rows[..k + 1][1..] == rows[1..][..k] && rows[..k][1..] == rows[1..][..k - 1];
      DropTargetOf(rows[1..], t, k - 1);
    }
  }

  /** Setting the target in the clone keeps it at its place, or puts it last. */
  lemma CloneKeepsPlace(cloned: seq<Overwrite>, rows: seq<Overwrite>, dto: UpdateRequest)
    requires var k := IndexOf(cloned, dto.targetId);
             rows == if k < |cloned| then cloned[k := cloned[k].(allow := dto.allow, deny := dto.deny)]
                     else cloned + [Overwrite(dto.targetId, dto.targetType, dto.allow, dto.deny)]
    ensures IndexOf(rows, dto.targetId) == IndexOf(cloned, dto.targetId) < |rows|
  {
    var k := IndexOf(cloned, dto.targetId);
    assert rows[k].targetId == dto.targetId;
    assert forall j :: 0 <= j < k ==> rows[j].targetId != dto.targetId;
  }

  class Service {
    var guilds: map<Id, Guild>
    var channels: map<Id, Channel>

    ghost function Database(): Db
      reads this
    {
      Db(guilds, channels)
    }

    ghost predicate Valid()
      reads this
    {
      Good(Database())
    }

    constructor ()
      ensures Valid() && Database() == Db(map[], map[])
    {
      guilds, channels := map[], map[];
    }

    method BasePermissionOf(userId: Id, guildId: Id) returns (perms: Perms)
      ensures perms == BaseIn(Database(), userId, guildId)
    {
      if guildId !in guilds { return {}; }
      perms := GetBasePermission(guilds[guildId], guildId, userId);
    }

    method GetEffectivePermission(userId: Id, guildId: Id, channelId: Id) returns (effective: Perms)
      requires Valid()
      ensures effective == EffectivePermission(Database(), userId, guildId, channelId)
    {
      effective := BasePermissionOf(userId, guildId);
      if channelId !in channels || channels[channelId].guildId != Some(guildId) { return {}; }
      var channel := channels[channelId];
      if channel.ownerId == userId { return; }
      assert GoodChannel(Database(), channelId, channel);
      var memberRoles := if guildId in guilds then MemberRoles(guilds[guildId].members, userId) else [];
      var rows := if channel.isSynced && channel.parentId.Some? then channels[channel.parentId.value].overwrites
                  else channel.overwrites;
      effective := ApplyChannelOverwrites(effective, rows, Subject(userId, memberRoles, guildId));
    }

    method CreateChannel(userId: Id, dto: CreateRequest, newId: Id) returns (r: Result<Channel>)
      requires Valid() && newId !in channels
      modifies this`channels
      ensures Valid() && (Database(), r) == Create(old(Database()), userId, dto, newId)
      ensures r.Success? ==>
                && newId in channels && channels == old(channels)[newId := r.value] && r.value.ownerId == userId
                && (dto.parentId.Some? && dto.isPrivate ==>
                      r.value.overwrites == [Overwrite(dto.guildId.value, Role, {}, VIEW_CHANNELS)])
                && (dto.parentId.None? ==> r.value.overwrites == [Overwrite(dto.guildId.value, Role, {}, {})])
    {
      CreateKeepsGood(Database(), userId, dto, newId);
      if dto.guildId.None? { return Failure(BadRequest); }
      var guildId := dto.guildId.value;
      var effective: Perms;
      if dto.parentId.Some? {
        effective := GetEffectivePermission(userId, guildId, dto.parentId.value);
      } else {
        effective := BasePermissionOf(userId, guildId);
      }
      if !(MANAGE_CHANNELS <= effective) { return Failure(Forbidden); }
      if |dto.name| == 0 { return Failure(BadRequest); }
      var channel := Channel(Some(guildId), userId, dto.kind, dto.parentId, true, []);
      if dto.parentId.None? {
        channel := channel.(isSynced := false, overwrites := [Overwrite(guildId, Role, {}, {})]);
      } else if dto.isPrivate {
        channel := channel.(isSynced := false, overwrites := [Overwrite(guildId, Role, {}, VIEW_CHANNELS)]);
      }
      channels := channels[newId := channel];
      r := Success(channel);
    }

    method DeleteChannel(userId: Id, channelId: Id, byNullId: bool) returns (r: Result<()>)
      requires Valid()
      modifies this`channels
      ensures Valid() && (Database(), r) == Delete(old(Database()), userId, channelId, byNullId)
    {
      DeleteKeepsGood(Database(), userId, channelId, byNullId);
      if channelId !in channels { return Failure(BadRequest); }
      var channel := channels[channelId];
      var granted := byNullId;
      if channel.guildId.Some? && !(channel.isSynced && channel.parentId.None?) {
        var effective := GetEffectivePermission(userId, channel.guildId.value,
                                                if channel.isSynced then channel.parentId.value else channelId);
        granted := MANAGE_CHANNELS <= effective;
      }
      if !granted { return Failure(Forbidden); }
      channels := map c | c in channels && c != channelId ::
                    if channels[c].parentId == Some(channelId) then channels[c].(parentId := None) else channels[c];
      r := Success(());
    }

    /** `save(rows)`: one row after the other, by primary key. */
    method SaveRows(table: seq<Overwrite>, rows: seq<Overwrite>) returns (saved: seq<Overwrite>)
      requires table == [] && UniqueTargets(rows)
      ensures saved == rows
    {
      saved := table;
      for i := 0 to |rows|
        invariant saved == rows[..i]
      {
        assert IndexOf(saved, rows[i].targetId) == |saved|;
        saved := SaveRow(saved, rows[i]);
        assert rows[..i + 1] == rows[..i] + [rows[i]];
      }
    }

    /** Desyncing: the parent's rows are cloned, the target is set in the clone, and the clones are saved. */
    method CloneRows(channel: Channel, dto: UpdateRequest) returns (rows: seq<Overwrite>)
      requires Valid() && channel.overwrites == [] && channel.parentId.Some? && channel.parentId.value in channels
      ensures var cloned := channels[channel.parentId.value].overwrites;
              var k := IndexOf(cloned, dto.targetId);
              rows == if k < |cloned| then cloned[k := cloned[k].(allow := dto.allow, deny := dto.deny)]
                      else cloned + [Overwrite(dto.targetId, dto.targetType, dto.allow, dto.deny)]
    {
      assert GoodChannel(Database(), channel.parentId.value, channels[channel.parentId.value]);
      var cloned := channels[channel.parentId.value].overwrites;
      var i := IndexOf(cloned, dto.targetId);
      if i < |cloned| {
        cloned := cloned[i := cloned[i].(allow := dto.allow, deny := dto.deny)];
      } else {
        cloned := cloned + [Overwrite(dto.targetId, dto.targetType, dto.allow, dto.deny)];
      }
      rows := SaveRows(channel.overwrites, cloned);
    }

    /** The stored outcome of either path, before cleaning, is the row at the target's place. */
    method Prepare(channel: Channel, dto: UpdateRequest) returns (rows: seq<Overwrite>, overwrite: Overwrite)
      requires Valid() && dto.channelId in channels && channel == channels[dto.channelId]
      ensures overwrite.targetId == dto.targetId && overwrite.allow == dto.allow && overwrite.deny == dto.deny
      ensures var clean := Cleaned(dto);
              SaveRow(rows, overwrite.(allow := clean.allow, deny := clean.deny))
              == SetRow(RowsInForce(Database(), channel), clean)
      ensures RowOf(SetRow(RowsInForce(Database(), channel), Cleaned(dto)), Cleaned(dto))
              == overwrite.(allow := Cleaned(dto).allow, deny := Cleaned(dto).deny)
    {
      assert GoodChannel(Database(), dto.channelId, channel);
      ghost var inForce := RowsInForce(Database(), channel);
      SetRowIsSave(inForce, Cleaned(dto));
      rows := channel.overwrites;
      if channel.isSynced && channel.parentId.Some? {
        rows := CloneRows(channel, dto);
        CloneKeepsPlace(inForce, rows, dto);
        overwrite := rows[IndexOf(rows, dto.targetId)];
      } else {
        var k := IndexOf(rows, dto.targetId);
        overwrite := if k < |rows| then rows[k] else Overwrite(dto.targetId, dto.targetType, {}, {});
        overwrite := overwrite.(allow := dto.allow, deny := dto.deny);
      }
    }

    /** Cloned or not, the row is cleaned and saved once more; the outcome is the rows in force with one row
        set. */
    method UpdateChannelPermissionOverwrite(dto: UpdateRequest) returns (r: Result<Overwrite>)
      requires Valid()
      modifies this`channels
      ensures Valid() && (Database(), r) == UpdateOverwrite(old(Database()), dto)
      ensures r.Success? ==>
                dto.channelId in old(channels) && old(channels)[dto.channelId].guildId.Some?
                && MANAGE_CHANNELS <= EffectivePermission(old(Database()), dto.userId,
                                                          old(channels)[dto.channelId].guildId.value, dto.channelId)
    {
      UpdateKeepsGood(Database(), dto);
      if dto.channelId !in channels { return Failure(BadRequest); }
      var channel := channels[dto.channelId];
      if channel.guildId.None? { return Failure(BadRequest); }
      var guildId := channel.guildId.value;
      var effective := GetEffectivePermission(dto.userId, guildId, dto.channelId);
      if !(MANAGE_CHANNELS <= effective) { return Failure(Forbidden); }
      assert GoodChannel(Database(), dto.channelId, channel);
      if !TargetExists(guilds[guildId], dto) { return Failure(BadRequest); }
      var rows, overwrite := Prepare(channel, dto);
      var synced := channel.isSynced && channel.parentId.None?;
      var cleanedAllow := AsInt32(dto.allow) - AsInt32(dto.deny);
      var cleanedDeny := AsInt32(dto.deny) - AsInt32(dto.allow);
      overwrite := overwrite.(allow := cleanedAllow, deny := cleanedDeny);
      channels := channels[dto.channelId := channel.(isSynced := synced, overwrites := SaveRow(rows, overwrite))];
      r := Success(overwrite);
    }

    method SyncChannel(userId: Id, channelId: Id) returns (r: Result<()>)
      requires Valid()
      modifies this`channels
      ensures Valid() && (Database(), r) == Sync(old(Database()), userId, channelId)
      ensures r.Success? ==>
                channelId in old(channels) && old(channels)[channelId].guildId.Some?
                && MANAGE_CHANNELS <= EffectivePermission(old(Database()), userId,
                                                          old(channels)[channelId].guildId.value, channelId)
    {
      SyncKeepsGood(Database(), userId, channelId);
      if channelId !in channels { return Failure(BadRequest); }
      var channel := channels[channelId];
      if channel.guildId.None? { return Failure(BadRequest); }
      if channel.parentId.None? { return Failure(BadRequest); }
      var effective := GetEffectivePermission(userId, channel.guildId.value, channelId);
      if !(MANAGE_CHANNELS <= effective) { return Failure(Forbidden); }
      channel := channel.(isSynced := true);
      channel := channel.(overwrites := []);
      channels := channels[channelId := channel];
      r := Success(());
    }

    method DeleteChannelPermissionOverwrite(channelId: Id, targetId: Id, userId: Id) returns (r: Result<()>)
      requires Valid()
      modifies this`channels
      ensures Valid() && (Database(), r) == DeleteOverwrite(old(Database()), userId, channelId, targetId)
      ensures r.Success? ==>
                channelId in old(channels) && old(channels)[channelId].guildId.Some?
                && MANAGE_ROLES <= EffectivePermission(old(Database()), userId,
                                                       old(channels)[channelId].guildId.value, channelId)
    {
      DeleteOverwriteKeepsGood(Database(), userId, channelId, targetId);
      if channelId !in channels { return Failure(BadRequest); }
      var channel := channels[channelId];
      if channel.guildId.None? { return Failure(BadRequest); }
      var found := IndexOf(channel.overwrites, targetId);
      assert HasTarget(channel.overwrites, targetId) <==> found < |channel.overwrites| by {
        if found < |channel.overwrites| { assert channel.overwrites[found].targetId == targetId; }
      }
      if found == |channel.overwrites| { return Failure(BadRequest); }
      var effective := GetEffectivePermission(userId, channel.guildId.value, channelId);
      if !(MANAGE_ROLES <= effective) { return Failure(Forbidden); }
      if channel.guildId == Some(targetId) { return Failure(BadRequest); }
      var kept: seq<Overwrite> := [];
      for i := 0 to |channel.overwrites|
        invariant Database() == old(Database())
        invariant kept == DropTarget(channel.overwrites[..i], targetId)
      {
        DropTargetOf(channel.overwrites, targetId, i);
        if channel.overwrites[i].targetId != targetId { kept := kept + [channel.overwrites[i]]; }
      }
      assert channel.overwrites[..|channel.overwrites|] == channel.overwrites;
      channels := channels[channelId := channel.(overwrites := kept)];
      r := Success(());
    }
  }
}
