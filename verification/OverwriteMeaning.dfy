/** What changes to the overwrite store mean for the permissions users end up with. */
module OverwriteMeaning {
  import opened Common
  import opened Permissions
  import opened ChannelStore

  lemma RowsInForceGood(db: Db, c: Id)
    requires Good(db) && c in db.channels
    ensures GoodRows(RowsInForce(db, db.channels[c]))
  {
    var ch := db.channels[c];
    assert GoodChannel(db, c, ch);
    if ch.parentId.Some? { assert GoodChannel(db, ch.parentId.value, db.channels[ch.parentId.value]); }
  }

  /** Rows of other targets are in force after the update exactly when they were before. */
  lemma UpdateKeepsOtherRows(db: Db, dto: UpdateRequest, r: Overwrite)
    requires Good(db) && UpdateOverwrite(db, dto).1.Success? && r.targetId != dto.targetId
    ensures var db' := UpdateOverwrite(db, dto).0;
            r in RowsInForce(db', db'.channels[dto.channelId]) <==> r in RowsInForce(db, db.channels[dto.channelId])
  {
    RowsInForceGood(db, dto.channelId);
    SetRowSpec(RowsInForce(db, db.channels[dto.channelId]), Cleaned(dto));
  }

  ghost predicate SyncedTo(db: Db, x: Id, parent: Id) {
    x in db.channels && db.channels[x].isSynced && db.channels[x].parentId == Some(parent)
  }

  ghost predicate SyncedToSome(db: Db, x: Id) {
    x in db.channels && db.channels[x].isSynced && db.channels[x].parentId.Some?
  }

  /** A channel that takes its rows from one that takes them from its own parent. */
  ghost predicate SyncedTwice(db: Db, x: Id, c: Id) {
    SyncedTo(db, x, c) && SyncedToSome(db, c)
  }

  /** Setting one target's overwrite changes nothing for anyone the target's row does not address: not
      on the channel itself, synced or not, and not on any other. The one exception is a channel that
      sits synced under a channel that was itself synced to a parent, which categories never are. */
  lemma UpdateSparesOthers(db: Db, dto: UpdateRequest, userId: Id, guildId: Id, x: Id)
    requires Good(db) && UpdateOverwrite(db, dto).1.Success?
    requires !SyncedTwice(db, x, dto.channelId)
    requires !Addresses(UpdateOverwrite(db, dto).1.value, SubjectOf(db, userId, guildId))
    ensures EffectivePermission(UpdateOverwrite(db, dto).0, userId, guildId, x)
            == EffectivePermission(db, userId, guildId, x)
  {
    var db', s := UpdateOverwrite(db, dto).0, SubjectOf(db, userId, guildId);
    if x in db.channels {
      StepKeepsGood(db, OpUpdate(dto));
      assert db' == Step(db, OpUpdate(dto));
      RowsInForceGood(db, x);
      RowsInForceGood(db', x);
      forall r | Addresses(r, s)
        ensures r in RowsInForce(db, db.channels[x]) <==> r in RowsInForce(db', db'.channels[x])
      {
        AddressingRowsStay(db, dto, s, x, r);
      }
      UnaddressedRowsAreIgnored(BaseIn(db, userId, guildId), RowsInForce(db, db.channels[x]),
                                RowsInForce(db', db'.channels[x]), s);
    }
  }

  /** Where parents are top-level categories there is no such exception. */
  lemma UpdateSparesEverybodyElse(db: Db, dto: UpdateRequest, userId: Id, guildId: Id, x: Id)
    requires Good(db) && Tidy(db) && UpdateOverwrite(db, dto).1.Success?
    requires !Addresses(UpdateOverwrite(db, dto).1.value, SubjectOf(db, userId, guildId))
    ensures EffectivePermission(UpdateOverwrite(db, dto).0, userId, guildId, x)
            == EffectivePermission(db, userId, guildId, x)
  {
    if SyncedTo(db, x, dto.channelId) { assert db.channels[dto.channelId].kind == Category; }
    UpdateSparesOthers(db, dto, userId, guildId, x);
  }

  /** There the update gives the upper channel rows of its own, and with them the lower one, which had none in
      force. Whoever did not make the lower channel is spared exactly when every tier that decides a bit in the
      new rows says of it what the user's roles say. */
  lemma NestedUpdateSparesIff(db: Db, dto: UpdateRequest, userId: Id, guildId: Id, x: Id)
    requires Good(db) && UpdateOverwrite(db, dto).1.Success? && SyncedTwice(db, x, dto.channelId)
    requires db.channels[x].guildId == Some(guildId)
    ensures EffectivePermission(UpdateOverwrite(db, dto).0, userId, guildId, x)
            == EffectivePermission(db, userId, guildId, x)
            <==>
            (var s, base := SubjectOf(db, userId, guildId), BaseIn(db, userId, guildId);
             var rows := SetRow(RowsInForce(db, db.channels[dto.channelId]), Cleaned(dto));
             || userId == db.channels[x].ownerId
             || forall b, tier :: Decides(rows, tier, s, b) ==> (Allows(rows, tier, s, b) <==> b in base))
  {
    var c, db' := dto.channelId, UpdateOverwrite(db, dto).0;
    var s, base := SubjectOf(db, userId, guildId), BaseIn(db, userId, guildId);
    var rows := SetRow(RowsInForce(db, db.channels[c]), Cleaned(dto));
    assert GoodChannel(db, c, db.channels[c]) && GoodChannel(db, x, db.channels[x]);
    assert RowsInForce(db, db.channels[x]) == [] && RowsInForce(db', db'.channels[x]) == rows;
    RowsInForceGood(db, c);
    SetRowSpec(RowsInForce(db, db.channels[c]), Cleaned(dto));
    EffectiveIsBaseIff(base, rows, s);
    NoRowsKeepBase(base, s);
  }

  lemma NoRowsKeepBase(base: Perms, s: Subject)
    ensures Effective(base, [], s) == base
  {
  }

  /** So the exact condition for anyone the row does not address, on any channel. */
  lemma UpdateSparesOthersIff(db: Db, dto: UpdateRequest, userId: Id, guildId: Id, x: Id)
    requires Good(db) && UpdateOverwrite(db, dto).1.Success?
    requires !Addresses(UpdateOverwrite(db, dto).1.value, SubjectOf(db, userId, guildId))
    ensures EffectivePermission(UpdateOverwrite(db, dto).0, userId, guildId, x)
            == EffectivePermission(db, userId, guildId, x)
            <==>
            (var s, base := SubjectOf(db, userId, guildId), BaseIn(db, userId, guildId);
             var rows := SetRow(RowsInForce(db, db.channels[dto.channelId]), Cleaned(dto));
             || !SyncedTwice(db, x, dto.channelId) || !InGuild(db, guildId, x) || userId == db.channels[x].ownerId
             || forall b, tier :: Decides(rows, tier, s, b) ==> (Allows(rows, tier, s, b) <==> b in base))
  {
    if !SyncedTwice(db, x, dto.channelId) {
      UpdateSparesOthers(db, dto, userId, guildId, x);
    } else if InGuild(db, guildId, x) {
      NestedUpdateSparesIff(db, dto, userId, guildId, x);
    }
  }

  // A category closed to @everyone, a text channel synced to it, and another text channel synced to that one.
  const TWICE_GUILD := Guild(9, map[1 := VIEW_CHANNELS], [GuildMember(8, []), GuildMember(9, [])])
  const TWICE_CLOSED := [Overwrite(1, Role, {}, VIEW_CHANNELS)]
  const TWICE_DB := Db(map[1 := TWICE_GUILD], map[2 := Channel(Some(1), 9, Category, None, false, TWICE_CLOSED),
                                                  3 := Channel(Some(1), 9, Text, Some(2), true, []),
                                                  4 := Channel(Some(1), 9, Text, Some(3), true, [])])
  const TWICE_DTO := UpdateRequest(9, 3, 9, Member, {}, {})

  lemma TwiceIsGood()
    ensures Good(TWICE_DB) && SyncedTwice(TWICE_DB, 4, 3)
  {
    assert GoodChannel(TWICE_DB, 2, TWICE_DB.channels[2]);
    assert GoodChannel(TWICE_DB, 3, TWICE_DB.channels[3]);
    assert GoodChannel(TWICE_DB, 4, TWICE_DB.channels[4]);
  }

  lemma TwiceSucceeds()
    ensures UpdateOverwrite(TWICE_DB, TWICE_DTO).1.Success?
    ensures UpdateOverwrite(TWICE_DB, TWICE_DTO).1.value == Overwrite(9, Member, {}, {})
    ensures SetRow(TWICE_CLOSED, Cleaned(TWICE_DTO)) == TWICE_CLOSED + [Overwrite(9, Member, {}, {})]
  {
    assert BaseIn(TWICE_DB, 9, 1) == ALL_PERMISSIONS;
    assert Manages(TWICE_DB, 9, 1, 3, MANAGE_CHANNELS);
    assert TargetExists(TWICE_GUILD, TWICE_DTO) by { assert TWICE_GUILD.members[1].userId == 9; }
    assert AsInt32({}) - AsInt32({}) == {};
    var row := Overwrite(9, Member, {}, {});
    assert Cleaned(TWICE_DTO) == row;
    assert TWICE_CLOSED[1..] == [];
    assert SetRow(TWICE_CLOSED, row) == [TWICE_CLOSED[0]] + SetRow([], row);
    assert RowsInForce(TWICE_DB, TWICE_DB.channels[3]) == TWICE_CLOSED;
    RowOfLast(TWICE_CLOSED[0], row);
  }

  lemma RowOfLast(first: Overwrite, row: Overwrite)
    requires first.targetId != row.targetId
    ensures RowOf([first] + [row], row) == row
  {
    assert ([first] + [row])[1..] == [row];
  }

  lemma ClosedToEveryone(rows: seq<Overwrite>, row: Overwrite, s: Subject)
    requires row == Overwrite(9, Member, {}, {}) && rows == TWICE_CLOSED + [row] && s == Subject(8, [], 1)
    ensures !Addresses(row, s) && Decides(rows, EveryoneTier, s, 0) && !Allows(rows, EveryoneTier, s, 0)
  {
    assert forall tier :: !InTier(row, tier, s);
    assert rows[0] in rows && 0 in rows[0].deny && InTier(rows[0], EveryoneTier, s);
    assert forall r :: r in rows ==> r == rows[0] || r == row;
  }

  /** An empty row for the owner in the middle channel hides the lowest one from the other member. */
  lemma NestedUpdateHides()
    ensures exists db: Db, dto: UpdateRequest, userId: Id, x: Id ::
              && Good(db) && UpdateOverwrite(db, dto).1.Success? && SyncedTwice(db, x, dto.channelId)
              && !Addresses(UpdateOverwrite(db, dto).1.value, SubjectOf(db, userId, 1))
              && EffectivePermission(UpdateOverwrite(db, dto).0, userId, 1, x) != EffectivePermission(db, userId, 1, x)
  {
    var s, row := SubjectOf(TWICE_DB, 8, 1), Overwrite(9, Member, {}, {});
    TwiceIsGood();
    TwiceSucceeds();
    ClosedToEveryone(TWICE_CLOSED + [row], row, s);
    NestedUpdateSparesIff(TWICE_DB, TWICE_DTO, 8, 1, 4);
    assert 0 in BaseIn(TWICE_DB, 8, 1);
    assert RowsInForce(TWICE_DB, TWICE_DB.channels[3]) == TWICE_CLOSED;
  }

  lemma AddressingRowsStay(db: Db, dto: UpdateRequest, s: Subject, x: Id, r: Overwrite)
    requires Good(db) && UpdateOverwrite(db, dto).1.Success? && x in db.channels
    requires !SyncedTwice(db, x, dto.channelId)
    requires !Addresses(UpdateOverwrite(db, dto).1.value, s) && Addresses(r, s)
    ensures var db' := UpdateOverwrite(db, dto).0;
            r in RowsInForce(db, db.channels[x]) <==> r in RowsInForce(db', db'.channels[x])
  {
    var c := dto.channelId;
    assert GoodChannel(db, c, db.channels[c]) && GoodChannel(db, x, db.channels[x]);
    RowsInForceGood(db, c);
    RowsOfAddressee(RowsInForce(db, db.channels[c]), Cleaned(dto), s, r);
  }

  /** Setting a row that does not address the subject leaves in place exactly the rows that do. */
  lemma RowsOfAddressee(rows: seq<Overwrite>, ow: Overwrite, s: Subject, r: Overwrite)
    requires UniqueTargets(rows) && !Addresses(RowOf(SetRow(rows, ow), ow), s) && Addresses(r, s)
    ensures r in rows <==> r in SetRow(rows, ow)
  {
    SetRowSpec(rows, ow);
    var row := RowOf(SetRow(rows, ow), ow);
    if r.targetId == ow.targetId && r in rows {
      SameTargetSameType(rows, ow, r);
      var tier :| InTier(r, tier, s);
      assert InTier(row, tier, s);
      assert false;
    }
  }

  /** A row keeps its target type when its masks are set. */
  lemma SameTargetSameType(rows: seq<Overwrite>, ow: Overwrite, r: Overwrite)
    requires UniqueTargets(rows) && r in rows && r.targetId == ow.targetId
    ensures RowOf(SetRow(rows, ow), ow).targetType == r.targetType
  {
    SetRowSpec(rows, ow);
    var i :| 0 <= i < |rows| && rows[i] == r;
    assert HasTarget(rows, ow.targetId);
    var r' :| r' in rows && r'.targetId == ow.targetId && r'.targetType == RowOf(SetRow(rows, ow), ow).targetType;
    var j :| 0 <= j < |rows| && rows[j] == r';
    assert i == j;
  }

  /** The parent and every sibling keep their own record, and only channels synced to the updated one
      can see different rows. */
  lemma UpdateTouchesOneChannel(db: Db, dto: UpdateRequest, x: Id, userId: Id, guildId: Id)
    requires Good(db) && x != dto.channelId && !SyncedTo(db, x, dto.channelId)
    ensures var db' := UpdateOverwrite(db, dto).0;
            && db'.channels.Keys == db.channels.Keys
            && (x in db.channels ==> db'.channels[x] == db.channels[x])
            && EffectivePermission(db', userId, guildId, x) == EffectivePermission(db, userId, guildId, x)
  {
  }

  /** A member's own overwrite has the last word on the bits it names. */
  lemma MemberOverwriteDecides(db: Db, dto: UpdateRequest)
    requires Good(db) && UpdateOverwrite(db, dto).1.Success?
    requires UpdateOverwrite(db, dto).1.value.targetType == Member
    requires db.channels[dto.channelId].ownerId != dto.targetId
    ensures var effective := EffectivePermission(UpdateOverwrite(db, dto).0, dto.targetId,
                                                 db.channels[dto.channelId].guildId.value, dto.channelId);
            && AsInt32(dto.allow) - AsInt32(dto.deny) <= effective
            && (AsInt32(dto.deny) - AsInt32(dto.allow)) !! effective
  {
    var db', guildId := UpdateOverwrite(db, dto).0, db.channels[dto.channelId].guildId.value;
    var before := RowsInForce(db, db.channels[dto.channelId]);
    RowsInForceGood(db, dto.channelId);
    SetRowSpec(before, Cleaned(dto));
    var row, s := UpdateOverwrite(db, dto).1.value, SubjectOf(db', dto.targetId, guildId);
    var after := RowsInForce(db', db'.channels[dto.channelId]);
    assert GoodChannel(db, dto.channelId, db.channels[dto.channelId]);
    assert after == SetRow(before, Cleaned(dto));
    FindUnique(after, MemberTier, s, row);
  }

  /** After a sync the channel means what its parent's rows say. */
  lemma SyncAdoptsParent(db: Db, userId: Id, c: Id)
    requires Good(db) && Sync(db, userId, c).1.Success?
    ensures var db' := Sync(db, userId, c).0;
            var parent := db.channels[c].parentId.value;
            && RowsInForce(db', db'.channels[c]) == db.channels[parent].overwrites
            && Good(db')
            && forall x :: x in db.channels && x != c ==> db'.channels[x] == db.channels[x]
  {
    assert GoodChannel(db, c, db.channels[c]);
    StepKeepsGood(db, OpSync(userId, c));
    assert Sync(db, userId, c).0 == Step(db, OpSync(userId, c));
  }

  /** Syncing undoes a desync completely, whoever does it and whatever row was set. */
  lemma SyncUndoesDesync(db: Db, dto: UpdateRequest, userId: Id)
    requires Good(db) && UpdateOverwrite(db, dto).1.Success? && SyncedToSome(db, dto.channelId)
    requires Sync(UpdateOverwrite(db, dto).0, userId, dto.channelId).1.Success?
    ensures Sync(UpdateOverwrite(db, dto).0, userId, dto.channelId).0 == db
  {
    assert GoodChannel(db, dto.channelId, db.channels[dto.channelId]);
    var back := Sync(UpdateOverwrite(db, dto).0, userId, dto.channelId).0;
    assert back.channels[dto.channelId] == db.channels[dto.channelId];
    assert back.channels == db.channels;
  }

  // ---------- the bulk filter ----------

  /** What the bulk query does with one member: the guild owner always passes, everyone else is
      evaluated on the overwrites, the channel's creator included. */
  ghost predicate BulkGrants(db: Db, guildId: Id, ch: Channel, m: GuildMember, mask: Perms)
    requires guildId in db.guilds
  {
    var g := db.guilds[guildId];
    m.userId == g.ownerId
    || mask <= Effective(GrantedBy(g, guildId, m.roles), RowsInForce(db, ch), Subject(m.userId, m.roles, guildId))
  }

  /** `channels.find(...)` over the channels of one guild. */
  predicate InGuild(db: Db, guildId: Id, c: Id) {
    c in db.channels && db.channels[c].guildId == Some(guildId)
  }

  /** Somebody the filter has to evaluate. */
  predicate HasPlainMember(g: Guild) {
    exists i :: 0 <= i < |g.members| && g.members[i].userId != g.ownerId
  }

  /** The query dereferences the parent of a synced channel, so it throws on one whose parent it does not
      find, as soon as there is a member other than the owner. */
  predicate BulkThrows(db: Db, guildId: Id, c: Id) {
    && guildId in db.guilds && InGuild(db, guildId, c)
    && db.channels[c].isSynced
    && (db.channels[c].parentId.None? || !InGuild(db, guildId, db.channels[c].parentId.value))
    && HasPlainMember(db.guilds[guildId])
  }

  /** None when the query throws. */
  method GetMembersWithChannelPermissions(db: Db, guildId: Id, channelId: Id, mask: Perms)
    returns (r: Option<seq<GuildMember>>)
    ensures r.None? <==> BulkThrows(db, guildId, channelId)
    ensures guildId !in db.guilds || !InGuild(db, guildId, channelId) ==> r == Some([])
    ensures r.Some? && guildId in db.guilds && InGuild(db, guildId, channelId) ==>
              forall m :: m in r.value <==>
                          m in db.guilds[guildId].members
                          && BulkGrants(db, guildId, db.channels[channelId], m, mask)
    ensures r.Some? && guildId in db.guilds && ValidGuild(db.guilds[guildId]) ==>
              forall i, j :: 0 <= i < j < |r.value| ==> r.value[i].userId != r.value[j].userId
  {
    var members: seq<GuildMember> := [];
    if guildId !in db.guilds || !InGuild(db, guildId, channelId) { return Some(members); }
    var g, channel := db.guilds[guildId], db.channels[channelId];
    var parent := if channel.parentId.Some? && InGuild(db, guildId, channel.parentId.value)
                  then Some(db.channels[channel.parentId.value]) else None;
    for i := 0 to |g.members|
      invariant forall m :: m in members <==> m in g.members[..i] && BulkGrants(db, guildId, channel, m, mask)
      invariant channel.isSynced && parent.None? ==> forall j :: 0 <= j < i ==> g.members[j].userId == g.ownerId
      invariant ValidGuild(g) ==> forall k, l :: 0 <= k < l < |members| ==> members[k].userId != members[l].userId
    {
      var member := g.members[i];
      assert g.members[..i + 1] == g.members[..i] + [member];
      var passes := true;
      if member.userId != g.ownerId {
        var effective := AllowAll(g, RolePerms(g, guildId), member.roles);
        if channel.isSynced && parent.None? { return None; }
        var rows := if channel.isSynced then parent.value.overwrites else channel.overwrites;
        effective := ApplyChannelOverwrites(effective, rows, Subject(member.userId, member.roles, guildId));
        passes := mask <= effective;
      }
      if passes {
        assert ValidGuild(g) ==> forall m :: m in g.members[..i] ==> m.userId != member.userId;
        members := members + [member];
      }
    }
    assert g.members[..|g.members|] == g.members;
    r := Some(members);
  }

  /** In a good store the query throws on exactly the synced channels without a parent. */
  lemma BulkThrowsIff(db: Db, guildId: Id, c: Id)
    requires Good(db)
    ensures BulkThrows(db, guildId, c)
            <==> guildId in db.guilds && InGuild(db, guildId, c) && HasPlainMember(db.guilds[guildId])
                 && db.channels[c].isSynced && db.channels[c].parentId.None?
  {
    if c in db.channels { assert GoodChannel(db, c, db.channels[c]); }
  }

  /** A deletion makes the query throw on exactly the channels that were synced to the deleted one. */
  lemma DeleteMakesBulkThrowIff(db: Db, userId: Id, k: Id, byNullId: bool, guildId: Id, c: Id)
    requires Good(db) && Delete(db, userId, k, byNullId).1.Success? && !BulkThrows(db, guildId, c)
    ensures BulkThrows(Delete(db, userId, k, byNullId).0, guildId, c)
            <==> SyncedTo(db, c, k) && InGuild(db, guildId, c)
                 && guildId in db.guilds && HasPlainMember(db.guilds[guildId])
  {
    var db' := Delete(db, userId, k, byNullId).0;
    DeleteKeepsGood(db, userId, k, byNullId);
    BulkThrowsIff(db, guildId, c);
    BulkThrowsIff(db', guildId, c);
    if c in db.channels { assert GoodChannel(db, c, db.channels[c]); }
  }

  // A guild of an owner and one member, in which the owner makes a category and a channel in it.
  const ORPHAN_GUILD := Guild(9, map[1 := VIEW_CHANNELS], [GuildMember(8, [])])
  const ORPHAN_EMPTY := Db(map[1 := ORPHAN_GUILD], map[])
  const ORPHAN_CATEGORY := Channel(Some(1), 9, Category, None, false, [Overwrite(1, Role, {}, {})])
  const ORPHAN_ONE := WithChannel(ORPHAN_EMPTY, 2, ORPHAN_CATEGORY)
  const ORPHAN_TWO := WithChannel(ORPHAN_ONE, 3, Channel(Some(1), 9, Text, Some(2), true, []))
  const MAKE_CATEGORY := OpCreate(9, CreateRequest(Some(1), "a", Category, None, false), 2)
  const MAKE_CHILD := OpCreate(9, CreateRequest(Some(1), "b", Text, Some(2), false), 3)
  const DELETE_CATEGORY := OpDelete(9, 2, false)

  lemma OrphanSteps()
    ensures Step(ORPHAN_EMPTY, MAKE_CATEGORY) == ORPHAN_ONE && Step(ORPHAN_ONE, MAKE_CHILD) == ORPHAN_TWO
    ensures Step(ORPHAN_TWO, DELETE_CATEGORY) == WithoutChannel(ORPHAN_TWO, 2)
    ensures Delete(ORPHAN_TWO, 9, 2, false).1.Success?
  {
    assert BaseIn(ORPHAN_EMPTY, 9, 1) == ALL_PERMISSIONS;
    assert EffectivePermission(ORPHAN_ONE, 9, 1, 2) == ALL_PERMISSIONS;
    assert EffectivePermission(ORPHAN_TWO, 9, 1, 2) == ALL_PERMISSIONS;
  }

  lemma OrphanIsGood()
    ensures Good(ORPHAN_EMPTY) && Tidy(ORPHAN_EMPTY) && Good(ORPHAN_TWO)
  {
    OrphanSteps();
    CreateKeepsGood(ORPHAN_EMPTY, 9, MAKE_CATEGORY.create, 2);
    CreateKeepsGood(ORPHAN_ONE, 9, MAKE_CHILD.create, 3);
  }

  /** Three ordinary operations by the owner of a guild get there. */
  lemma BulkComesToThrow()
    ensures exists db: Db, first: Op, second: Op, third: Op ::
              && Good(db) && Tidy(db) && db.channels == map[]
              && first.OpCreate? && second.OpCreate? && third.OpDelete?
              && !BulkThrows(Step(Step(db, first), second), 1, 3)
              && BulkThrows(Step(Step(Step(db, first), second), third), 1, 3)
  {
    OrphanSteps();
    OrphanIsGood();
    assert HasPlainMember(ORPHAN_GUILD) by { assert ORPHAN_GUILD.members[0].userId == 8; }
    BulkThrowsIff(ORPHAN_TWO, 1, 3);
    DeleteMakesBulkThrowIff(ORPHAN_TWO, 9, 2, false, 1, 3);
    assert BulkThrows(Step(Step(Step(ORPHAN_EMPTY, MAKE_CATEGORY), MAKE_CHILD), DELETE_CATEGORY), 1, 3);
  }

  /** For a member who neither owns the guild nor created the channel, being in the bulk result and
      being granted the mask by the pointwise check are the same thing. */
  lemma BulkRefinesPointwise(db: Db, guildId: Id, c: Id, m: GuildMember, mask: Perms)
    requires guildId in db.guilds && ValidGuild(db.guilds[guildId]) && InGuild(db, guildId, c)
    requires m in db.guilds[guildId].members
    requires m.userId != db.guilds[guildId].ownerId && m.userId != db.channels[c].ownerId
    ensures BulkGrants(db, guildId, db.channels[c], m, mask)
            <==> mask <= EffectivePermission(db, m.userId, guildId, c)
  {
    MemberRolesOf(db.guilds[guildId].members, m);
  }

  /** For the channel's creator they agree on every mask exactly when the overwrites change nothing: every tier
      that decides a bit says about it what the creator's roles say. */
  lemma BulkAgreesOnCreatorIff(db: Db, guildId: Id, c: Id, m: GuildMember)
    requires Good(db) && guildId in db.guilds && ValidGuild(db.guilds[guildId]) && InGuild(db, guildId, c)
    requires m in db.guilds[guildId].members
    requires m.userId != db.guilds[guildId].ownerId && m.userId == db.channels[c].ownerId
    ensures (forall mask: Perms ::
               BulkGrants(db, guildId, db.channels[c], m, mask)
               <==> mask <= EffectivePermission(db, m.userId, guildId, c))
            <==>
            (var rows, s := RowsInForce(db, db.channels[c]), Subject(m.userId, m.roles, guildId);
             forall b, tier :: Decides(rows, tier, s, b) ==>
               (Allows(rows, tier, s, b) <==> b in GrantedBy(db.guilds[guildId], guildId, m.roles)))
  {
    var g, ch, s := db.guilds[guildId], db.channels[c], Subject(m.userId, m.roles, guildId);
    var base, rows := GrantedBy(g, guildId, m.roles), RowsInForce(db, ch);
    var effective := Effective(base, rows, s);
    MemberRolesOf(g.members, m);
    RowsInForceGood(db, c);
    EffectiveIsBaseIff(base, rows, s);
    assert EffectivePermission(db, m.userId, guildId, c) == base;
    if effective != base {
      assert BulkGrants(db, guildId, ch, m, effective) && BulkGrants(db, guildId, ch, m, base) <==> base <= effective;
      if base <= effective { assert !(effective <= base); }
    }
  }

  /** For the guild's owner, whom the bulk filter always lets pass, they agree on every mask of defined
      permissions exactly when the owner made the channel or no tier that decides a defined bit only denies it. */
  lemma BulkAgreesOnOwnerIff(db: Db, guildId: Id, c: Id, m: GuildMember)
    requires Good(db) && guildId in db.guilds && InGuild(db, guildId, c)
    requires m in db.guilds[guildId].members && m.userId == db.guilds[guildId].ownerId
    ensures (forall mask: Perms :: mask <= ALL_PERMISSIONS ==>
               (BulkGrants(db, guildId, db.channels[c], m, mask)
                <==> mask <= EffectivePermission(db, m.userId, guildId, c)))
            <==>
            (var rows, s := RowsInForce(db, db.channels[c]), SubjectOf(db, m.userId, guildId);
             || m.userId == db.channels[c].ownerId
             || forall b, tier :: b in ALL_PERMISSIONS && Decides(rows, tier, s, b) ==> Allows(rows, tier, s, b))
  {
    var ch, s := db.channels[c], SubjectOf(db, m.userId, guildId);
    var rows, all := RowsInForce(db, ch), ALL_PERMISSIONS;
    RowsInForceGood(db, c);
    EffectiveKeepsBaseIff(all, rows, s);
    assert BaseIn(db, m.userId, guildId) == all;
    assert BulkGrants(db, guildId, ch, m, all);
  }

  /** They do disagree: a creator whom an @everyone row shuts out. */
  lemma BulkDiffersOnCreator()
    ensures exists db: Db, m: GuildMember, mask: Perms ::
              && 1 in db.guilds && 2 in db.channels
              && Good(db) && ValidGuild(db.guilds[1]) && m in db.guilds[1].members && db.channels[2].ownerId == m.userId
              && !BulkGrants(db, 1, db.channels[2], m, mask)
              && mask <= EffectivePermission(db, m.userId, 1, 2)
  {
    var m := GuildMember(8, []);
    var g := Guild(9, map[1 := VIEW_CHANNELS], [m]);
    var rows := [Overwrite(1, Role, {}, VIEW_CHANNELS)];
    var ch := Channel(Some(1), 8, Text, None, false, rows);
    var db := Db(map[1 := g], map[2 := ch]);
    assert GoodChannel(db, 2, ch);
    var s := Subject(8, [], 1);
    assert Find(rows, EveryoneTier, s) == Some(rows[0]);
    assert rows[1..] == [];
    assert Find(rows, MemberTier, s) == None;
    assert 0 !in Effective(GrantedBy(g, 1, []), rows, s);
    assert 0 in VIEW_CHANNELS;
    assert g.members[0] == m;
    assert VIEW_CHANNELS <= EffectivePermission(db, 8, 1, 2);
    assert !BulkGrants(db, 1, ch, m, VIEW_CHANNELS);
  }

  /** And an owner whom an @everyone row shuts out of a channel somebody else made passes the bulk filter only. */
  lemma BulkDiffersOnOwner()
    ensures exists db: Db, m: GuildMember, mask: Perms ::
              && 1 in db.guilds && 2 in db.channels
              && Good(db) && ValidGuild(db.guilds[1]) && m in db.guilds[1].members && db.guilds[1].ownerId == m.userId
              && BulkGrants(db, 1, db.channels[2], m, mask)
              && !(mask <= EffectivePermission(db, m.userId, 1, 2))
  {
    var m := GuildMember(9, []);
    var g := Guild(9, map[1 := VIEW_CHANNELS], [m]);
    var rows := [Overwrite(1, Role, {}, VIEW_CHANNELS)];
    var ch := Channel(Some(1), 8, Text, None, false, rows);
    var db := Db(map[1 := g], map[2 := ch]);
    assert GoodChannel(db, 2, ch);
    assert g.members[0] == m;
    var s := SubjectOf(db, 9, 1);
    assert Find(rows, EveryoneTier, s) == Some(rows[0]);
    assert rows[1..] == [];
    assert Find(rows, MemberTier, s) == None;
    assert 0 !in Effective(ALL_PERMISSIONS, rows, s);
    assert 0 in VIEW_CHANNELS;
    assert !(VIEW_CHANNELS <= EffectivePermission(db, 9, 1, 2));
    assert BulkGrants(db, 1, ch, m, VIEW_CHANNELS);
  }
}
