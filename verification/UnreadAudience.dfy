/** Which messages in a guild channel count for whom: unread counters over the bulk permission query. */
module UnreadAudience {
  import opened Common
  import opened Permissions
  import opened OverwriteMeaning
  import S = ChannelStore
  import U = Unread

  ghost predicate PassesBulk(db: S.Db, guildId: Id, c: Id, u: Id) {
    && guildId in db.guilds && InGuild(db, guildId, c)
    && exists m :: m in db.guilds[guildId].members && m.userId == u
                   && BulkGrants(db, guildId, db.channels[c], m, VIEW_CHANNELS)
  }

  /** What the bulk query says about who can view the channel. */
  ghost predicate IsQueryResult(db: S.Db, guildId: Id, c: Id, viewers: Option<seq<Id>>) {
    && (viewers.None? <==> BulkThrows(db, guildId, c))
    && (viewers.Some? ==> Distinct(viewers.value) && forall u :: u in viewers.value <==> PassesBulk(db, guildId, c, u))
  }

  method Viewers(db: S.Db, guildId: Id, c: Id) returns (viewers: Option<seq<Id>>)
    requires guildId in db.guilds && ValidGuild(db.guilds[guildId]) && InGuild(db, guildId, c)
    ensures IsQueryResult(db, guildId, c, viewers)
  {
    var found := GetMembersWithChannelPermissions(db, guildId, c, VIEW_CHANNELS);
    if found.None? { return None; }
    var members := found.value;
    var ids: seq<Id> := [];
    for i := 0 to |members|
      invariant |ids| == i && forall j :: 0 <= j < i ==> ids[j] == members[j].userId
    {
      ids := ids + [members[i].userId];
    }
    forall u ensures u in ids <==> PassesBulk(db, guildId, c, u) {
      if u in ids {
        var j :| 0 <= j < |ids| && ids[j] == u;
        assert members[j] in members;
      }
      if PassesBulk(db, guildId, c, u) {
        var m :| m in db.guilds[guildId].members && m.userId == u
                 && BulkGrants(db, guildId, db.channels[c], m, VIEW_CHANNELS);
        var j :| 0 <= j < |members| && members[j] == m;
        assert ids[j] == u;
      }
    }
    viewers := Some(ids);
  }

  /** A guild message counts for a member who neither owns the guild nor created the channel exactly when the
      member is not its sender, may view the channel, and the query does not throw. */
  lemma CountsForViewers(chs: U.Channels, s: U.Store, db: S.Db, guildId: Id, c: Id, sender: Id,
                         viewers: Option<seq<Id>>, m: GuildMember)
    requires c in chs && !chs[c].isDM && IsQueryResult(db, guildId, c, viewers)
    requires guildId in db.guilds && ValidGuild(db.guilds[guildId]) && InGuild(db, guildId, c)
    requires m in db.guilds[guildId].members
    requires m.userId != db.guilds[guildId].ownerId && m.userId != db.channels[c].ownerId
    ensures U.Value(U.Step(chs, s, U.MessageCreated(c, sender, viewers)).unread, (m.userId, c))
            == U.Value(s.unread, (m.userId, c))
               + if !BulkThrows(db, guildId, c) && m.userId != sender
                    && VIEW_CHANNELS <= S.EffectivePermission(db, m.userId, guildId, c) then 1 else 0
  {
    var a := U.MessageCreated(c, sender, viewers);
    var users := U.Audience(chs, a);
    U.WithoutSenderSpec(users, sender);
    U.BumpSpec(s.unread, U.WithoutSender(users, sender), c, (m.userId, c));
    BulkRefinesPointwise(db, guildId, c, m, VIEW_CHANNELS);
    if viewers.Some? {
      assert m.userId in viewers.value <==> BulkGrants(db, guildId, db.channels[c], m, VIEW_CHANNELS) by {
        OneMember(db, guildId, c, m);
      }
    }
  }

  lemma OneMember(db: S.Db, guildId: Id, c: Id, m: GuildMember)
    requires guildId in db.guilds && ValidGuild(db.guilds[guildId]) && InGuild(db, guildId, c)
    requires m in db.guilds[guildId].members
    ensures PassesBulk(db, guildId, c, m.userId) <==> BulkGrants(db, guildId, db.channels[c], m, VIEW_CHANNELS)
  {
    var members := db.guilds[guildId].members;
    forall n | n in members && n.userId == m.userId ensures n == m {
      var i :| 0 <= i < |members| && members[i] == n;
      var j :| 0 <= j < |members| && members[j] == m;
    }
  }

  /** In a channel whose category was deleted from under it, messages count for nobody: the counters stop. */
  lemma OrphanedChannelStopsCounting(chs: U.Channels, s: U.Store, db: S.Db, userId: Id, k: Id, byNullId: bool,
                                     guildId: Id, c: Id, sender: Id, viewers: Option<seq<Id>>)
    requires S.Good(db) && S.Delete(db, userId, k, byNullId).1.Success?
    requires guildId in db.guilds && HasPlainMember(db.guilds[guildId]) && InGuild(db, guildId, c) && SyncedTo(db, c, k)
    requires IsQueryResult(S.Delete(db, userId, k, byNullId).0, guildId, c, viewers) && c in chs && !chs[c].isDM
    ensures U.Step(chs, s, U.MessageCreated(c, sender, viewers)) == s
  {
    S.DeleteKeepsGood(db, userId, k, byNullId);
    assert S.GoodChannel(db, c, db.channels[c]);
    BulkThrowsIff(S.Delete(db, userId, k, byNullId).0, guildId, c);
  }

  // ---------- runs of both machines ----------

  datatype World = World(db: S.Db, store: U.Store)

  datatype Event =
    | Operate(op: S.Op)
    | Message(channelId: Id, senderId: Id, viewers: Option<seq<Id>>)
    | Ack(userId: Id, channelId: Id, messageId: Id)

  /** The channels as the unread counters know them; who is in a direct message is not in this store. */
  function ChannelsOf(db: S.Db): U.Channels {
    map c | c in db.channels :: U.Channel(db.channels[c].guildId.None?, [])
  }

  ghost predicate MayView(db: S.Db, u: Id, c: Id) {
    && c in db.channels && db.channels[c].guildId.Some?
    && VIEW_CHANNELS <= S.EffectivePermission(db, u, db.channels[c].guildId.value, c)
  }

  ghost predicate QueryThrows(db: S.Db, c: Id) {
    c in db.channels && db.channels[c].guildId.Some? && BulkThrows(db, db.channels[c].guildId.value, c)
  }

  /** Channel ids are fresh, and a message comes with what the query says at that moment. */
  ghost predicate Happens(db: S.Db, e: Event) {
    match e
    case Operate(op) => op.OpCreate? ==> op.newId !in db.channels
    case Message(c, _, viewers) =>
      c in db.channels && db.channels[c].guildId.Some? ==>
        IsQueryResult(db, db.channels[c].guildId.value, c, viewers)
    case Ack(_, _, _) => true
  }

  ghost function Next(w: World, e: Event): World {
    match e
    case Operate(op) => w.(db := S.Step(w.db, op))
    case Message(c, sender, viewers) =>
      w.(store := U.Step(ChannelsOf(w.db), w.store, U.MessageCreated(c, sender, viewers)))
    case Ack(u, c, m) => w.(store := U.Step(ChannelsOf(w.db), w.store, U.Acknowledge(u, c, m, MayView(w.db, u, c))))
  }

  /** Nothing has been counted when the run starts, whatever the channels. */
  ghost predicate IsRun(worlds: seq<World>, events: seq<Event>) {
    && |worlds| == |events| + 1 && worlds[0].store == U.Store(map[], map[])
    && forall i {:trigger events[i]} :: 0 <= i < |events| ==>
         Happens(worlds[i].db, events[i]) && worlds[i + 1] == Next(worlds[i], events[i])
  }

  /** A member of the channel's guild who neither owns the guild nor made the channel. */
  ghost predicate Plain(db: S.Db, u: Id, c: Id) {
    c in db.channels ==>
      var ch := db.channels[c];
      && ch.guildId.Some? && ch.guildId.value in db.guilds && ValidGuild(db.guilds[ch.guildId.value])
      && u != db.guilds[ch.guildId.value].ownerId && u != ch.ownerId
      && exists m :: m in db.guilds[ch.guildId.value].members && m.userId == u
  }

  /** A message by somebody else, in a channel the user may view, while the query does not throw. */
  ghost predicate Counts(db: S.Db, e: Event, u: Id, c: Id) {
    e.Message? && e.channelId == c && e.senderId != u && MayView(db, u, c) && !QueryThrows(db, c)
  }

  /** An acknowledgement that is let through. */
  ghost predicate Settles(db: S.Db, e: Event, u: Id, c: Id) {
    e.Ack? && e.userId == u && e.channelId == c && MayView(db, u, c)
  }

  /** How many such messages were sent in the first i steps, since the last such acknowledgement. */
  ghost function Missed(worlds: seq<World>, events: seq<Event>, u: Id, c: Id, i: nat): nat
    requires i <= |events| <= |worlds|
  {
    if i == 0 then 0
    else if Settles(worlds[i - 1].db, events[i - 1], u, c) then 0
    else Missed(worlds, events, u, c, i - 1) + if Counts(worlds[i - 1].db, events[i - 1], u, c) then 1 else 0
  }

  /** A message in the channel bumps the counter exactly when it counts. */
  lemma MessageHereCounts(w: World, sender: Id, viewers: Option<seq<Id>>, u: Id, c: Id)
    requires Happens(w.db, Message(c, sender, viewers)) && Plain(w.db, u, c)
    ensures U.Value(Next(w, Message(c, sender, viewers)).store.unread, (u, c))
            == U.Value(w.store.unread, (u, c)) + if Counts(w.db, Message(c, sender, viewers), u, c) then 1 else 0
  {
    if c in w.db.channels {
      var guildId := w.db.channels[c].guildId.value;
      var m :| m in w.db.guilds[guildId].members && m.userId == u;
      CountsForViewers(ChannelsOf(w.db), w.store, w.db, guildId, c, sender, viewers, m);
    }
  }

  /** Messages elsewhere leave it alone. */
  lemma MessageElsewhereDoesNot(w: World, d: Id, sender: Id, viewers: Option<seq<Id>>, u: Id, c: Id)
    requires Happens(w.db, Message(d, sender, viewers)) && d != c
    ensures U.Value(Next(w, Message(d, sender, viewers)).store.unread, (u, c)) == U.Value(w.store.unread, (u, c))
  {
    var chs := ChannelsOf(w.db);
    var users := U.Audience(chs, U.MessageCreated(d, sender, viewers));
    U.WithoutSenderSpec(users, sender);
    U.BumpSpec(w.store.unread, U.WithoutSender(users, sender), d, (u, c));
  }

  /** An acknowledgement by the user zeroes the counter exactly when the user may view the channel. */
  lemma AckSettles(w: World, v: Id, d: Id, m: Id, u: Id, c: Id)
    requires Plain(w.db, u, c)
    ensures U.Value(Next(w, Ack(v, d, m)).store.unread, (u, c))
            == if Settles(w.db, Ack(v, d, m), u, c) then 0 else U.Value(w.store.unread, (u, c))
  {
  }

  /** Over every run of channel operations, messages and acknowledgements: the counter is the number of messages
      others have sent since the last acknowledgement while the member could view the channel and the query did
      not throw. */
  lemma {:induction false} CounterFollowsViewers(worlds: seq<World>, events: seq<Event>, u: Id, c: Id, i: nat)
    requires IsRun(worlds, events) && i < |worlds| && forall j :: 0 <= j < i ==> Plain(worlds[j].db, u, c)
    ensures U.Value(worlds[i].store.unread, (u, c)) == Missed(worlds, events, u, c, i)
  {
    if i > 0 {
      var w, e := worlds[i - 1], events[i - 1];
      CounterFollowsViewers(worlds, events, u, c, i - 1);
      match e
      case Operate(_) =>
      case Message(d, sender, viewers) =>
        if d == c { MessageHereCounts(w, sender, viewers, u, c); }
        else { MessageElsewhereDoesNot(w, d, sender, viewers, u, c); }
      case Ack(v, d, m) => AckSettles(w, v, d, m, u, c);
    }
  }

  /** `onMessageCreated` in a guild channel, query included. */
  method OnGuildMessageCreated(service: U.Service, db: S.Db, guildId: Id, c: Id, sender: Id)
    returns (recipients: seq<Id>, throws: bool)
    requires service.Valid() && c in service.channels && !service.channels[c].isDM
    requires guildId in db.guilds && ValidGuild(db.guilds[guildId]) && InGuild(db, guildId, c)
    modifies service`unread
    ensures service.Valid() && throws == BulkThrows(db, guildId, c)
    ensures throws ==> recipients == [] && service.Contents() == old(service.Contents())
    ensures !throws ==> forall u :: u in recipients <==> u != sender && PassesBulk(db, guildId, c, u)
    ensures forall k: U.Key :: U.Value(service.unread, k)
                               == U.Value(old(service.unread), k) + if k.1 == c && k.0 in recipients then 1 else 0
  {
    var viewers := Viewers(db, guildId, c);
    recipients, throws := service.OnMessageCreated(c, sender, viewers);
    ghost var users := U.Audience(service.channels, U.MessageCreated(c, sender, viewers));
    U.WithoutSenderSpec(users, sender);
    forall k: U.Key
      ensures U.Value(service.unread, k)
              == U.Value(old(service.unread), k) + if k.1 == c && k.0 in recipients then 1 else 0
    {
      U.BumpSpec(old(service.unread), U.WithoutSender(users, sender), c, k);
    }
  }
}
