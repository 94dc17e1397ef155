/** Who may change what: every change to a channel or its overwrites is made by somebody who was granted it at that
    moment, and does what was asked for and nothing else. */
module ChannelAuthority {
  import opened Common
  import opened Permissions
  import opened ChannelStore
  import opened OverwriteMeaning

  // ---------- answers ----------

  function StatusOf<T>(r: Result<T>): Option<Status> {
    if r.Success? then None else Some(r.status)
  }

  /** What the caller is told: None for success. */
  ghost function Answer(db: Db, op: Op): Option<Status> {
    match op
    case OpCreate(u, dto, newId) => StatusOf(Create(db, u, dto, newId).1)
    case OpDelete(u, c, n) => StatusOf(Delete(db, u, c, n).1)
    case OpUpdate(dto) => StatusOf(UpdateOverwrite(db, dto).1)
    case OpSync(u, c) => StatusOf(Sync(db, u, c).1)
    case OpDeleteOverwrite(u, c, t) => StatusOf(DeleteOverwrite(db, u, c, t).1)
  }

  predicate InSomeGuild(db: Db, c: Id) {
    c in db.channels && db.channels[c].guildId.Some?
  }

  /** The user is granted the mask on the channel, in the channel's own guild. */
  ghost predicate Granted(db: Db, u: Id, c: Id, mask: Perms) {
    InSomeGuild(db, c) && mask <= EffectivePermission(db, u, db.channels[c].guildId.value, c)
  }

  /** What the operation is about exists. */
  predicate Found(db: Db, op: Op) {
    match op
    case OpCreate(_, dto, _) => dto.guildId.Some?
    case OpDelete(_, c, _) => c in db.channels
    case OpUpdate(dto) => InSomeGuild(db, dto.channelId)
    case OpSync(_, c) => InSomeGuild(db, c) && db.channels[c].parentId.Some?
    case OpDeleteOverwrite(_, c, t) =>
      InSomeGuild(db, c) && exists r :: r in db.channels[c].overwrites && r.targetId == t
  }

  /** The user who asks is granted it: on the parent for a new channel, or on the guild at the top; on the parent for
      the deletion of a synced channel; else on the channel itself. */
  ghost predicate Entitled(db: Db, op: Op) {
    match op
    case OpCreate(u, dto, _) =>
      dto.guildId.Some?
      && if dto.parentId.Some? then MANAGE_CHANNELS <= EffectivePermission(db, u, dto.guildId.value, dto.parentId.value)
         else MANAGE_CHANNELS <= BaseIn(db, u, dto.guildId.value)
    case OpDelete(u, c, byNullId) =>
      c in db.channels
      && var ch := db.channels[c];
         if ch.guildId.None? || (ch.isSynced && ch.parentId.None?) then byNullId
         else if ch.isSynced then MANAGE_CHANNELS <= EffectivePermission(db, u, ch.guildId.value, ch.parentId.value)
         else Granted(db, u, c, MANAGE_CHANNELS)
    case OpUpdate(dto) => Granted(db, dto.userId, dto.channelId, MANAGE_CHANNELS)
    case OpSync(u, c) => Granted(db, u, c, MANAGE_CHANNELS)
    case OpDeleteOverwrite(u, c, _) => Granted(db, u, c, MANAGE_ROLES)
  }

  /** Nothing else is wrong with it. */
  predicate InOrder(db: Db, op: Op) {
    match op
    case OpCreate(_, dto, _) => dto.name != ""
    case OpDelete(_, _, _) => true
    case OpUpdate(dto) =>
      && InSomeGuild(db, dto.channelId) && db.channels[dto.channelId].guildId.value in db.guilds
      && var g := db.guilds[db.channels[dto.channelId].guildId.value];
         if dto.targetType == Member then exists m :: m in g.members && m.userId == dto.targetId
         else dto.targetId in g.roles
    case OpSync(_, _) => true
    case OpDeleteOverwrite(_, c, t) => c in db.channels && db.channels[c].guildId != Some(t)
  }

  /** Each operation goes through, is forbidden, or is a bad request in exactly these cases. */
  lemma AnswersIff(db: Db, op: Op)
    ensures Answer(db, op) == None <==> Found(db, op) && Entitled(db, op) && InOrder(db, op)
    ensures Answer(db, op) == Some(Forbidden) <==> Found(db, op) && !Entitled(db, op)
    ensures Answer(db, op) == Some(BadRequest) <==> !Found(db, op) || (Entitled(db, op) && !InOrder(db, op))
    ensures Answer(db, op) == None <==> Succeeds(db, op)
  {
    match op
    case OpUpdate(dto) =>
      if InOrder(db, op) || Succeeds(db, op) {
        TargetsAreThere(db.guilds[db.channels[dto.channelId].guildId.value], dto);
      }
    case OpDeleteOverwrite(_, c, t) => if c in db.channels { TargetInRows(db.channels[c].overwrites, t); }
    case _ =>
  }

  lemma TargetsAreThere(g: Guild, dto: UpdateRequest)
    ensures TargetExists(g, dto)
            <==> if dto.targetType == Member then exists m :: m in g.members && m.userId == dto.targetId
                 else dto.targetId in g.roles
  {
    if m :| m in g.members && m.userId == dto.targetId {
      var i :| 0 <= i < |g.members| && g.members[i] == m;
      assert g.members[i].userId == dto.targetId;
    }
  }

  lemma TargetInRows(rows: seq<Overwrite>, t: Id)
    ensures HasTarget(rows, t) <==> exists r :: r in rows && r.targetId == t
  {
    if r :| r in rows && r.targetId == t {
      var i :| 0 <= i < |rows| && rows[i] == r;
      assert rows[i].targetId == t;
    }
  }

  /** The store changes only at the hand of somebody entitled to the change, and not at all when the answer is an
      error. */
  lemma OnlyTheEntitledChange(db: Db, op: Op)
    ensures Step(db, op) != db ==> Entitled(db, op) && Answer(db, op) == None
  {
    AnswersIff(db, op);
  }

  // ---------- runs ----------

  ghost predicate IsHistory(states: seq<Db>, ops: seq<Op>) {
    && |states| == |ops| + 1
    && forall i {:trigger ops[i]} :: 0 <= i < |ops| ==> states[i + 1] == Step(states[i], ops[i])
  }

  ghost predicate SameRecord(db: Db, db': Db, c: Id) {
    (c in db.channels <==> c in db'.channels) && (c in db.channels ==> db'.channels[c] == db.channels[c])
  }

  ghost predicate SameRowsOf(db: Db, db': Db, c: Id) {
    && (c in db.channels <==> c in db'.channels)
    && (c in db.channels ==> db'.channels[c].overwrites == db.channels[c].overwrites)
  }

  /** The operation is on this very channel. */
  ghost predicate TouchesRows(db: Db, op: Op, c: Id) {
    Target(op) == c && Entitled(db, op) && Answer(db, op) == None
  }

  lemma RowsStayUnlessTouched(db: Db, op: Op, c: Id)
    ensures SameRowsOf(db, Step(db, op), c) || TouchesRows(db, op, c)
  {
    AnswersIff(db, op);
  }

  /** A record beyond its rows changes by the deletion of its parent, too, which it then lacks. */
  lemma RecordStaysUnlessTouched(db: Db, op: Op, c: Id)
    ensures || SameRecord(db, Step(db, op), c) || TouchesRows(db, op, c)
            || (op.OpDelete? && Entitled(db, op) && c in db.channels && db.channels[c].parentId == Some(op.channelId)
                && c in Step(db, op).channels && Step(db, op).channels[c] == db.channels[c].(parentId := None))
  {
    AnswersIff(db, op);
  }

  /** Over any run: if a channel's rows are not what they were, or the channel has come or gone, then somebody did it on
      that channel who was entitled to at that moment. */
  lemma {:induction false} RowsChangeByTheEntitled(states: seq<Db>, ops: seq<Op>, i: nat, j: nat, c: Id)
    requires IsHistory(states, ops) && i <= j < |states| && !SameRowsOf(states[i], states[j], c)
    ensures exists n :: i <= n < j && TouchesRows(states[n], ops[n], c)
    decreases j
  {
    RowsStayUnlessTouched(states[j - 1], ops[j - 1], c);
    if !TouchesRows(states[j - 1], ops[j - 1], c) {
      assert states[j] == Step(states[j - 1], ops[j - 1]);
      RowsChangeByTheEntitled(states, ops, i, j - 1, c);
      var n :| i <= n < j - 1 && TouchesRows(states[n], ops[n], c);
    }
  }

  /** In particular a store in which nobody was ever entitled to what they asked for is the store it was. */
  lemma {:induction false} NothingWithoutEntitlement(states: seq<Db>, ops: seq<Op>, j: nat)
    requires IsHistory(states, ops) && j < |states| && forall n :: 0 <= n < j ==> !Entitled(states[n], ops[n])
    ensures states[j] == states[0]
    decreases j
  {
    if j > 0 {
      NothingWithoutEntitlement(states, ops, j - 1);
      OnlyTheEntitledChange(states[j - 1], ops[j - 1]);
      assert states[j] == Step(states[j - 1], ops[j - 1]);
    }
  }

  // ---------- new channels ----------

  /** A new channel is the creator's, of the kind and under the parent asked for, and no other channel changes. */
  lemma CreateAddsOne(db: Db, u: Id, dto: CreateRequest, newId: Id)
    requires Answer(db, OpCreate(u, dto, newId)) == None && newId !in db.channels
    ensures var db' := Step(db, OpCreate(u, dto, newId));
            && db'.guilds == db.guilds && db'.channels.Keys == db.channels.Keys + {newId}
            && (forall c :: c in db.channels ==> db'.channels[c] == db.channels[c])
            && var ch := db'.channels[newId];
               && ch.ownerId == u && ch.guildId == dto.guildId && ch.kind == dto.kind && ch.parentId == dto.parentId
               && (ch.isSynced <==> dto.parentId.Some? && !dto.isPrivate)
  {
  }

  lemma ClosedRow(base: Perms, guildId: Id, s: Subject)
    requires s.guildId == guildId
    ensures 0 !in Effective(base, [Overwrite(guildId, Role, {}, VIEW_CHANNELS)], s)
  {
    var rows := [Overwrite(guildId, Role, {}, VIEW_CHANNELS)];
    EffectiveIsLadder(base, rows, s, 0);
    assert rows[0] in rows && InTier(rows[0], EveryoneTier, s) && 0 in rows[0].deny;
    assert forall ow :: ow in rows ==> ow == rows[0];
  }

  /** A private channel under a parent is hidden from everybody but its creator, the owner of the guild included. */
  lemma PrivateChannelIsHidden(db: Db, u: Id, dto: CreateRequest, newId: Id, v: Id)
    requires Answer(db, OpCreate(u, dto, newId)) == None && newId !in db.channels
    requires dto.parentId.Some? && dto.isPrivate && v != u
    ensures !Granted(Step(db, OpCreate(u, dto, newId)), v, newId, VIEW_CHANNELS)
  {
    var db', guildId := Step(db, OpCreate(u, dto, newId)), dto.guildId.value;
    ClosedRow(BaseIn(db', v, guildId), guildId, SubjectOf(db', v, guildId));
    assert 0 in VIEW_CHANNELS;
  }

  lemma OpenRow(base: Perms, guildId: Id, s: Subject)
    ensures Effective(base, [Overwrite(guildId, Role, {}, {})], s) == base
  {
    var rows := [Overwrite(guildId, Role, {}, {})];
    assert forall ow :: ow in rows ==> ow == rows[0];
    EffectiveIsBaseIff(base, rows, s);
  }

  /** A channel at the top grants everybody what their roles do. */
  lemma TopChannelIsOpen(db: Db, u: Id, dto: CreateRequest, newId: Id, v: Id)
    requires Answer(db, OpCreate(u, dto, newId)) == None && newId !in db.channels && dto.parentId.None?
    ensures EffectivePermission(Step(db, OpCreate(u, dto, newId)), v, dto.guildId.value, newId)
            == BaseIn(db, v, dto.guildId.value)
  {
    var db', guildId := Step(db, OpCreate(u, dto, newId)), dto.guildId.value;
    OpenRow(BaseIn(db', v, guildId), guildId, SubjectOf(db', v, guildId));
  }

  /** A channel synced to its parent grants what the parent does to everybody who made neither, unless the parent takes
      its rows from a parent of its own. */
  lemma SyncedChannelGrantsAsParent(db: Db, c: Id, v: Id)
    requires Good(db) && SyncedToSome(db, c) && db.channels[c].guildId.Some?
    requires !SyncedToSome(db, db.channels[c].parentId.value)
    requires v != db.channels[c].ownerId && v != db.channels[db.channels[c].parentId.value].ownerId
    ensures var guildId := db.channels[c].guildId.value;
            EffectivePermission(db, v, guildId, c)
            == EffectivePermission(db, v, guildId, db.channels[c].parentId.value)
  {
    assert GoodChannel(db, c, db.channels[c]);
  }

  /** So does a new channel that is not private. */
  lemma OpenChildGrantsAsParent(db: Db, u: Id, dto: CreateRequest, newId: Id, v: Id)
    requires Good(db) && Answer(db, OpCreate(u, dto, newId)) == None && newId !in db.channels
    requires dto.parentId.Some? && !dto.isPrivate && !SyncedToSome(db, dto.parentId.value)
    requires v != u && v != db.channels[dto.parentId.value].ownerId
    ensures EffectivePermission(Step(db, OpCreate(u, dto, newId)), v, dto.guildId.value, newId)
            == EffectivePermission(db, v, dto.guildId.value, dto.parentId.value)
  {
    var db' := Step(db, OpCreate(u, dto, newId));
    CreateKeepsGood(db, u, dto, newId);
    SyncedChannelGrantsAsParent(db', newId, v);
  }

  // ---------- changes ----------

  /** What the row of an update says, among rows of unique targets. */
  ghost predicate SaysWhatWasAsked(rows: seq<Overwrite>, row: Overwrite, dto: UpdateRequest, b: nat) {
    && row.targetId == dto.targetId
    && (b in row.allow <==> b in dto.allow && b !in dto.deny && b < 31)
    && (b in row.deny <==> b in dto.deny && b !in dto.allow && b < 31)
    && if HasTarget(rows, dto.targetId)
       then exists r :: r in rows && r.targetId == dto.targetId && r.targetType == row.targetType
       else row.targetType == dto.targetType
  }

  lemma SetRowSaysWhatWasAsked(rows: seq<Overwrite>, dto: UpdateRequest, b: nat)
    requires UniqueTargets(rows)
    ensures exists row :: row in SetRow(rows, Cleaned(dto)) && SaysWhatWasAsked(rows, row, dto, b)
  {
    SetRowSpec(rows, Cleaned(dto));
    var row := RowOf(SetRow(rows, Cleaned(dto)), Cleaned(dto));
    assert row in SetRow(rows, Cleaned(dto)) && SaysWhatWasAsked(rows, row, dto, b);
  }

  /** An update stores, under its target, what was asked for: the bits allowed and not denied, those denied and not
      allowed, and of them only what fits in 32 bits. A target that had a row keeps that row's type. */
  lemma UpdateStoresWhatWasAsked(db: Db, dto: UpdateRequest, b: nat)
    requires Good(db) && Answer(db, OpUpdate(dto)) == None
    ensures var ch, ch' := db.channels[dto.channelId], Step(db, OpUpdate(dto)).channels[dto.channelId];
            && ch' == ch.(isSynced := ch.isSynced && ch.parentId.None?, overwrites := ch'.overwrites)
            && exists row :: row in ch'.overwrites && SaysWhatWasAsked(RowsInForce(db, ch), row, dto, b)
  {
    RowsInForceGood(db, dto.channelId);
    SetRowSaysWhatWasAsked(RowsInForce(db, db.channels[dto.channelId]), dto, b);
  }

  /** Deleting an overwrite takes the target's row out of the channel, never that of @everyone, and nothing else. */
  lemma DeleteTakesOneRow(db: Db, u: Id, c: Id, t: Id)
    requires Answer(db, OpDeleteOverwrite(u, c, t)) == None
    ensures var ch, db' := db.channels[c], Step(db, OpDeleteOverwrite(u, c, t));
            && Some(t) != ch.guildId && db'.guilds == db.guilds && db'.channels.Keys == db.channels.Keys
            && db'.channels[c] == ch.(overwrites := db'.channels[c].overwrites)
            && (forall r :: r in db'.channels[c].overwrites <==> r in ch.overwrites && r.targetId != t)
            && forall x :: x in db.channels && x != c ==> db'.channels[x] == db.channels[x]
  {
    DropTargetSpec(db.channels[c].overwrites, t);
  }

  /** Deleting a channel removes it; its children stay, without a parent, and with what they had. */
  lemma DeleteTakesOneChannel(db: Db, u: Id, c: Id, byNullId: bool)
    requires Answer(db, OpDelete(u, c, byNullId)) == None
    ensures var db' := Step(db, OpDelete(u, c, byNullId));
            && db'.guilds == db.guilds && db'.channels.Keys == db.channels.Keys - {c}
            && forall x :: x in db'.channels ==>
                 db'.channels[x] == if db.channels[x].parentId == Some(c) then db.channels[x].(parentId := None)
                                    else db.channels[x]
  {
  }

  /** A sync marks the channel as synced and takes its own rows; nothing else changes. */
  lemma SyncTakesTheRows(db: Db, u: Id, c: Id)
    requires Answer(db, OpSync(u, c)) == None
    ensures var db' := Step(db, OpSync(u, c));
            && db'.guilds == db.guilds && db'.channels.Keys == db.channels.Keys
            && db'.channels[c] == db.channels[c].(isSynced := true, overwrites := [])
            && forall x :: x in db.channels && x != c ==> db'.channels[x] == db.channels[x]
  {
  }
}
