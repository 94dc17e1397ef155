/** The channels of all guilds and their permission overwrites, as a state machine: what each
    operation of the channels service does to the store, what every run keeps, and what a change
    means for the permissions users end up with. */
module ChannelStore {
  import opened Common
  import opened Permissions

  datatype Kind = Category | Text | Voice | DM

  datatype Channel = Channel(guildId: Option<Id>, ownerId: Id, kind: Kind, parentId: Option<Id>,
                             isSynced: bool, overwrites: seq<Overwrite>)

  datatype Db = Db(guilds: map<Id, Guild>, channels: map<Id, Channel>)

  datatype CreateRequest = CreateRequest(guildId: Option<Id>, name: string, kind: Kind,
                                         parentId: Option<Id>, isPrivate: bool)

  /** Masks arrive as decimal strings. The model covers those a JavaScript number holds exactly, without bit 31,
      which would be stored as a negative number. */
  type Mask = m: Perms | forall b :: b in m ==> b < 53 && b != 31

  /** `&` and `~` on strings are 32-bit: higher bits are lost. */
  function AsInt32(mask: Mask): Perms {
    set b | b in mask && b < 31
  }

  datatype UpdateRequest = UpdateRequest(userId: Id, channelId: Id, targetId: Id,
                                         targetType: TargetType, allow: Mask, deny: Mask)

  // ---------- reading permissions ----------

  /** The rows that decide: the parent's for a synced channel with a parent, else the channel's own. */
  function RowsInForce(db: Db, ch: Channel): seq<Overwrite> {
    if ch.isSynced && ch.parentId.Some? && ch.parentId.value in db.channels
    then db.channels[ch.parentId.value].overwrites
    else ch.overwrites
  }

  function SubjectOf(db: Db, userId: Id, guildId: Id): Subject {
    Subject(userId, if guildId in db.guilds then MemberRoles(db.guilds[guildId].members, userId) else [], guildId)
  }

  ghost function BaseIn(db: Db, userId: Id, guildId: Id): Perms {
    if guildId in db.guilds then BasePermission(db.guilds[guildId], guildId, userId) else {}
  }

  ghost function EffectivePermission(db: Db, userId: Id, guildId: Id, channelId: Id): Perms {
    if channelId !in db.channels || db.channels[channelId].guildId != Some(guildId) then {}
    else
      var ch := db.channels[channelId];
      if ch.ownerId == userId then BaseIn(db, userId, guildId)
      else Effective(BaseIn(db, userId, guildId), RowsInForce(db, ch), SubjectOf(db, userId, guildId))
  }

  // ---------- writing ----------

  predicate HasTarget(rows: seq<Overwrite>, targetId: Id) {
    exists i :: 0 <= i < |rows| && rows[i].targetId == targetId
  }

  /** Store a row's masks under its target: an existing row keeps its place and its target type. */
  function SetRow(rows: seq<Overwrite>, ow: Overwrite): seq<Overwrite> {
    if rows == [] then [ow]
    else if rows[0].targetId == ow.targetId then [rows[0].(allow := ow.allow, deny := ow.deny)] + rows[1..]
    else [rows[0]] + SetRow(rows[1..], ow)
  }

  /** `filter(ow => ow.targetId !== targetId)` */
  function DropTarget(rows: seq<Overwrite>, targetId: Id): seq<Overwrite> {
    if rows == [] then []
    else if rows[0].targetId == targetId then DropTarget(rows[1..], targetId)
    else [rows[0]] + DropTarget(rows[1..], targetId)
  }

  /** A bit both allowed and denied in the request ends up neither. */
  function Cleaned(dto: UpdateRequest): Overwrite {
    Overwrite(dto.targetId, dto.targetType, AsInt32(dto.allow) - AsInt32(dto.deny),
              AsInt32(dto.deny) - AsInt32(dto.allow))
  }

  function WithChannel(db: Db, channelId: Id, ch: Channel): Db {
    db.(channels := db.channels[channelId := ch])
  }

  ghost predicate Manages(db: Db, userId: Id, guildId: Id, channelId: Id, mask: Perms) {
    mask <= EffectivePermission(db, userId, guildId, channelId)
  }

  ghost predicate MayCreate(db: Db, userId: Id, guildId: Id, parentId: Option<Id>) {
    if parentId.Some? then Manages(db, userId, guildId, parentId.value, MANAGE_CHANNELS)
    else MANAGE_CHANNELS <= BaseIn(db, userId, guildId)
  }

  function NewChannel(userId: Id, guildId: Id, dto: CreateRequest): Channel {
    var everyone := (deny: Perms) => [Overwrite(guildId, Role, {}, deny)];
    if dto.parentId.None? then Channel(Some(guildId), userId, dto.kind, None, false, everyone({}))
    else if dto.isPrivate then
      Channel(Some(guildId), userId, dto.kind, dto.parentId, false, everyone(VIEW_CHANNELS))
    else Channel(Some(guildId), userId, dto.kind, dto.parentId, true, [])
  }

  ghost function Create(db: Db, userId: Id, dto: CreateRequest, newId: Id): (Db, Result<Channel>) {
    if dto.guildId.None? then (db, Failure(BadRequest))
    else if !MayCreate(db, userId, dto.guildId.value, dto.parentId) then (db, Failure(Forbidden))
    else if dto.name == "" then (db, Failure(BadRequest))
    else
      var ch := NewChannel(userId, dto.guildId.value, dto);
      (WithChannel(db, newId, ch), Success(ch))
  }

  /** Deleting a row cascades to its overwrites and nulls the parent of its children. */
  function WithoutChannel(db: Db, channelId: Id): Db {
    db.(channels := map c | c in db.channels && c != channelId ::
                      if db.channels[c].parentId == Some(channelId) then db.channels[c].(parentId := None)
                      else db.channels[c])
  }

  /** `byNullId` is the verdict of the permission lookup when the id handed to the ORM is null, which
      happens for a synced channel that lost its parent and for a channel without a guild. */
  ghost function Delete(db: Db, userId: Id, channelId: Id, byNullId: bool): (Db, Result<()>) {
    if channelId !in db.channels then (db, Failure(BadRequest))
    else
      var ch := db.channels[channelId];
      var granted :=
        if ch.guildId.None? || (ch.isSynced && ch.parentId.None?) then byNullId
        else Manages(db, userId, ch.guildId.value,
                     if ch.isSynced then ch.parentId.value else channelId, MANAGE_CHANNELS);
      if granted then (WithoutChannel(db, channelId), Success(())) else (db, Failure(Forbidden))
  }

  predicate TargetExists(g: Guild, dto: UpdateRequest) {
    if dto.targetType == Member then exists i :: 0 <= i < |g.members| && g.members[i].userId == dto.targetId
    else dto.targetId in g.roles
  }

  /** The rows in force, with the target's row set to the requested masks, become the channel's own. */
  function Overwritten(db: Db, dto: UpdateRequest): Db
    requires dto.channelId in db.channels
  {
    var ch := db.channels[dto.channelId];
    WithChannel(db, dto.channelId,
                ch.(isSynced := ch.isSynced && ch.parentId.None?,
                    overwrites := SetRow(RowsInForce(db, ch), Cleaned(dto))))
  }

  ghost function UpdateOverwrite(db: Db, dto: UpdateRequest): (Db, Result<Overwrite>) {
    if dto.channelId !in db.channels then (db, Failure(BadRequest))
    else
      var ch := db.channels[dto.channelId];
      if ch.guildId.None? then (db, Failure(BadRequest))
      else if !Manages(db, dto.userId, ch.guildId.value, dto.channelId, MANAGE_CHANNELS) then
        (db, Failure(Forbidden))
      else if ch.guildId.value !in db.guilds || !TargetExists(db.guilds[ch.guildId.value], dto) then
        (db, Failure(BadRequest))
      else
        var db' := Overwritten(db, dto);
        (db', Success(RowOf(db'.channels[dto.channelId].overwrites, Cleaned(dto))))
  }

  /** The stored row of a target. */
  function RowOf(rows: seq<Overwrite>, ow: Overwrite): Overwrite {
    if rows == [] then ow
    else if rows[0].targetId == ow.targetId then rows[0]
    else RowOf(rows[1..], ow)
  }

  ghost function Sync(db: Db, userId: Id, channelId: Id): (Db, Result<()>) {
    if channelId !in db.channels then (db, Failure(BadRequest))
    else
      var ch := db.channels[channelId];
      if ch.guildId.None? || ch.parentId.None? then (db, Failure(BadRequest))
      else if !Manages(db, userId, ch.guildId.value, channelId, MANAGE_CHANNELS) then (db, Failure(Forbidden))
      else (WithChannel(db, channelId, ch.(isSynced := true, overwrites := [])), Success(()))
  }

  ghost function DeleteOverwrite(db: Db, userId: Id, channelId: Id, targetId: Id): (Db, Result<()>) {
    if channelId !in db.channels then (db, Failure(BadRequest))
    else
      var ch := db.channels[channelId];
      if ch.guildId.None? || !HasTarget(ch.overwrites, targetId) then (db, Failure(BadRequest))
      else if !Manages(db, userId, ch.guildId.value, channelId, MANAGE_ROLES) then (db, Failure(Forbidden))
      else if ch.guildId == Some(targetId) then (db, Failure(BadRequest))
      else (WithChannel(db, channelId, ch.(overwrites := DropTarget(ch.overwrites, targetId))), Success(()))
  }

  datatype Op =
    | OpCreate(userId: Id, create: CreateRequest, newId: Id)
    | OpDelete(userId: Id, channelId: Id, byNullId: bool)
    | OpUpdate(update: UpdateRequest)
    | OpSync(userId: Id, channelId: Id)
    | OpDeleteOverwrite(userId: Id, channelId: Id, targetId: Id)

  ghost function Step(db: Db, op: Op): Db {
    match op
    case OpCreate(u, dto, newId) => Create(db, u, dto, newId).0
    case OpDelete(u, c, n) => Delete(db, u, c, n).0
    case OpUpdate(dto) => UpdateOverwrite(db, dto).0
    case OpSync(u, c) => Sync(db, u, c).0
    case OpDeleteOverwrite(u, c, t) => DeleteOverwrite(db, u, c, t).0
  }

  ghost predicate Succeeds(db: Db, op: Op) {
    match op
    case OpCreate(u, dto, newId) => Create(db, u, dto, newId).1.Success?
    case OpDelete(u, c, n) => Delete(db, u, c, n).1.Success?
    case OpUpdate(dto) => UpdateOverwrite(db, dto).1.Success?
    case OpSync(u, c) => Sync(db, u, c).1.Success?
    case OpDeleteOverwrite(u, c, t) => DeleteOverwrite(db, u, c, t).1.Success?
  }

  function Target(op: Op): Id {
    if op.OpCreate? then op.newId else if op.OpUpdate? then op.update.channelId else op.channelId
  }

  ghost function Run(db: Db, ops: seq<Op>): Db
    decreases |ops|
  {
    if ops == [] then db else Run(Step(db, ops[0]), ops[1..])
  }

  // ---------- what every run keeps ----------

  ghost predicate DisjointMasks(rows: seq<Overwrite>) {
    forall ow :: ow in rows ==> ow.allow !! ow.deny
  }

  ghost predicate GoodRows(rows: seq<Overwrite>) {
    UniqueTargets(rows) && DisjointMasks(rows) && NarrowRows(rows)
  }

  ghost predicate GoodChannel(db: Db, c: Id, ch: Channel) {
    && GoodRows(ch.overwrites)
    && (ch.isSynced && ch.parentId.Some? ==> ch.overwrites == [])
    && (ch.guildId.Some? ==> ch.guildId.value in db.guilds)
    && (ch.parentId.Some? ==>
          ch.parentId.value != c && ch.parentId.value in db.channels
          && db.channels[ch.parentId.value].guildId == ch.guildId)
  }

  /** Foreign keys hold, rows are unique per target with disjoint masks, and a synced channel that
      still has a parent has no rows of its own. */
  ghost predicate Good(db: Db) {
    forall c :: c in db.channels ==> GoodChannel(db, c, db.channels[c])
  }

  /** New channels get fresh ids; nothing else is asked of the callers. */
  ghost predicate FreshIds(db: Db, ops: seq<Op>)
    decreases |ops|
  {
    ops == [] ||
    ((ops[0].OpCreate? ==> ops[0].newId !in db.channels) && FreshIds(Step(db, ops[0]), ops[1..]))
  }

  lemma HasTargetCons(rows: seq<Overwrite>, t: Id)
    requires rows != []
    ensures HasTarget(rows, t) <==> rows[0].targetId == t || HasTarget(rows[1..], t)
  {
    if HasTarget(rows, t) {
      var i :| 0 <= i < |rows| && rows[i].targetId == t;
      if i > 0 { assert rows[1..][i - 1] == rows[i]; }
    }
    if HasTarget(rows[1..], t) {
      var i :| 0 <= i < |rows[1..]| && rows[1..][i].targetId == t;
      assert rows[i + 1] == rows[1..][i];
    }
  }

  /** The row that is set is there, with the new masks and, if it was there before, its old type. */
  lemma {:induction false} SetRowHas(rows: seq<Overwrite>, ow: Overwrite)
    ensures var set' := SetRow(rows, ow);
            && RowOf(set', ow) in set' && RowOf(set', ow).targetId == ow.targetId
            && RowOf(set', ow).allow == ow.allow && RowOf(set', ow).deny == ow.deny
            && (HasTarget(rows, ow.targetId) ==> exists r :: r in rows && r.targetId == ow.targetId
                                                             && r.targetType == RowOf(set', ow).targetType)
            && (!HasTarget(rows, ow.targetId) ==> RowOf(set', ow) == ow)
  {
    var set' := SetRow(rows, ow);
    if rows == [] {
    } else if rows[0].targetId == ow.targetId {
      assert rows[0] in rows && set'[0] == RowOf(set', ow);
    } else {
      SetRowHas(rows[1..], ow);
      assert rows == [rows[0]] + rows[1..] && set'[1..] == SetRow(rows[1..], ow);
      HasTargetCons(rows, ow.targetId);
    }
  }

  /** Rows of other targets are untouched, and targets stay unique. */
  lemma {:induction false} SetRowSparesOthers(rows: seq<Overwrite>, ow: Overwrite)
    requires UniqueTargets(rows)
    ensures UniqueTargets(SetRow(rows, ow))
    ensures forall r :: r in SetRow(rows, ow) && r.targetId != ow.targetId <==> r in rows && r.targetId != ow.targetId
  {
    var set' := SetRow(rows, ow);
    if rows == [] {
    } else if rows[0].targetId == ow.targetId {
      assert rows == [rows[0]] + rows[1..] && set'[1..] == rows[1..];
    } else {
      var rest := SetRow(rows[1..], ow);
      SetRowSparesOthers(rows[1..], ow);
      assert rows == [rows[0]] + rows[1..] && set' == [rows[0]] + rest;
      forall r | r in rest ensures r.targetId != rows[0].targetId {
        if r.targetId != ow.targetId { assert r in rows[1..]; }
      }
    }
  }

  lemma SetRowSpec(rows: seq<Overwrite>, ow: Overwrite)
    requires UniqueTargets(rows)
    ensures var set' := SetRow(rows, ow);
            && UniqueTargets(set')
            && (forall r :: r in set' && r.targetId != ow.targetId <==> r in rows && r.targetId != ow.targetId)
            && RowOf(set', ow) in set' && RowOf(set', ow).targetId == ow.targetId
            && RowOf(set', ow).allow == ow.allow && RowOf(set', ow).deny == ow.deny
            && (HasTarget(rows, ow.targetId) ==> exists r :: r in rows && r.targetId == ow.targetId
                                                             && r.targetType == RowOf(set', ow).targetType)
            && (!HasTarget(rows, ow.targetId) ==> RowOf(set', ow) == ow)
            && (forall r :: r in set' && r.targetId == ow.targetId ==> r == RowOf(set', ow))
  {
    SetRowHas(rows, ow);
    SetRowSparesOthers(rows, ow);
    var set' := SetRow(rows, ow);
    forall r | r in set' && r.targetId == ow.targetId ensures r == RowOf(set', ow) {
      var i :| 0 <= i < |set'| && set'[i] == r;
      var j :| 0 <= j < |set'| && set'[j] == RowOf(set', ow);
    }
  }

  lemma {:induction false} DropTargetSpec(rows: seq<Overwrite>, t: Id)
    ensures forall r :: r in DropTarget(rows, t) <==> r in rows && r.targetId != t
    ensures UniqueTargets(rows) ==> UniqueTargets(DropTarget(rows, t))
  {
    if rows != [] {
      DropTargetSpec(rows[1..], t);
      assert rows == [rows[0]] + rows[1..];
    }
  }

  lemma SetRowGood(rows: seq<Overwrite>, ow: Overwrite)
    requires GoodRows(rows) && ow.allow !! ow.deny && Narrow(ow.deny)
    ensures GoodRows(SetRow(rows, ow))
  {
    SetRowSpec(rows, ow);
  }

  lemma CreateKeepsGood(db: Db, u: Id, dto: CreateRequest, newId: Id)
    requires Good(db) && newId !in db.channels
    ensures Good(Create(db, u, dto, newId).0)
  {
    var db' := Create(db, u, dto, newId).0;
    forall c | c in db'.channels ensures GoodChannel(db', c, db'.channels[c]) {
      if c != newId { assert GoodChannel(db, c, db.channels[c]); }
      else if db' != db && dto.parentId.Some? {
        assert dto.parentId.value in db.channels;
      }
    }
  }

  lemma DeleteKeepsGood(db: Db, u: Id, d: Id, byNullId: bool)
    requires Good(db)
    ensures Good(Delete(db, u, d, byNullId).0)
  {
    var db' := Delete(db, u, d, byNullId).0;
    forall c | c in db'.channels ensures GoodChannel(db', c, db'.channels[c]) {
      assert GoodChannel(db, c, db.channels[c]);
    }
  }

  lemma UpdateKeepsGood(db: Db, dto: UpdateRequest)
    requires Good(db)
    ensures Good(UpdateOverwrite(db, dto).0)
  {
    var db' := UpdateOverwrite(db, dto).0;
    forall c | c in db'.channels ensures GoodChannel(db', c, db'.channels[c]) {
      assert GoodChannel(db, c, db.channels[c]);
      if c == dto.channelId && db' != db {
        var ch := db.channels[c];
        if ch.parentId.Some? { assert GoodChannel(db, ch.parentId.value, db.channels[ch.parentId.value]); }
        SetRowGood(RowsInForce(db, ch), Cleaned(dto));
      }
    }
  }

  lemma SyncKeepsGood(db: Db, u: Id, s: Id)
    requires Good(db)
    ensures Good(Sync(db, u, s).0)
  {
    var db' := Sync(db, u, s).0;
    forall c | c in db'.channels ensures GoodChannel(db', c, db'.channels[c]) {
      assert GoodChannel(db, c, db.channels[c]);
    }
  }

  lemma DeleteOverwriteKeepsGood(db: Db, u: Id, d: Id, t: Id)
    requires Good(db)
    ensures Good(DeleteOverwrite(db, u, d, t).0)
  {
    var db' := DeleteOverwrite(db, u, d, t).0;
    forall c | c in db'.channels ensures GoodChannel(db', c, db'.channels[c]) {
      assert GoodChannel(db, c, db.channels[c]);
      if c == d { DropTargetSpec(db.channels[c].overwrites, t); }
    }
  }

  /** Every operation keeps the store good. */
  lemma StepKeepsGood(db: Db, op: Op)
    requires Good(db) && (op.OpCreate? ==> op.newId !in db.channels)
    ensures Good(Step(db, op))
  {
    match op
    case OpCreate(u, dto, newId) => CreateKeepsGood(db, u, dto, newId);
    case OpDelete(u, d, n) => DeleteKeepsGood(db, u, d, n);
    case OpUpdate(dto) => UpdateKeepsGood(db, dto);
    case OpSync(u, s) => SyncKeepsGood(db, u, s);
    case OpDeleteOverwrite(u, d, t) => DeleteOverwriteKeepsGood(db, u, d, t);
  }

  /** The store invariant holds in every reachable state. */
  lemma {:induction false} RunKeepsGood(db: Db, ops: seq<Op>)
    requires Good(db) && FreshIds(db, ops)
    ensures Good(Run(db, ops))
    decreases |ops|
  {
    if ops != [] {
      StepKeepsGood(db, ops[0]);
      RunKeepsGood(Step(db, ops[0]), ops[1..]);
    }
  }

  // ---------- the @everyone row ----------

  ghost predicate HasEveryone(rows: seq<Overwrite>, guildId: Id) {
    exists r :: r in rows && r.targetId == guildId && r.targetType == Role
  }

  /** Parents are top-level categories, and every unsynced guild channel has its @everyone row. */
  ghost predicate Tidy(db: Db) {
    forall c :: c in db.channels ==>
      var ch := db.channels[c];
      && (ch.kind == Category ==> ch.parentId.None? && !ch.isSynced)
      && (ch.parentId.Some? && ch.parentId.value in db.channels ==> db.channels[ch.parentId.value].kind == Category)
      && (ch.guildId.Some? && !ch.isSynced ==> HasEveryone(ch.overwrites, ch.guildId.value))
  }

  /** Categories are created at the top, other channels at the top or under a category. */
  ghost predicate CategoriesOnTop(db: Db, op: Op) {
    op.OpCreate? && op.create.parentId.Some? ==>
      && op.create.kind != Category
      && (op.create.parentId.value in db.channels ==> db.channels[op.create.parentId.value].kind == Category)
  }

  ghost predicate CategoriesOnTopRun(db: Db, ops: seq<Op>)
    decreases |ops|
  {
    ops == [] || (CategoriesOnTop(db, ops[0]) && CategoriesOnTopRun(Step(db, ops[0]), ops[1..]))
  }

  lemma SetRowKeepsEveryone(rows: seq<Overwrite>, ow: Overwrite, guildId: Id)
    requires UniqueTargets(rows) && HasEveryone(rows, guildId)
    ensures HasEveryone(SetRow(rows, ow), guildId)
  {
    SetRowSpec(rows, ow);
    var r :| r in rows && r.targetId == guildId && r.targetType == Role;
    if ow.targetId == guildId {
      var i :| 0 <= i < |rows| && rows[i] == r;
      assert HasTarget(rows, guildId);
      var r' :| r' in rows && r'.targetId == guildId && r'.targetType == RowOf(SetRow(rows, ow), ow).targetType;
      var j :| 0 <= j < |rows| && rows[j] == r';
      assert i == j;
      assert RowOf(SetRow(rows, ow), ow) in SetRow(rows, ow);
    } else {
      assert r in SetRow(rows, ow);
    }
  }

  lemma CreateKeepsTidy(db: Db, u: Id, dto: CreateRequest, newId: Id)
    requires Good(db) && Tidy(db) && CategoriesOnTop(db, OpCreate(u, dto, newId)) && newId !in db.channels
    ensures Tidy(Create(db, u, dto, newId).0)
  {
    var db' := Create(db, u, dto, newId).0;
    if db' != db {
      var ch := db'.channels[newId];
      if !ch.isSynced { assert ch.overwrites[0] in ch.overwrites; }
    }
  }

  lemma UpdateKeepsTidy(db: Db, dto: UpdateRequest)
    requires Good(db) && Tidy(db)
    ensures Tidy(UpdateOverwrite(db, dto).0)
  {
    if UpdateOverwrite(db, dto).0 != db {
      assert GoodChannel(db, dto.channelId, db.channels[dto.channelId]);
      var ch := db.channels[dto.channelId];
      if ch.parentId.Some? { assert GoodChannel(db, ch.parentId.value, db.channels[ch.parentId.value]); }
      if !ch.isSynced || ch.parentId.Some? {
        SetRowKeepsEveryone(RowsInForce(db, ch), Cleaned(dto), ch.guildId.value);
      }
    }
  }

  lemma DeleteOverwriteKeepsTidy(db: Db, u: Id, d: Id, t: Id)
    requires Good(db) && Tidy(db)
    ensures Tidy(DeleteOverwrite(db, u, d, t).0)
  {
    var db' := DeleteOverwrite(db, u, d, t).0;
    if db' != db {
      var ch := db.channels[d];
      DropTargetSpec(ch.overwrites, t);
      if !ch.isSynced {
        var r :| r in ch.overwrites && r.targetId == ch.guildId.value && r.targetType == Role;
        assert r in db'.channels[d].overwrites;
      }
    }
  }

  lemma StepKeepsTidy(db: Db, op: Op)
    requires Good(db) && Tidy(db) && CategoriesOnTop(db, op) && (op.OpCreate? ==> op.newId !in db.channels)
    ensures Tidy(Step(db, op))
  {
    match op
    case OpCreate(u, dto, newId) => CreateKeepsTidy(db, u, dto, newId);
    case OpDelete(_, _, _) =>
    case OpUpdate(dto) => UpdateKeepsTidy(db, dto);
    case OpSync(u, s) => assert s in db.channels ==> GoodChannel(db, s, db.channels[s]);
    case OpDeleteOverwrite(u, d, t) => DeleteOverwriteKeepsTidy(db, u, d, t);
  }

  /** With parents that are top-level categories, every reachable unsynced guild channel has its
      @everyone row. */
  lemma {:induction false} RunKeepsTidy(db: Db, ops: seq<Op>)
    requires Good(db) && Tidy(db) && FreshIds(db, ops) && CategoriesOnTopRun(db, ops)
    ensures Tidy(Run(db, ops))
    decreases |ops|
  {
    if ops != [] {
      StepKeepsGood(db, ops[0]);
      StepKeepsTidy(db, ops[0]);
      RunKeepsTidy(Step(db, ops[0]), ops[1..]);
    }
  }

  /** In general the row survives a successful desync exactly when the parent has it or it is the row
      being set. */
  lemma DesyncHasEveryoneIff(db: Db, dto: UpdateRequest)
    requires Good(db) && dto.channelId in db.channels
    requires db.channels[dto.channelId].isSynced && db.channels[dto.channelId].parentId.Some?
    requires UpdateOverwrite(db, dto).1.Success?
    ensures var ch := db.channels[dto.channelId];
            var inherited := db.channels[ch.parentId.value].overwrites;
            HasEveryone(UpdateOverwrite(db, dto).0.channels[dto.channelId].overwrites, ch.guildId.value)
            <==>
            HasEveryone(inherited, ch.guildId.value)
            || (dto.targetId == ch.guildId.value && dto.targetType == Role && !HasTarget(inherited, dto.targetId))
  {
    var ch := db.channels[dto.channelId];
    assert GoodChannel(db, dto.channelId, ch);
    var inherited := db.channels[ch.parentId.value].overwrites;
    assert GoodChannel(db, ch.parentId.value, db.channels[ch.parentId.value]);
    var ow := Cleaned(dto);
    SetRowSpec(inherited, ow);
    if HasEveryone(inherited, ch.guildId.value) {
      SetRowKeepsEveryone(inherited, ow, ch.guildId.value);
    } else if HasEveryone(SetRow(inherited, ow), ch.guildId.value) {
      var r :| r in SetRow(inherited, ow) && r.targetId == ch.guildId.value && r.targetType == Role;
      assert r.targetId == ow.targetId;
    } else if dto.targetId == ch.guildId.value && !HasTarget(inherited, dto.targetId) {
      assert RowOf(SetRow(inherited, ow), ow) in SetRow(inherited, ow);
    }
  }

  // A category, a text channel synced to it, and a request for a channel under the text channel.
  const NESTED_OPEN := [Overwrite(1, Role, {}, {})]
  const NESTED_GUILD := Guild(9, map[1 := {}], [GuildMember(9, [])])
  const NESTED_DB := Db(map[1 := NESTED_GUILD], map[2 := Channel(Some(1), 9, Category, None, false, NESTED_OPEN),
                                                   3 := Channel(Some(1), 9, Text, Some(2), true, [])])
  const NESTED_CHILD := Channel(Some(1), 9, Text, Some(3), true, [])
  const NESTED_MAKE := OpCreate(9, CreateRequest(Some(1), "x", Text, Some(3), false), 4)
  const NESTED_DESYNC := OpUpdate(UpdateRequest(9, 4, 9, Member, {}, {}))
  const NESTED_LOST := NESTED_CHILD.(isSynced := false, overwrites := [Overwrite(9, Member, {}, {})])

  lemma NestedIsSound()
    ensures Good(NESTED_DB) && Tidy(NESTED_DB)
  {
    assert GoodChannel(NESTED_DB, 2, NESTED_DB.channels[2]);
    assert GoodChannel(NESTED_DB, 3, NESTED_DB.channels[3]);
    assert NESTED_OPEN[0] in NESTED_OPEN;
  }

  lemma NestedCreates()
    ensures Step(NESTED_DB, NESTED_MAKE) == WithChannel(NESTED_DB, 4, NESTED_CHILD)
  {
    assert BaseIn(NESTED_DB, 9, 1) == ALL_PERMISSIONS;
    assert Manages(NESTED_DB, 9, 1, 3, MANAGE_CHANNELS);
  }

  lemma NestedDesyncs()
    ensures Step(WithChannel(NESTED_DB, 4, NESTED_CHILD), NESTED_DESYNC) == WithChannel(NESTED_DB, 4, NESTED_LOST)
  {
    var db := WithChannel(NESTED_DB, 4, NESTED_CHILD);
    assert Manages(db, 9, 1, 4, MANAGE_CHANNELS) by { assert BaseIn(db, 9, 1) == ALL_PERMISSIONS; }
    assert TargetExists(NESTED_GUILD, NESTED_DESYNC.update) by { assert NESTED_GUILD.members[0].userId == 9; }
    assert RowsInForce(db, NESTED_CHILD) == [];
    assert AsInt32({}) - AsInt32({}) == {};
    assert Cleaned(NESTED_DESYNC.update) == Overwrite(9, Member, {}, {});
    assert Overwritten(db, NESTED_DESYNC.update).channels == db.channels[4 := NESTED_LOST];
  }

  lemma RunOfTwo(db: Db, first: Op, second: Op)
    ensures Run(db, [first, second]) == Step(Step(db, first), second)
    ensures FreshIds(db, [first, second])
            <==> ((first.OpCreate? ==> first.newId !in db.channels)
                  && (second.OpCreate? ==> second.newId !in Step(db, first).channels))
    ensures CategoriesOnTopRun(db, [first, second]) ==> CategoriesOnTop(db, first)
  {
    var db1 := Step(db, first);
    assert [first, second][1..] == [second] && [second][1..] == [];
    assert Run(db1, [second]) == Run(Step(db1, second), []);
    assert FreshIds(db1, [second]) <==> (second.OpCreate? ==> second.newId !in db1.channels);
  }

  /** `create` accepts any channel as a parent. Under a synced text channel a new channel inherits no
      rows, and desyncing it leaves it without an @everyone row. */
  lemma NestedParentLosesEveryone()
    ensures exists db, ops ::
              && Good(db) && Tidy(db) && FreshIds(db, ops) && !CategoriesOnTopRun(db, ops)
              && !Tidy(Run(db, ops))
  {
    var ops := [NESTED_MAKE, NESTED_DESYNC];
    NestedIsSound();
    NestedCreates();
    NestedDesyncs();
    RunOfTwo(NESTED_DB, NESTED_MAKE, NESTED_DESYNC);
    assert !Tidy(Run(NESTED_DB, ops)) by {
      assert Run(NESTED_DB, ops).channels[4] == NESTED_LOST && !HasEveryone(NESTED_LOST.overwrites, 1);
    }
    assert !CategoriesOnTop(NESTED_DB, NESTED_MAKE);
  }
}
