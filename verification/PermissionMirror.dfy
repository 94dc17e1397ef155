/** The web client's copy of a guild's channels: how it follows overwrite changes, its own and other
    users', and why the permissions computed from it are the server's. */
module PermissionMirror {
  import opened Common
  import opened Permissions
  import opened ChannelStore
  import opened OverwriteMeaning

  datatype ClientChannel = ClientChannel(kind: Kind, parent: Option<Id>, isSynced: bool, overwrites: seq<Overwrite>)

  type Copy = map<Id, ClientChannel>

  /** A channel as a response or an event carries it. Only a new channel comes with its parent; a sync leaves
      the rows out. */
  datatype ChannelDTO = ChannelDTO(kind: Kind, parent: Option<Id>, isSynced: bool, overwrites: Option<seq<Overwrite>>)

  // ---------- the client's handlers ----------

  /** `old.map(ow => ow.targetId !== target ? ow : row)` */
  function Replace(rows: seq<Overwrite>, row: Overwrite): seq<Overwrite> {
    if rows == [] then []
    else [if rows[0].targetId != row.targetId then rows[0] else row] + Replace(rows[1..], row)
  }

  function ClientSet(rows: seq<Overwrite>, row: Overwrite): seq<Overwrite> {
    if HasTarget(rows, row.targetId) then Replace(rows, row) else rows + [row]
  }

  /** `{ ...ch, ...dto }`: absent fields keep their old value. */
  function Merge(ch: ClientChannel, dto: ChannelDTO): ClientChannel {
    ClientChannel(dto.kind, if dto.parent.Some? then dto.parent else ch.parent, dto.isSynced,
                  if dto.overwrites.Some? then dto.overwrites.value else ch.overwrites)
  }

  /** A CHANNEL_UPDATE event, and the response to a creation or a sync: an unknown channel is appended. */
  function OnChannelDTO(copy: Copy, c: Id, dto: ChannelDTO): Copy {
    copy[c := if c in copy then Merge(copy[c], dto) else Merge(ClientChannel(dto.kind, None, dto.isSynced, []), dto)]
  }

  /** The copy was going to clone a parent it does not hold, which throws. */
  predicate UpdateThrows(copy: Copy, c: Id) {
    c in copy && copy[c].isSynced && copy[c].parent.Some? && copy[c].parent.value !in copy
  }

  /** The response to the client's own overwrite update. */
  function OnOverwriteUpdated(copy: Copy, c: Id, row: Overwrite): Copy
    requires !UpdateThrows(copy, c)
  {
    if c !in copy then copy
    else
      var ch := copy[c];
      if ch.isSynced && ch.parent.Some? then
        copy[c := ch.(isSynced := false, overwrites := ClientSet(copy[ch.parent.value].overwrites, row))]
      else copy[c := ch.(overwrites := ClientSet(ch.overwrites, row))]
  }

  /** The response to the client's own overwrite deletion. */
  function OnOverwriteDeleted(copy: Copy, c: Id, targetId: Id): Copy {
    if c in copy then copy[c := copy[c].(overwrites := DropTarget(copy[c].overwrites, targetId))] else copy
  }

  /** A deleted channel disappears; a deleted category is no longer anyone's parent. */
  function OnChannelDeleted(copy: Copy, c: Id): Copy {
    if c !in copy then copy
    else
      map x | x in copy && x != c ::
        if copy[c].kind == Category && copy[x].parent == Some(c) then copy[x].(parent := None) else copy[x]
  }

  // ---------- the client's evaluation ----------

  /** The guild as the client holds it: `roles` lists the guild's roles in some order. */
  ghost predicate ListsRoles(roles: seq<Id>, g: Guild) {
    forall r :: r in roles <==> r in g.roles
  }

  /** `guild.roles.filter(role => member.roles.find(...))` */
  function HeldRoles(roles: seq<Id>, held: seq<Id>): seq<Id> {
    if roles == [] then []
    else if roles[0] in held then [roles[0]] + HeldRoles(roles[1..], held)
    else HeldRoles(roles[1..], held)
  }

  lemma {:induction false} HeldRolesSpec(roles: seq<Id>, held: seq<Id>)
    ensures forall r :: r in HeldRoles(roles, held) <==> r in roles && r in held
  {
    if roles != [] {
      HeldRolesSpec(roles[1..], held);
      assert roles == [roles[0]] + roles[1..];
    }
  }

  function ClientRows(copy: Copy, c: Id): seq<Overwrite>
    requires c in copy
  {
    var ch := copy[c];
    if ch.isSynced && ch.parent.Some? && ch.parent.value in copy then copy[ch.parent.value].overwrites
    else ch.overwrites
  }

  ghost function ClientPermission(g: Guild, roles: seq<Id>, copy: Copy, m: GuildMember, guildId: Id, c: Id): Perms
    requires c in copy
  {
    if g.ownerId == m.userId then ALL_PERMISSIONS
    else
      var held := HeldRoles(roles, m.roles);
      ClientEffective(GrantedBy(g, guildId, held), ClientRows(copy, c), Subject(m.userId, held, guildId))
  }

  /** The client shows the guild's owner everything, whatever the rows say. */
  lemma OwnerIsShownEverything(g: Guild, roles: seq<Id>, copy: Copy, m: GuildMember, guildId: Id, c: Id)
    requires c in copy && g.ownerId == m.userId
    ensures ALL_PERMISSIONS <= ClientPermission(g, roles, copy, m, guildId, c)
  {
  }

  /** A deleted channel leaves the copy; only the children of a deleted category lose their parent. */
  lemma DeletionOnTheCopy(copy: Copy, c: Id, x: Id)
    ensures var copy' := OnChannelDeleted(copy, c);
            && (x in copy' <==> x in copy && x != c)
            && (x in copy' ==> copy'[x] == copy[x].(parent := copy'[x].parent))
            && (x in copy' ==> copy'[x].parent == if c in copy && copy[c].kind == Category && copy[x].parent == Some(c)
                                                  then None else copy[x].parent)
  {
  }

  // ---------- the simulation ----------

  ghost predicate Agrees(db: Db, copy: Copy, c: Id)
    requires c in db.channels && c in copy
  {
    var ch, cl := db.channels[c], copy[c];
    && cl.kind == ch.kind && cl.parent == ch.parentId && cl.isSynced == ch.isSynced
    && UniqueTargets(cl.overwrites)
    && (!SyncedToSome(db, c) ==> SameRows(cl.overwrites, ch.overwrites))
  }

  /** The copy holds exactly the guild's channels and agrees on each; the rows of a channel synced to a
      parent may be stale, since nobody looks at them. */
  ghost predicate Mirrors(db: Db, copy: Copy, guildId: Id) {
    && (forall c :: InGuild(db, guildId, c) <==> c in copy)
    && (forall c :: c in copy ==> Agrees(db, copy, c))
  }

  /** What an update event carries of a channel, and what the creation of one does. */
  function UpdatedDTO(ch: Channel): ChannelDTO {
    ChannelDTO(ch.kind, None, ch.isSynced, Some(ch.overwrites))
  }

  function CreatedDTO(ch: Channel): ChannelDTO {
    ChannelDTO(ch.kind, ch.parentId, ch.isSynced, Some(ch.overwrites))
  }

  function SyncedDTO(ch: Channel): ChannelDTO {
    ChannelDTO(ch.kind, None, ch.isSynced, None)
  }

  /** The operation concerns a channel of the guild the copy is of. */
  ghost predicate Concerns(db: Db, guildId: Id, op: Op) {
    if op.OpCreate? then op.create.guildId == Some(guildId) else InGuild(db, guildId, Target(op))
  }

  /** One operation on the server, and what the client of user `me` does about it: its own changes come back
      as responses, everyone else's as events. */
  ghost function Follow(db: Db, copy: Copy, guildId: Id, me: Id, op: Op): Copy {
    if !Succeeds(db, op) || !Concerns(db, guildId, op) then copy
    else
      var db', t := Step(db, op), Target(op);
      match op
      case OpCreate(_, _, _) => if t in db'.channels then OnChannelDTO(copy, t, CreatedDTO(db'.channels[t])) else copy
      case OpDelete(_, _, _) => OnChannelDeleted(copy, t)
      case OpUpdate(dto) =>
        if dto.userId != me then OnChannelDTO(copy, t, UpdatedDTO(db'.channels[t]))
        else if UpdateThrows(copy, t) then copy
        else OnOverwriteUpdated(copy, t, UpdateOverwrite(db, dto).1.value)
      case OpSync(_, _) => OnChannelDTO(copy, t, SyncedDTO(db'.channels[t]))
      case OpDeleteOverwrite(u, _, target) =>
        if u == me then OnOverwriteDeleted(copy, t, target) else OnChannelDTO(copy, t, UpdatedDTO(db'.channels[t]))
  }

  lemma {:induction false} ReplaceKeepsPlaces(rows: seq<Overwrite>, row: Overwrite)
    ensures |Replace(rows, row)| == |rows|
    ensures forall i :: 0 <= i < |rows| ==> Replace(rows, row)[i].targetId == rows[i].targetId
  {
    if rows != [] { ReplaceKeepsPlaces(rows[1..], row); }
  }

  lemma {:induction false} ReplaceContents(rows: seq<Overwrite>, row: Overwrite)
    ensures forall r :: r in Replace(rows, row) <==>
                        (r in rows && r.targetId != row.targetId) || (r == row && HasTarget(rows, row.targetId))
  {
    if rows != [] {
      ReplaceContents(rows[1..], row);
      HasTargetCons(rows, row.targetId);
      assert rows == [rows[0]] + rows[1..];
    }
  }

  lemma ReplaceSpec(rows: seq<Overwrite>, row: Overwrite)
    requires UniqueTargets(rows)
    ensures UniqueTargets(Replace(rows, row))
    ensures forall r :: r in Replace(rows, row) <==>
                        (r in rows && r.targetId != row.targetId) || (r == row && HasTarget(rows, row.targetId))
  {
    ReplaceKeepsPlaces(rows, row);
    ReplaceContents(rows, row);
  }

  /** The client's replace-or-append on its rows matches the server's update of the same rows. */
  lemma ClientSetAgrees(mine: seq<Overwrite>, theirs: seq<Overwrite>, ow: Overwrite)
    requires UniqueTargets(mine) && UniqueTargets(theirs) && SameRows(mine, theirs)
    ensures var row := RowOf(SetRow(theirs, ow), ow);
            UniqueTargets(ClientSet(mine, row)) && SameRows(ClientSet(mine, row), SetRow(theirs, ow))
  {
    SetRowSpec(theirs, ow);
    var row := RowOf(SetRow(theirs, ow), ow);
    ReplaceSpec(mine, row);
    if !HasTarget(mine, row.targetId) {
      forall r | r in mine ensures r.targetId != row.targetId {
        var i :| 0 <= i < |mine| && mine[i] == r;
      }
    }
  }

  /** The copy never has to clone a parent it does not hold. */
  lemma NeverThrows(db: Db, copy: Copy, guildId: Id, c: Id)
    requires Good(db) && Mirrors(db, copy, guildId)
    ensures !UpdateThrows(copy, c)
  {
    if c in copy {
      assert Agrees(db, copy, c) && GoodChannel(db, c, db.channels[c]);
      if copy[c].parent.Some? { assert InGuild(db, guildId, copy[c].parent.value); }
    }
  }

  ghost predicate OverwriteOp(op: Op) {
    op.OpUpdate? || op.OpSync? || op.OpDeleteOverwrite?
  }

  lemma UpdateAgrees(db: Db, copy: Copy, guildId: Id, me: Id, dto: UpdateRequest)
    requires Good(db) && Tidy(db) && Mirrors(db, copy, guildId) && InGuild(db, guildId, dto.channelId)
    requires UpdateOverwrite(db, dto).1.Success?
    ensures Agrees(Step(db, OpUpdate(dto)), Follow(db, copy, guildId, me, OpUpdate(dto)), dto.channelId)
  {
    var c, op := dto.channelId, OpUpdate(dto);
    var ch, db' := db.channels[c], Step(db, op);
    assert Agrees(db, copy, c) && GoodChannel(db, c, ch);
    NeverThrows(db, copy, guildId, c);
    UpdateKeepsGood(db, dto);
    assert GoodChannel(db', c, db'.channels[c]);
    if dto.userId == me {
      if ch.isSynced && ch.parentId.Some? {
        var p := ch.parentId.value;
        assert InGuild(db, guildId, p) && Agrees(db, copy, p) && GoodChannel(db, p, db.channels[p]);
        ClientSetAgrees(copy[p].overwrites, db.channels[p].overwrites, Cleaned(dto));
      } else {
        ClientSetAgrees(copy[c].overwrites, ch.overwrites, Cleaned(dto));
      }
    }
  }

  lemma DeleteOverwriteAgrees(db: Db, copy: Copy, guildId: Id, me: Id, u: Id, c: Id, t: Id)
    requires Good(db) && Mirrors(db, copy, guildId) && InGuild(db, guildId, c)
        && DeleteOverwrite(db, u, c, t).1.Success?
    ensures Agrees(Step(db, OpDeleteOverwrite(u, c, t)), Follow(db, copy, guildId, me, OpDeleteOverwrite(u, c, t)), c)
  {
    assert Agrees(db, copy, c) && GoodChannel(db, c, db.channels[c]);
    DropTargetSpec(copy[c].overwrites, t);
    DropTargetSpec(db.channels[c].overwrites, t);
  }

  lemma SyncAgrees(db: Db, copy: Copy, guildId: Id, me: Id, u: Id, c: Id)
    requires Good(db) && Mirrors(db, copy, guildId) && InGuild(db, guildId, c) && Sync(db, u, c).1.Success?
    ensures Agrees(Step(db, OpSync(u, c)), Follow(db, copy, guildId, me, OpSync(u, c)), c)
  {
    assert Agrees(db, copy, c) && GoodChannel(db, c, db.channels[c]);
  }

  /** Agreement off the changed channel carries over. */
  lemma MirrorFrame(db: Db, db': Db, copy: Copy, copy': Copy, guildId: Id, t: Id)
    requires Mirrors(db, copy, guildId)
    requires db'.channels.Keys == db.channels.Keys && copy'.Keys == copy.Keys
    requires forall x :: x in db.channels ==> db'.channels[x].guildId == db.channels[x].guildId
    requires forall x :: x in db.channels && x != t ==> db'.channels[x] == db.channels[x]
    requires forall x :: x in copy && x != t ==> copy'[x] == copy[x]
    requires t in copy ==> t in db.channels && Agrees(db', copy', t)
    ensures Mirrors(db', copy', guildId)
  {
    forall c ensures InGuild(db', guildId, c) <==> c in copy' { assert InGuild(db, guildId, c) <==> c in copy; }
    forall c | c in copy' ensures Agrees(db', copy', c) {
      if c != t { assert Agrees(db, copy, c); }
    }
  }

  lemma StepTouchesTarget(db: Db, op: Op)
    requires OverwriteOp(op) && Succeeds(db, op)
    ensures Target(op) in db.channels && Step(db, op).channels.Keys == db.channels.Keys
    ensures forall x :: x in db.channels ==> Step(db, op).channels[x].guildId == db.channels[x].guildId
    ensures forall x :: x in db.channels && x != Target(op) ==> Step(db, op).channels[x] == db.channels[x]
  {
  }

  lemma FollowTouchesTarget(db: Db, copy: Copy, guildId: Id, me: Id, op: Op)
    requires OverwriteOp(op) && Mirrors(db, copy, guildId)
    ensures Follow(db, copy, guildId, me, op).Keys == copy.Keys
    ensures forall x :: x in copy && x != Target(op) ==> Follow(db, copy, guildId, me, op)[x] == copy[x]
    ensures !Concerns(db, guildId, op) ==> Target(op) !in copy
  {
  }

  lemma OverwriteOpKeepsMirror(db: Db, copy: Copy, guildId: Id, me: Id, op: Op)
    requires Good(db) && Tidy(db) && OverwriteOp(op) && Mirrors(db, copy, guildId) && Succeeds(db, op)
    ensures Mirrors(Step(db, op), Follow(db, copy, guildId, me, op), guildId)
  {
    FollowTouchesTarget(db, copy, guildId, me, op);
    StepTouchesTarget(db, op);
    if Concerns(db, guildId, op) {
      match op
      case OpUpdate(dto) => UpdateAgrees(db, copy, guildId, me, dto);
      case OpSync(u, c) => SyncAgrees(db, copy, guildId, me, u, c);
      case OpDeleteOverwrite(u, c, t) => DeleteOverwriteAgrees(db, copy, guildId, me, u, c, t);
    }
    MirrorFrame(db, Step(db, op), copy, Follow(db, copy, guildId, me, op), guildId, Target(op));
  }

  lemma CreateKeepsMirror(db: Db, copy: Copy, guildId: Id, me: Id, u: Id, dto: CreateRequest, newId: Id)
    requires Good(db) && Mirrors(db, copy, guildId) && newId !in db.channels && Create(db, u, dto, newId).1.Success?
    ensures Mirrors(Create(db, u, dto, newId).0, Follow(db, copy, guildId, me, OpCreate(u, dto, newId)), guildId)
  {
    var op := OpCreate(u, dto, newId);
    var db', copy' := Create(db, u, dto, newId).0, Follow(db, copy, guildId, me, op);
    assert Step(db, op) == db' && newId !in copy;
    assert db' == WithChannel(db, newId, NewChannel(u, dto.guildId.value, dto));
    forall c ensures InGuild(db', guildId, c) <==> c in copy' { assert InGuild(db, guildId, c) <==> c in copy; }
    forall c | c in copy' ensures Agrees(db', copy', c) {
      if c != newId { assert Agrees(db, copy, c); }
    }
  }

  /** No child synced to the channel has rows left over on the client. */
  ghost predicate NoStaleChild(db: Db, copy: Copy, k: Id) {
    forall c :: c in copy && c != k && SyncedTo(db, c, k) ==> copy[c].overwrites == []
  }

  /** Deleting a parent makes a synced child fall back on its own rows: none on the server, and on the client
      whatever it still had. The copy survives exactly when no synced child held stale rows. */
  lemma DeleteKeepsMirrorIff(db: Db, copy: Copy, guildId: Id, me: Id, userId: Id, k: Id, byNullId: bool)
    requires Good(db) && Tidy(db) && Mirrors(db, copy, guildId)
    requires InGuild(db, guildId, k) && Delete(db, userId, k, byNullId).1.Success?
    ensures Mirrors(Delete(db, userId, k, byNullId).0,
                    Follow(db, copy, guildId, me, OpDelete(userId, k, byNullId)), guildId)
            <==> NoStaleChild(db, copy, k)
  {
    var db', copy' := WithoutChannel(db, k), OnChannelDeleted(copy, k);
    assert Follow(db, copy, guildId, me, OpDelete(userId, k, byNullId)) == copy';
    assert forall c :: InGuild(db', guildId, c) <==> InGuild(db, guildId, c) && c != k;
    forall c | c in copy'
      ensures Agrees(db', copy', c) <==> (SyncedTo(db, c, k) ==> copy[c].overwrites == [])
    {
      ChildAfterDelete(db, copy, guildId, k, c);
    }
  }

  lemma ChildAfterDelete(db: Db, copy: Copy, guildId: Id, k: Id, c: Id)
    requires Good(db) && Tidy(db) && Mirrors(db, copy, guildId) && InGuild(db, guildId, k) && c in copy && c != k
    ensures Agrees(WithoutChannel(db, k), OnChannelDeleted(copy, k), c)
            <==> (SyncedTo(db, c, k) ==> copy[c].overwrites == [])
  {
    assert Agrees(db, copy, k);
    assert Agrees(db, copy, c) && GoodChannel(db, c, db.channels[c]);
    if SyncedTo(db, c, k) {
      assert copy[c].overwrites != [] ==> copy[c].overwrites[0] in copy[c].overwrites;
    }
  }

  /** A deletion in another guild is none of this copy's business. */
  lemma ForeignDeleteKeepsMirror(db: Db, copy: Copy, guildId: Id, userId: Id, k: Id, byNullId: bool)
    requires Good(db) && Mirrors(db, copy, guildId)
    requires !InGuild(db, guildId, k) && Delete(db, userId, k, byNullId).1.Success?
    ensures Mirrors(Delete(db, userId, k, byNullId).0, copy, guildId)
  {
    var db' := Delete(db, userId, k, byNullId).0;
    assert k !in copy;
    forall c ensures InGuild(db', guildId, c) <==> c in copy { assert InGuild(db, guildId, c) <==> c in copy; }
    forall c | c in copy ensures Agrees(db', copy, c) {
      assert Agrees(db, copy, c) && GoodChannel(db, c, db.channels[c]);
      assert db'.channels[c] == db.channels[c];
    }
  }

  /** The deletions the copy does not survive. */
  ghost predicate Survives(db: Db, copy: Copy, guildId: Id, op: Op) {
    op.OpDelete? && Succeeds(db, op) && Concerns(db, guildId, op) ==> NoStaleChild(db, copy, op.channelId)
  }

  /** One step of the simulation, whatever the operation. */
  lemma FollowKeepsMirrorIff(db: Db, copy: Copy, guildId: Id, me: Id, op: Op)
    requires Good(db) && Tidy(db) && Mirrors(db, copy, guildId) && (op.OpCreate? ==> op.newId !in db.channels)
    ensures Mirrors(Step(db, op), Follow(db, copy, guildId, me, op), guildId) <==> Survives(db, copy, guildId, op)
  {
    if !Succeeds(db, op) {
      FailureChangesNothing(db, op);
    } else {
      match op
      case OpCreate(u, dto, newId) => CreateKeepsMirror(db, copy, guildId, me, u, dto, newId);
      case OpDelete(u, k, n) =>
        if InGuild(db, guildId, k) {
          DeleteKeepsMirrorIff(db, copy, guildId, me, u, k, n);
        } else {
          ForeignDeleteKeepsMirror(db, copy, guildId, u, k, n);
        }
      case _ => OverwriteOpKeepsMirror(db, copy, guildId, me, op);
    }
  }

  lemma FailureChangesNothing(db: Db, op: Op)
    requires !Succeeds(db, op)
    ensures Step(db, op) == db
  {
  }

  /** The client after a whole run of operations, each followed by the client. */
  ghost function FollowRun(db: Db, copy: Copy, guildId: Id, me: Id, ops: seq<Op>): Copy
    decreases |ops|
  {
    if ops == [] then copy
    else FollowRun(Step(db, ops[0]), Follow(db, copy, guildId, me, ops[0]), guildId, me, ops[1..])
  }

  ghost predicate SurvivesRun(db: Db, copy: Copy, guildId: Id, me: Id, ops: seq<Op>)
    decreases |ops|
  {
    ops == [] ||
    (Survives(db, copy, guildId, ops[0])
     && SurvivesRun(Step(db, ops[0]), Follow(db, copy, guildId, me, ops[0]), guildId, me, ops[1..]))
  }

  lemma {:induction false} RunKeepsMirror(db: Db, copy: Copy, guildId: Id, me: Id, ops: seq<Op>)
    requires Good(db) && Tidy(db) && FreshIds(db, ops) && CategoriesOnTopRun(db, ops)
    requires Mirrors(db, copy, guildId) && SurvivesRun(db, copy, guildId, me, ops)
    ensures Good(Run(db, ops)) && Tidy(Run(db, ops))
    ensures Mirrors(Run(db, ops), FollowRun(db, copy, guildId, me, ops), guildId)
    decreases |ops|
  {
    if ops != [] {
      StepKeepsGood(db, ops[0]);
      StepKeepsTidy(db, ops[0]);
      FollowKeepsMirrorIff(db, copy, guildId, me, ops[0]);
      RunKeepsMirror(Step(db, ops[0]), Follow(db, copy, guildId, me, ops[0]), guildId, me, ops[1..]);
    }
  }

  /** On a mirrored guild the client computes the server's permission for every member who neither owns
      the guild nor created the channel. */
  lemma MirroredPermission(db: Db, copy: Copy, guildId: Id, roles: seq<Id>, m: GuildMember, c: Id)
    requires Good(db) && Tidy(db) && Mirrors(db, copy, guildId) && c in copy && guildId in db.guilds
    requires ValidGuild(db.guilds[guildId]) && ListsRoles(roles, db.guilds[guildId])
    requires m in db.guilds[guildId].members
    requires m.userId != db.guilds[guildId].ownerId && m.userId != db.channels[c].ownerId
    ensures ClientPermission(db.guilds[guildId], roles, copy, m, guildId, c)
            == EffectivePermission(db, m.userId, guildId, c)
  {
    var g, ch := db.guilds[guildId], db.channels[c];
    assert Agrees(db, copy, c) && GoodChannel(db, c, ch);
    if ch.parentId.Some? {
      var p := ch.parentId.value;
      assert InGuild(db, guildId, p) && Agrees(db, copy, p) && GoodChannel(db, p, db.channels[p]);
    }
    var held := HeldRoles(roles, m.roles);
    HeldRolesSpec(roles, m.roles);
    MemberRolesOf(g.members, m);
    var base := BasePermission(g, guildId, m.userId);
    assert GrantedBy(g, guildId, held) == base;
    RowsInForceGood(db, c);
    var theirs, mine := RowsInForce(db, ch), ClientRows(copy, c);
    assert SameRows(mine, theirs) && UniqueTargets(mine);
    ClientEvaluatesAlike(base, mine, Subject(m.userId, held, guildId));
    OrderIndependence(base, mine, theirs, Subject(m.userId, held, guildId), SubjectOf(db, m.userId, guildId));
  }

  /** The main result: whatever happened to the channels and their overwrites, whoever did it, the client shows
      such a member exactly the permission the server enforces. */
  lemma ClientShowsServerPermission(db: Db, copy: Copy, guildId: Id, me: Id, ops: seq<Op>,
                                    roles: seq<Id>, m: GuildMember, c: Id)
    requires Good(db) && Tidy(db) && FreshIds(db, ops) && CategoriesOnTopRun(db, ops)
    requires Mirrors(db, copy, guildId) && SurvivesRun(db, copy, guildId, me, ops)
    requires guildId in Run(db, ops).guilds && ValidGuild(Run(db, ops).guilds[guildId])
    requires ListsRoles(roles, Run(db, ops).guilds[guildId]) && m in Run(db, ops).guilds[guildId].members
    requires c in FollowRun(db, copy, guildId, me, ops) && c in Run(db, ops).channels
    requires m.userId != Run(db, ops).guilds[guildId].ownerId && m.userId != Run(db, ops).channels[c].ownerId
    ensures ClientPermission(Run(db, ops).guilds[guildId], roles, FollowRun(db, copy, guildId, me, ops), m, guildId, c)
            == EffectivePermission(Run(db, ops), m.userId, guildId, c)
  {
    RunKeepsMirror(db, copy, guildId, me, ops);
    MirroredPermission(Run(db, ops), FollowRun(db, copy, guildId, me, ops), guildId, roles, m, c);
  }

  // ---------- where the mirror breaks ----------

  // A guild with one category and, under it, a channel closed to @everyone.
  const PLAIN_MEMBER := GuildMember(8, [])
  const SAMPLE_GUILD := Guild(9, map[1 := VIEW_CHANNELS], [PLAIN_MEMBER])
  const OPEN_ROWS := [Overwrite(1, Role, {}, {})]
  const CLOSED_ROWS := [Overwrite(1, Role, {}, VIEW_CHANNELS)]
  const SAMPLE_TEXT := Channel(Some(1), 9, Text, Some(2), false, CLOSED_ROWS)
  const SAMPLE_DB := Db(map[1 := SAMPLE_GUILD],
      map[2 := Channel(Some(1), 9, Category, None, false, OPEN_ROWS), 3 := SAMPLE_TEXT])
  const SAMPLE_COPY: Copy := map[2 := ClientChannel(Category, None, false, OPEN_ROWS),
                                 3 := ClientChannel(Text, Some(2), false, CLOSED_ROWS)]

  lemma BeforeIsMirrored()
    ensures Good(SAMPLE_DB) && Tidy(SAMPLE_DB) && Mirrors(SAMPLE_DB, SAMPLE_COPY, 1) && ValidGuild(SAMPLE_GUILD)
  {
    assert GoodChannel(SAMPLE_DB, 2, SAMPLE_DB.channels[2]) && GoodChannel(SAMPLE_DB, 3, SAMPLE_TEXT);
    assert OPEN_ROWS[0] in OPEN_ROWS && CLOSED_ROWS[0] in CLOSED_ROWS;
    assert Agrees(SAMPLE_DB, SAMPLE_COPY, 2) && Agrees(SAMPLE_DB, SAMPLE_COPY, 3);
  }

  const SYNCED_DB := WithChannel(SAMPLE_DB, 3, SAMPLE_TEXT.(isSynced := true, overwrites := []))
  const SYNCED_COPY := SAMPLE_COPY[3 := ClientChannel(Text, Some(2), true, CLOSED_ROWS)]

  lemma SyncSucceeds()
    ensures Sync(SAMPLE_DB, 9, 3) == (SYNCED_DB, Success(()))
    ensures Follow(SAMPLE_DB, SAMPLE_COPY, 1, 8, OpSync(9, 3)) == SYNCED_COPY
  {
    assert EffectivePermission(SAMPLE_DB, 9, 1, 3) == ALL_PERMISSIONS;
    assert Manages(SAMPLE_DB, 9, 1, 3, MANAGE_CHANNELS);
  }

  lemma DeleteSucceeds()
    ensures Delete(SYNCED_DB, 9, 2, false) == (WithoutChannel(SYNCED_DB, 2), Success(()))
    ensures Follow(SYNCED_DB, SYNCED_COPY, 1, 8, OpDelete(9, 2, false)) == OnChannelDeleted(SYNCED_COPY, 2)
  {
    assert EffectivePermission(SYNCED_DB, 9, 1, 2) == ALL_PERMISSIONS;
    assert Manages(SYNCED_DB, 9, 1, 2, MANAGE_CHANNELS);
  }

  /** A run that gets there: the owner syncs a channel with a private @everyone row and then deletes its
      category. The server grants everyone the base permission again; the client still hides the channel. */
  lemma CategoryDeleteBreaksMirror()
    ensures exists db: Db, copy: Copy, sync: Op, delete: Op, m: GuildMember, c: Id ::
              && Good(db) && Tidy(db) && Mirrors(db, copy, 1)
              && sync.OpSync? && Succeeds(db, sync) && delete.OpDelete? && Succeeds(Step(db, sync), delete)
              && 1 in db.guilds && ValidGuild(db.guilds[1]) && m in db.guilds[1].members
              && m.userId != db.guilds[1].ownerId
              && var db' := Step(Step(db, sync), delete);
                 var copy' := Follow(Step(db, sync), Follow(db, copy, 1, m.userId, sync), 1, m.userId, delete);
                 && c in copy' && VIEW_CHANNELS <= EffectivePermission(db', m.userId, 1, c)
                 && !(VIEW_CHANNELS <= ClientPermission(db.guilds[1], [1], copy', m, 1, c))
  {
    BeforeIsMirrored();
    SyncSucceeds();
    DeleteSucceeds();
    var sync, delete := OpSync(9, 3), OpDelete(9, 2, false);
    assert SAMPLE_GUILD.members[0] == PLAIN_MEMBER && SAMPLE_DB.guilds[1] == SAMPLE_GUILD;
    var db', copy' := WithoutChannel(SYNCED_DB, 2), OnChannelDeleted(SYNCED_COPY, 2);
    assert Step(SAMPLE_DB, sync) == SYNCED_DB && Step(SYNCED_DB, delete) == db';
    ServerForgets(db', SAMPLE_GUILD);
    ClientRemembers(copy', SAMPLE_GUILD, CLOSED_ROWS);
    assert Succeeds(SAMPLE_DB, sync) && Succeeds(SYNCED_DB, delete);
    assert 3 in copy' && PLAIN_MEMBER.userId == 8;
  }

  lemma ServerForgets(db: Db, g: Guild)
    requires g == Guild(9, map[1 := VIEW_CHANNELS], [GuildMember(8, [])]) && 1 in db.guilds && db.guilds[1] == g
    requires 3 in db.channels && db.channels[3] == Channel(Some(1), 9, Text, None, true, [])
    ensures VIEW_CHANNELS <= EffectivePermission(db, 8, 1, 3)
  {
    var s := Subject(8, [], 1);
    assert EffectivePermission(db, 8, 1, 3) == Effective(BaseIn(db, 8, 1), [], SubjectOf(db, 8, 1));
    assert Find([], EveryoneTier, s) == None && Find([], MemberTier, s) == None;
  }

  lemma ClientRemembers(copy: Copy, g: Guild, closed: seq<Overwrite>)
    requires g == Guild(9, map[1 := VIEW_CHANNELS], [GuildMember(8, [])])
    requires closed == [Overwrite(1, Role, {}, VIEW_CHANNELS)]
    requires 3 in copy && copy[3] == ClientChannel(Text, None, true, closed)
    ensures !(VIEW_CHANNELS <= ClientPermission(g, [1], copy, GuildMember(8, []), 1, 3))
  {
    var s := Subject(8, [], 1);
    assert HeldRoles([1], []) == [] by { assert [1][1..] == []; }
    assert closed[1..] == [];
    assert Find(closed, EveryoneTier, s) == Some(closed[0]) && Find(closed, MemberTier, s) == None;
    assert 0 !in ClientEffective(GrantedBy(g, 1, []), closed, s);
    assert 0 in VIEW_CHANNELS;
  }
}
