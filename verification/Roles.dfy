/** Role positions: a new role goes in just above the lowest one of its guild, and every role of every guild
    from that position up is shifted. */
module Roles {
  import opened Common

  /** `managers` are the users whose base permission contains MANAGE_SERVERS. */
  datatype Guild = Guild(ownerId: Id, managers: set<Id>)

  datatype Role = Role(guildId: Id, position: int)

  /** The @everyone role has its guild's id. */
  datatype Db = Db(guilds: map<Id, Guild>, roles: map<Id, Role>)

  function RolesOf(roles: map<Id, Role>, g: Id): set<Id> {
    set r | r in roles && roles[r].guildId == g
  }

  ghost predicate IsLowest(roles: map<Id, Role>, rs: set<Id>, m: int) {
    && (exists r :: r in rs && r in roles && roles[r].position == m)
    && (forall r :: r in rs && r in roles ==> m <= roles[r].position)
  }

  /** `UPDATE role SET position = position + 1 WHERE position >= p`, in all guilds. */
  function Shifted(roles: map<Id, Role>, p: int): map<Id, Role> {
    map r | r in roles :: if roles[r].position >= p then roles[r].(position := roles[r].position + 1) else roles[r]
  }

  // ---------- operations ----------

  function GuildCreated(db: Db, g: Id, guild: Guild): Db {
    Db(db.guilds[g := guild], db.roles[g := Role(g, 0)])
  }

  function CreateRoleError(db: Db, userId: Id, g: Id): Option<Status> {
    if g !in db.guilds then Some(BadRequest)
    else if db.guilds[g].ownerId != userId then Some(Forbidden)
    else if RolesOf(db.roles, g) == {} then Some(InternalServerError)
    else None
  }

  /** `lowest` is the lowest position in the guild. */
  function Insert(db: Db, g: Id, newId: Id, lowest: int): Db {
    db.(roles := Shifted(db.roles, lowest + 1)[newId := Role(g, lowest + 1)])
  }

  ghost predicate CreatesRole(db: Db, db': Db, userId: Id, g: Id, newId: Id) {
    if CreateRoleError(db, userId, g).Some? then db' == db
    else exists lowest :: IsLowest(db.roles, RolesOf(db.roles, g), lowest) && db' == Insert(db, g, newId, lowest)
  }

  function DeleteRoleError(db: Db, userId: Id, g: Id, roleId: Id): Option<Status> {
    if g !in db.guilds || roleId !in RolesOf(db.roles, g) then Some(BadRequest)
    else if userId !in db.guilds[g].managers then Some(Forbidden)
    else None
  }

  function RoleDeleted(db: Db, userId: Id, g: Id, roleId: Id): Db {
    if DeleteRoleError(db, userId, g, roleId).Some? then db else db.(roles := db.roles - {roleId})
  }

  function MoveRoleError(db: Db, userId: Id, g: Id, roleId: Id): Option<Status> {
    if g !in db.guilds then Some(BadRequest)
    else if db.guilds[g].ownerId != userId then Some(Forbidden)
    else if roleId !in RolesOf(db.roles, g) then Some(BadRequest)
    else None
  }

  /** What a role update does to positions: @everyone stays, and 0 counts as no position. */
  function RoleMoved(db: Db, userId: Id, g: Id, roleId: Id, position: int): Db {
    if MoveRoleError(db, userId, g, roleId).Some? || roleId == g || position == 0 then db
    else db.(roles := db.roles[roleId := db.roles[roleId].(position := position)])
  }

  // ---------- invariant ----------

  /** In every guild @everyone, as long as it exists, is alone at the bottom, at 0. */
  ghost predicate EveryoneAtBottom(guilds: map<Id, Guild>, roles: map<Id, Role>) {
    forall r :: r in roles ==> if r in guilds then roles[r] == Role(r, 0) else roles[r].position > 0
  }

  /** In every guild the positions are distinct. */
  ghost predicate PositionsDistinct(roles: map<Id, Role>) {
    forall r, q :: r in roles && q in roles && r != q && roles[r].guildId == roles[q].guildId ==>
      roles[r].position != roles[q].position
  }

  ghost predicate RolesHaveGuilds(guilds: map<Id, Guild>, roles: map<Id, Role>) {
    forall r :: r in roles ==> roles[r].guildId in guilds
  }

  ghost predicate Inv(db: Db) {
    EveryoneAtBottom(db.guilds, db.roles) && PositionsDistinct(db.roles) && RolesHaveGuilds(db.guilds, db.roles)
  }

  ghost predicate EveryoneThere(db: Db) {
    forall g :: g in db.guilds ==> g in db.roles && db.roles[g].guildId == g
  }

  /** No two roles of any guild, this one or another, change their order, and place p is vacated. */
  lemma ShiftKeepsOrder(roles: map<Id, Role>, p: int, r: Id, q: Id)
    requires r in roles && q in roles
    ensures roles[r].position < roles[q].position <==> Shifted(roles, p)[r].position < Shifted(roles, p)[q].position
    ensures Shifted(roles, p)[r].position != p
  {
  }

  /** The new role goes in second: the lowest role of its guild stays where it is, and everything else of the
      guild is above the new one. */
  lemma NewRoleIsSecond(db: Db, g: Id, newId: Id, lowest: int)
    requires PositionsDistinct(db.roles) && newId !in db.roles && IsLowest(db.roles, RolesOf(db.roles, g), lowest)
    ensures var roles := Insert(db, g, newId, lowest).roles;
            && roles[newId] == Role(g, lowest + 1)
            && forall r :: r in RolesOf(db.roles, g) ==>
                 r in roles && if db.roles[r].position == lowest then roles[r] == db.roles[r]
                               else roles[r].position > lowest + 1
  {
  }

  lemma EveryoneIsLowest(db: Db, g: Id, lowest: int)
    requires EveryoneAtBottom(db.guilds, db.roles) && g in db.guilds && g in db.roles
    requires IsLowest(db.roles, RolesOf(db.roles, g), lowest)
    ensures lowest == 0
  {
    assert g in RolesOf(db.roles, g);
  }

  /** Where @everyone exists it is the lowest, so a new role lands at 1 and every other role of every guild moves
      up by one. */
  lemma NewRoleIsJustAboveEveryone(db: Db, db': Db, userId: Id, g: Id, newId: Id)
    requires Inv(db) && EveryoneThere(db) && newId !in db.roles
    requires CreateRoleError(db, userId, g).None? && CreatesRole(db, db', userId, g, newId)
    ensures newId in db'.roles && db'.roles[newId] == Role(g, 1)
    ensures forall r :: r in RolesOf(db'.roles, g) && r != newId && r != g ==> db'.roles[r].position > 1
    ensures forall r :: r in db.roles ==>
              r in db'.roles && db'.roles[r] == if r in db.guilds then db.roles[r]
                                                else db.roles[r].(position := db.roles[r].position + 1)
  {
    var lowest :| IsLowest(db.roles, RolesOf(db.roles, g), lowest) && db' == Insert(db, g, newId, lowest);
    EveryoneIsLowest(db, g, lowest);
  }

  lemma LowestIsNatural(db: Db, g: Id, lowest: int)
    requires Inv(db) && IsLowest(db.roles, RolesOf(db.roles, g), lowest)
    ensures lowest >= 0
  {
  }

  lemma InsertKeepsDistinct(roles: map<Id, Role>, p: int, newId: Id, g: Id)
    requires PositionsDistinct(roles) && newId !in roles
    ensures PositionsDistinct(Shifted(roles, p)[newId := Role(g, p)])
  {
    var roles' := Shifted(roles, p)[newId := Role(g, p)];
    forall r, q | r in roles' && q in roles' && r != q && roles'[r].guildId == roles'[q].guildId
      ensures roles'[r].position != roles'[q].position
    {
      if r != newId && q != newId {
        ShiftKeepsOrder(roles, p, r, q);
        ShiftKeepsOrder(roles, p, q, r);
      } else if r == newId {
        ShiftKeepsOrder(roles, p, q, q);
      } else {
        ShiftKeepsOrder(roles, p, r, r);
      }
    }
  }

  lemma InsertKeepsBottom(guilds: map<Id, Guild>, roles: map<Id, Role>, p: int, newId: Id, g: Id)
    requires EveryoneAtBottom(guilds, roles) && p > 0 && newId !in guilds
    ensures EveryoneAtBottom(guilds, Shifted(roles, p)[newId := Role(g, p)])
  {
  }

  lemma InsertKeepsGuilds(guilds: map<Id, Guild>, roles: map<Id, Role>, p: int, newId: Id, g: Id)
    requires RolesHaveGuilds(guilds, roles) && g in guilds
    ensures RolesHaveGuilds(guilds, Shifted(roles, p)[newId := Role(g, p)])
  {
  }

  lemma CreateRoleKeepsInv(db: Db, db': Db, userId: Id, g: Id, newId: Id)
    requires Inv(db) && newId !in db.roles && newId !in db.guilds && CreatesRole(db, db', userId, g, newId)
    ensures Inv(db')
  {
    if CreateRoleError(db, userId, g).None? {
      var lowest :| IsLowest(db.roles, RolesOf(db.roles, g), lowest) && db' == Insert(db, g, newId, lowest);
      LowestIsNatural(db, g, lowest);
      InsertKeepsBottom(db.guilds, db.roles, lowest + 1, newId, g);
      InsertKeepsDistinct(db.roles, lowest + 1, newId, g);
      InsertKeepsGuilds(db.guilds, db.roles, lowest + 1, newId, g);
    }
  }

  lemma CreateRoleKeepsEveryone(db: Db, db': Db, userId: Id, g: Id, newId: Id)
    requires EveryoneThere(db) && newId !in db.guilds && CreatesRole(db, db', userId, g, newId)
    ensures EveryoneThere(db')
  {
  }

  /** Deleting roles never disturbs positions. But nothing guards @everyone: a deletion that goes through leaves
      every guild its @everyone role exactly when the role is another one. */
  lemma DeleteRoleKeepsEveryoneIff(db: Db, userId: Id, g: Id, roleId: Id)
    requires Inv(db) && DeleteRoleError(db, userId, g, roleId).None?
    ensures Inv(RoleDeleted(db, userId, g, roleId))
    ensures EveryoneThere(db) ==> (EveryoneThere(RoleDeleted(db, userId, g, roleId)) <==> roleId != g)
  {
    var db' := RoleDeleted(db, userId, g, roleId);
    if roleId == g {
      assert g in db'.guilds && g !in db'.roles;
    } else {
      assert roleId !in db.guilds;
    }
  }

  /** A position is written as it comes: free, and above @everyone. */
  predicate LandsFree(db: Db, userId: Id, g: Id, roleId: Id, position: int) {
    MoveRoleError(db, userId, g, roleId).Some? || roleId == g || position == 0
    || (position > 0 && forall r :: r in RolesOf(db.roles, g) && r != roleId ==> db.roles[r].position != position)
  }

  /** A role update keeps the invariant exactly when it does not write a position that is taken or not positive. */
  lemma MoveRoleKeepsInvIff(db: Db, userId: Id, g: Id, roleId: Id, position: int)
    requires Inv(db)
    ensures Inv(RoleMoved(db, userId, g, roleId, position)) <==> LandsFree(db, userId, g, roleId, position)
  {
    var db' := RoleMoved(db, userId, g, roleId, position);
    if MoveRoleError(db, userId, g, roleId).None? && roleId != g && position != 0 {
      assert roleId in db.roles && roleId !in db.guilds && db'.roles[roleId].position == position;
      if position > 0 && !LandsFree(db, userId, g, roleId, position) {
        var r :| r in RolesOf(db.roles, g) && r != roleId && db.roles[r].position == position;
        assert r in db'.roles && db'.roles[r].guildId == db'.roles[roleId].guildId;
      }
    }
  }

  // ---------- runs ----------

  datatype Action =
    | MakeGuild(guildId: Id, guild: Guild)
    | MakeRole(userId: Id, guildId: Id, newId: Id)
    | RemoveRole(userId: Id, guildId: Id, roleId: Id)
    | MoveRole(userId: Id, guildId: Id, roleId: Id, position: int)

  /** Ids are fresh. */
  ghost predicate Next(db: Db, db': Db, a: Action) {
    match a
    case MakeGuild(g, guild) =>
      g !in db.guilds && (forall r :: r in db.roles ==> r != g && db.roles[r].guildId != g)
          && db' == GuildCreated(db, g, guild)
    case MakeRole(u, g, newId) => newId !in db.roles && newId !in db.guilds && CreatesRole(db, db', u, g, newId)
    case RemoveRole(u, g, r) => db' == RoleDeleted(db, u, g, r)
    case MoveRole(u, g, r, position) => db' == RoleMoved(db, u, g, r, position)
  }

  ghost predicate IsRun(states: seq<Db>, actions: seq<Action>) {
    && |states| == |actions| + 1 && states[0] == Db(map[], map[])
    && forall i {:trigger actions[i]} :: 0 <= i < |actions| ==> Next(states[i], states[i + 1], actions[i])
  }

  ghost predicate MovesLandFree(states: seq<Db>, actions: seq<Action>) {
    forall i {:trigger actions[i]} :: 0 <= i < |actions| && i < |states| && actions[i].MoveRole? ==>
      LandsFree(states[i], actions[i].userId, actions[i].guildId, actions[i].roleId, actions[i].position)
  }

  lemma CreateGuildKeeps(db: Db, g: Id, guild: Guild)
    requires Inv(db) && g !in db.guilds && forall r :: r in db.roles ==> r != g && db.roles[r].guildId != g
    ensures Inv(GuildCreated(db, g, guild))
  {
  }

  lemma CreateGuildKeepsEveryone(db: Db, g: Id, guild: Guild)
    requires EveryoneThere(db)
    ensures EveryoneThere(GuildCreated(db, g, guild))
  {
  }

  lemma StepInv(db: Db, db': Db, a: Action)
    requires Inv(db) && Next(db, db', a)
    requires a.MoveRole? ==> LandsFree(db, a.userId, a.guildId, a.roleId, a.position)
    ensures Inv(db')
  {
    match a
    case MakeGuild(g, guild) => CreateGuildKeeps(db, g, guild);
    case MakeRole(u, g, newId) => CreateRoleKeepsInv(db, db', u, g, newId);
    case RemoveRole(u, g, r) =>
      if DeleteRoleError(db, u, g, r).None? { DeleteRoleKeepsEveryoneIff(db, u, g, r); }
    case MoveRole(u, g, r, position) => MoveRoleKeepsInvIff(db, u, g, r, position);
  }

  /** Over every run in many guilds in which no update writes a taken or non-positive position. */
  lemma {:induction false} RunInv(states: seq<Db>, actions: seq<Action>, i: nat)
    requires IsRun(states, actions) && MovesLandFree(states, actions) && i < |states|
    ensures Inv(states[i])
  {
    if i > 0 {
      RunInv(states, actions, i - 1);
      StepInv(states[i - 1], states[i], actions[i - 1]);
    }
  }

  // ---------- who changes what ----------

  predicate OwnsGuild(db: Db, u: Id, g: Id) {
    g in db.guilds && db.guilds[g].ownerId == u
  }

  predicate ManagesGuild(db: Db, u: Id, g: Id) {
    g in db.guilds && u in db.guilds[g].managers
  }

  predicate IsRoleOf(db: Db, r: Id, g: Id) {
    r in db.roles && db.roles[r].guildId == g
  }

  /** Only the owner makes roles, and only where there is one already. */
  lemma CreateRoleAnswers(db: Db, u: Id, g: Id)
    ensures var error := CreateRoleError(db, u, g);
            && (error == None <==> OwnsGuild(db, u, g) && exists r :: IsRoleOf(db, r, g))
            && (error == Some(Forbidden) <==> g in db.guilds && !OwnsGuild(db, u, g))
            && (error == Some(BadRequest) <==> g !in db.guilds)
  {
    assert forall r :: IsRoleOf(db, r, g) <==> r in RolesOf(db.roles, g);
    if RolesOf(db.roles, g) != {} {
      var r :| r in RolesOf(db.roles, g);
      assert IsRoleOf(db, r, g);
    }
  }

  /** Whoever manages the guild deletes any of its roles. */
  lemma DeleteRoleAnswers(db: Db, u: Id, g: Id, r: Id)
    ensures var error := DeleteRoleError(db, u, g, r);
            && (error == None <==> IsRoleOf(db, r, g) && ManagesGuild(db, u, g))
            && (error == Some(Forbidden) <==> g in db.guilds && IsRoleOf(db, r, g) && !ManagesGuild(db, u, g))
            && (error == Some(BadRequest) <==> g !in db.guilds || !IsRoleOf(db, r, g))
  {
  }

  /** Only the owner moves them. */
  lemma MoveRoleAnswers(db: Db, u: Id, g: Id, r: Id)
    ensures var error := MoveRoleError(db, u, g, r);
            && (error == None <==> OwnsGuild(db, u, g) && IsRoleOf(db, r, g))
            && (error == Some(Forbidden) <==> g in db.guilds && !OwnsGuild(db, u, g))
            && (error == Some(BadRequest) <==> g !in db.guilds || (OwnsGuild(db, u, g) && !IsRoleOf(db, r, g)))
  {
  }

  /** The step makes the role: with its guild, as @everyone, or at the owner's request. */
  predicate Makes(db: Db, a: Action, r: Id) {
    || (a.MakeGuild? && a.guildId == r)
    || (a.MakeRole? && a.newId == r && OwnsGuild(db, a.userId, a.guildId) && RolesOf(db.roles, a.guildId) != {})
  }

  /** The step deletes it, at a manager's request. */
  predicate Deletes(db: Db, a: Action, r: Id) {
    a.RemoveRole? && a.roleId == r && IsRoleOf(db, r, a.guildId) && ManagesGuild(db, a.userId, a.guildId)
  }

  /** The owner writes a new position; 0 counts as none, and @everyone stays. */
  predicate Repositions(db: Db, a: Action, r: Id) {
    && a.MoveRole? && a.roleId == r && IsRoleOf(db, r, a.guildId) && OwnsGuild(db, a.userId, a.guildId)
    && a.position != 0 && r != a.guildId
  }

  /** A role is there exactly if it was made, or was there before and has not been deleted. */
  lemma RoleStaysIff(db: Db, db': Db, a: Action, r: Id)
    requires Next(db, db', a)
    ensures r in db'.roles <==> Makes(db, a, r) || (r in db.roles && !Deletes(db, a, r))
  {
  }

  /** A role that stays keeps its guild. Its position changes to what the owner writes, or by the shift of another
      role's creation, and in no other way. */
  lemma RoleKeepsItsPlace(db: Db, db': Db, a: Action, r: Id)
    requires Next(db, db', a) && r in db.roles && r in db'.roles && !Makes(db, a, r)
    ensures db'.roles[r].guildId == db.roles[r].guildId
    ensures if Repositions(db, a, r) then db'.roles[r].position == a.position
            else db'.roles[r].position == db.roles[r].position
                 || (a.MakeRole? && OwnsGuild(db, a.userId, a.guildId)
                     && db'.roles[r].position == db.roles[r].position + 1)
  {
  }

  /** Over runs: a role that is gone was deleted by somebody who managed its guild at that moment. */
  lemma {:induction false} GoneRolesWereDeleted(states: seq<Db>, actions: seq<Action>, i: nat, j: nat, r: Id)
    requires IsRun(states, actions) && i <= j < |states| && r in states[i].roles && r !in states[j].roles
    ensures exists n :: i <= n < j && Deletes(states[n], actions[n], r)
    decreases j
  {
    RoleStaysIff(states[j - 1], states[j], actions[j - 1], r);
    if r !in states[j - 1].roles {
      GoneRolesWereDeleted(states, actions, i, j - 1, r);
      var n :| i <= n < j - 1 && Deletes(states[n], actions[n], r);
    }
  }

  // ---------- runs that break it ----------

  // An owner makes a guild and two roles, and gives the second the position of the first.
  const OWNED := Guild(9, {9})
  const ROLES0 := Db(map[], map[])
  const ROLES1 := Db(map[1 := OWNED], map[1 := Role(1, 0)])
  const ROLES2 := Db(map[1 := OWNED], map[1 := Role(1, 0), 2 := Role(1, 1)])
  const ROLES3 := Db(map[1 := OWNED], map[1 := Role(1, 0), 2 := Role(1, 2), 3 := Role(1, 1)])
  const ROLES4 := Db(map[1 := OWNED], map[1 := Role(1, 0), 2 := Role(1, 2), 3 := Role(1, 2)])

  lemma OwnerMakesGuild()
    ensures Next(ROLES0, ROLES1, MakeGuild(1, OWNED))
  {
  }

  lemma OwnerMakesRole(db: Db, db': Db, newId: Id)
    requires 1 in db.guilds && db.guilds[1] == OWNED && 1 in db.roles && db.roles[1] == Role(1, 0)
    requires forall r :: r in db.roles ==> db.roles[r].position >= 0
    requires newId !in db.roles && newId !in db.guilds && db' == Insert(db, 1, newId, 0)
    ensures Next(db, db', MakeRole(9, 1, newId))
  {
    assert 1 in RolesOf(db.roles, 1);
    assert IsLowest(db.roles, RolesOf(db.roles, 1), 0);
  }

  lemma OwnerMakesRoles()
    ensures Next(ROLES1, ROLES2, MakeRole(9, 1, 2)) && Next(ROLES2, ROLES3, MakeRole(9, 1, 3))
  {
    assert ROLES2.roles == Insert(ROLES1, 1, 2, 0).roles;
    assert ROLES3.roles == Insert(ROLES2, 1, 3, 0).roles;
    OwnerMakesRole(ROLES1, ROLES2, 2);
    OwnerMakesRole(ROLES2, ROLES3, 3);
  }

  lemma OwnerMovesRole()
    ensures Next(ROLES3, ROLES4, MoveRole(9, 1, 3, 2))
  {
    assert 3 in RolesOf(ROLES3.roles, 1);
    assert ROLES4.roles == RoleMoved(ROLES3, 9, 1, 3, 2).roles;
  }

  /** A run ends with two roles of one guild at the same position. */
  lemma PositionIsTaken()
    ensures exists states: seq<Db>, actions: seq<Action> ::
              IsRun(states, actions) && |states| == 5 && !PositionsDistinct(states[4].roles)
  {
    var states := [ROLES0, ROLES1, ROLES2, ROLES3, ROLES4];
    var actions := [MakeGuild(1, OWNED), MakeRole(9, 1, 2), MakeRole(9, 1, 3), MoveRole(9, 1, 3, 2)];
    OwnerMakesGuild();
    OwnerMakesRoles();
    OwnerMovesRole();
    assert IsRun(states, actions);
    assert ROLES4.roles[2].position == ROLES4.roles[3].position;
  }

  /** A run ends with a guild without its @everyone role. */
  lemma EveryoneIsDeleted()
    ensures exists states: seq<Db>, actions: seq<Action> ::
              IsRun(states, actions) && |states| == 3 && EveryoneThere(states[1]) && !EveryoneThere(states[2])
  {
    var states := [ROLES0, ROLES1, RoleDeleted(ROLES1, 9, 1, 1)];
    var actions := [MakeGuild(1, OWNED), RemoveRole(9, 1, 1)];
    OwnerMakesGuild();
    assert 1 in RolesOf(ROLES1.roles, 1);
    assert Next(states[1], states[2], actions[1]);
    assert IsRun(states, actions);
    assert EveryoneThere(ROLES1) && 1 in states[2].guilds && 1 !in states[2].roles;
    assert !EveryoneThere(states[2]);
  }

  ghost predicate AliveThroughout(states: seq<Db>, r: Id, i: nat, j: nat) {
    forall k :: i <= k <= j && k < |states| ==> r in states[k].roles
  }

  predicate Moves(a: Action, r: Id) {
    a.MoveRole? && a.roleId == r
  }

  lemma StepKeepsOrder(db: Db, db': Db, a: Action, r: Id, q: Id)
    requires Next(db, db', a) && !Moves(a, r) && !Moves(a, q)
    requires r in db.roles && q in db.roles && r in db'.roles && q in db'.roles
    ensures db.roles[r].position < db.roles[q].position <==> db'.roles[r].position < db'.roles[q].position
  {
    if a.MakeRole? && CreateRoleError(db, a.userId, a.guildId).None? {
      var lowest :| IsLowest(db.roles, RolesOf(db.roles, a.guildId), lowest)
                    && db' == Insert(db, a.guildId, a.newId, lowest);
      ShiftKeepsOrder(db.roles, lowest + 1, r, q);
    }
  }

  /** Two roles keep their order for as long as neither is moved itself, whatever happens in whichever guild. */
  lemma {:induction false} OrderIsForever(states: seq<Db>, actions: seq<Action>, r: Id, q: Id, i: nat, j: nat)
    requires IsRun(states, actions) && i <= j < |states|
    requires AliveThroughout(states, r, i, j) && AliveThroughout(states, q, i, j)
    requires forall k :: i <= k < j ==> !Moves(actions[k], r) && !Moves(actions[k], q)
    ensures states[i].roles[r].position < states[i].roles[q].position
            <==> states[j].roles[r].position < states[j].roles[q].position
    decreases j
  {
    if i < j {
      OrderIsForever(states, actions, r, q, i, j - 1);
      StepKeepsOrder(states[j - 1], states[j], actions[j - 1], r, q);
    }
  }

  // ---------- positions as ages ----------

  /** Nobody moves a role or deletes an @everyone role. */
  predicate Plain(actions: seq<Action>) {
    forall i {:trigger actions[i]} :: 0 <= i < |actions| ==>
      !actions[i].MoveRole? && (actions[i].RemoveRole? ==> actions[i].roleId != actions[i].guildId)
  }

  lemma StepKeepsEveryone(db: Db, db': Db, a: Action)
    requires Inv(db) && EveryoneThere(db) && Next(db, db', a)
    requires !a.MoveRole? && (a.RemoveRole? ==> a.roleId != a.guildId)
    ensures Inv(db') && EveryoneThere(db')
  {
    match a
    case MakeGuild(g, guild) =>
      CreateGuildKeeps(db, g, guild);
      CreateGuildKeepsEveryone(db, g, guild);
    case MakeRole(u, g, newId) =>
      CreateRoleKeepsInv(db, db', u, g, newId);
      CreateRoleKeepsEveryone(db, db', u, g, newId);
    case RemoveRole(u, g, r) =>
      if DeleteRoleError(db, u, g, r).None? { DeleteRoleKeepsEveryoneIff(db, u, g, r); }
  }

  lemma {:induction false} PlainRunKeepsEveryone(states: seq<Db>, actions: seq<Action>, i: nat)
    requires IsRun(states, actions) && Plain(actions) && i < |states|
    ensures Inv(states[i]) && EveryoneThere(states[i])
  {
    if i > 0 {
      PlainRunKeepsEveryone(states, actions, i - 1);
      StepKeepsEveryone(states[i - 1], states[i], actions[i - 1]);
    }
  }

  /** Whether step i creates a role, in whatever guild. */
  predicate Created(states: seq<Db>, actions: seq<Action>, i: nat)
    requires i < |actions| <= |states|
  {
    actions[i].MakeRole? && CreateRoleError(states[i], actions[i].userId, actions[i].guildId).None?
  }

  /** How many of the steps from i up to j create a role. */
  function Creations(states: seq<Db>, actions: seq<Action>, i: nat, j: nat): nat
    requires i <= j <= |actions| <= |states|
  {
    if i == j then 0 else Creations(states, actions, i, j - 1) + if Created(states, actions, j - 1) then 1 else 0
  }

  ghost predicate OrdinaryThroughout(states: seq<Db>, r: Id, i: nat, j: nat) {
    forall k :: i <= k <= j && k < |states| ==> r in states[k].roles && r !in states[k].guilds
  }

  lemma StepMoves(db: Db, db': Db, a: Action, r: Id)
    requires Inv(db) && EveryoneThere(db) && Next(db, db', a) && !a.MoveRole?
    requires r in db.roles && r !in db.guilds && r in db'.roles
    ensures var created := a.MakeRole? && CreateRoleError(db, a.userId, a.guildId).None?;
            db'.roles[r] == db.roles[r].(position := db.roles[r].position + if created then 1 else 0)
  {
    if a.MakeRole? && CreateRoleError(db, a.userId, a.guildId).None? {
      NewRoleIsJustAboveEveryone(db, db', a.userId, a.guildId, a.newId);
    }
  }

  /** A role moves up by one for every role created anywhere, and for nothing else. */
  lemma {:induction false} PositionsCountCreations(states: seq<Db>, actions: seq<Action>, r: Id, i: nat, j: nat)
    requires IsRun(states, actions) && Plain(actions) && i <= j < |states| && OrdinaryThroughout(states, r, i, j)
    ensures states[j].roles[r].position == states[i].roles[r].position + Creations(states, actions, i, j)
    ensures states[j].roles[r].guildId == states[i].roles[r].guildId
    decreases j
  {
    if i < j {
      PositionsCountCreations(states, actions, r, i, j - 1);
      PlainRunKeepsEveryone(states, actions, j - 1);
      StepMoves(states[j - 1], states[j], actions[j - 1], r);
    }
  }

  lemma CreatedAtOne(states: seq<Db>, actions: seq<Action>, i: nat)
    requires IsRun(states, actions) && Plain(actions) && i < |actions| && Created(states, actions, i)
    ensures actions[i].newId in states[i + 1].roles
    ensures states[i + 1].roles[actions[i].newId] == Role(actions[i].guildId, 1)
  {
    var a := actions[i];
    PlainRunKeepsEveryone(states, actions, i);
    NewRoleIsJustAboveEveryone(states[i], states[i + 1], a.userId, a.guildId, a.newId);
  }

  /** So a role's position is its age: how many roles have been created since, counting itself. */
  lemma PositionIsAge(states: seq<Db>, actions: seq<Action>, i: nat, j: nat)
    requires IsRun(states, actions) && Plain(actions) && i < j < |states| && Created(states, actions, i)
    requires OrdinaryThroughout(states, actions[i].newId, i + 1, j)
    ensures states[j].roles[actions[i].newId] == Role(actions[i].guildId, Creations(states, actions, i, j))
  {
    CreatedAtOne(states, actions, i);
    PositionsCountCreations(states, actions, actions[i].newId, i + 1, j);
    CreationsSplit(states, actions, i, j);
  }

  lemma {:induction false} CreationsSplit(states: seq<Db>, actions: seq<Action>, i: nat, j: nat)
    requires i < j <= |actions| <= |states|
    ensures Creations(states, actions, i, j)
            == (if Created(states, actions, i) then 1 else 0) + Creations(states, actions, i + 1, j)
    decreases j
  {
    if i + 1 < j {
      CreationsSplit(states, actions, i, j - 1);
    } else {
      assert Creations(states, actions, i, i) == 0;
    }
  }

  // ---------- the service ----------

  class RolesService {
    var guilds: map<Id, Guild>
    var roles: map<Id, Role>

    constructor ()
      ensures Database() == Db(map[], map[])
    {
      guilds, roles := map[], map[];
    }

    ghost function Database(): Db
      reads this
    {
      Db(guilds, roles)
    }

    /** The part of guild creation that makes the @everyone role. */
    method Create(g: Id, guild: Guild)
      modifies this
      ensures Database() == GuildCreated(old(Database()), g, guild)
    {
      guilds := guilds[g := guild];
      roles := roles[g := Role(g, 0)];
    }

    /** `Math.min(...guild.roles.map(r => r.position))` */
    method Lowest(rs: set<Id>) returns (m: int)
      requires rs != {} && rs <= roles.Keys
      ensures IsLowest(roles, rs, m)
    {
      var r :| r in rs;
      m := roles[r].position;
      var rest := rs - {r};
      while rest != {}
        invariant rest <= rs
        invariant exists r :: r in rs && roles[r].position == m
        invariant forall r :: r in rs - rest ==> m <= roles[r].position
        decreases |rest|
      {
        var q :| q in rest;
        if roles[q].position < m { m := roles[q].position; }
        rest := rest - {q};
      }
    }

    method CreateRole(userId: Id, guildId: Id, newId: Id) returns (error: Option<Status>)
      modifies this
      ensures error == CreateRoleError(old(Database()), userId, guildId)
      ensures CreatesRole(old(Database()), Database(), userId, guildId, newId)
    {
      if guildId !in guilds {
        return Some(BadRequest);
      }
      if guilds[guildId].ownerId != userId {
        return Some(Forbidden);
      }
      var own := RolesOf(roles, guildId);
      if own == {} {
        return Some(InternalServerError);
      }
      var lowest := Lowest(own);
      var position := lowest + 1;
      var rest := roles.Keys;
      while rest != {}
        invariant rest <= roles.Keys && roles.Keys == old(roles.Keys) && guilds == old(guilds)
        invariant forall r :: r in rest ==> roles[r] == old(roles)[r]
        invariant forall r :: r in roles.Keys - rest ==> roles[r] == Shifted(old(roles), position)[r]
        decreases |rest|
      {
        var r :| r in rest;
        if roles[r].position >= position {
          roles := roles[r := roles[r].(position := roles[r].position + 1)];
        }
        rest := rest - {r};
      }
      assert roles == Shifted(old(roles), position);
      roles := roles[newId := Role(guildId, position)];
      assert Database() == Insert(old(Database()), guildId, newId, lowest);
      error := None;
    }

    /** The part of a role update that writes the position. */
    method UpdateRole(userId: Id, guildId: Id, roleId: Id, position: int) returns (error: Option<Status>)
      modifies this
      ensures error == MoveRoleError(old(Database()), userId, guildId, roleId)
      ensures Database() == RoleMoved(old(Database()), userId, guildId, roleId, position)
    {
      if guildId !in guilds {
        return Some(BadRequest);
      }
      if guilds[guildId].ownerId != userId {
        return Some(Forbidden);
      }
      if roleId !in roles || roles[roleId].guildId != guildId {
        return Some(BadRequest);
      }
      var role := roles[roleId];
      if roleId != guildId && position != 0 { role := role.(position := position); }
      roles := roles[roleId := role];
      error := None;
    }

    method DeleteRole(userId: Id, guildId: Id, roleId: Id) returns (error: Option<Status>)
      modifies this
      ensures error == DeleteRoleError(old(Database()), userId, guildId, roleId)
      ensures Database() == RoleDeleted(old(Database()), userId, guildId, roleId)
    {
      if guildId !in guilds || roleId !in roles || roles[roleId].guildId != guildId {
        return Some(BadRequest);
      }
      if userId !in guilds[guildId].managers {
        return Some(Forbidden);
      }
      roles := roles - {roleId};
      error := None;
    }
  }
}
