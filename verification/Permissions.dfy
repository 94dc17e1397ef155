/** Layered evaluation of permission masks: the base permission of a member and the channel
    overwrites applied on top of it, as the guild service and the web client compute them. */
module Permissions {
  import opened Common

  /** A bigint mask, as the set of its bit positions: `|` is union, `& ~` is difference. */
  type Perms = set<nat>

  const VIEW_CHANNELS: Perms := {0}
  const MANAGE_CHANNELS: Perms := {1}
  const MANAGE_ROLES: Perms := {2}
  const ALL_PERMISSIONS: Perms := {0, 1, 2, 3, 4, 5, 6, 7, 8, 9}

  datatype TargetType = Member | Role

  datatype Overwrite = Overwrite(targetId: Id, targetType: TargetType, allow: Perms, deny: Perms)

  /** The user a mask is evaluated for, with the roles the user holds in the guild. */
  datatype Subject = Subject(userId: Id, roles: seq<Id>, guildId: Id)

  datatype Tier = EveryoneTier | RoleTier | MemberTier

  /** The tier in which a row speaks to a subject. The @everyone role has the guild's own id. */
  predicate InTier(ow: Overwrite, tier: Tier, s: Subject) {
    match tier
    case EveryoneTier => ow.targetId == s.guildId && ow.targetType == Role
    case RoleTier => ow.targetType == Role && ow.targetId in s.roles
    case MemberTier => ow.targetType == Member && ow.targetId == s.userId
  }

  ghost predicate Addresses(ow: Overwrite, s: Subject) {
    exists tier :: InTier(ow, tier, s)
  }

  ghost predicate UniqueTargets(rows: seq<Overwrite>) {
    forall i, j :: 0 <= i < j < |rows| ==> rows[i].targetId != rows[j].targetId
  }

  // ---------- the evaluation, as the code computes it ----------

  /** `overwrites.find(...)`: the first row of the tier. */
  function Find(rows: seq<Overwrite>, tier: Tier, s: Subject): Option<Overwrite> {
    if rows == [] then None
    else if InTier(rows[0], tier, s) then Some(rows[0])
    else Find(rows[1..], tier, s)
  }

  function Amend(base: Perms, row: Option<Overwrite>): Perms {
    if row.Some? then base - row.value.deny + row.value.allow else base
  }

  ghost function RoleAllow(rows: seq<Overwrite>, s: Subject): Perms {
    set ow, b | ow in rows && InTier(ow, RoleTier, s) && b in ow.allow :: b
  }

  ghost function RoleDeny(rows: seq<Overwrite>, s: Subject): Perms {
    set ow, b | ow in rows && InTier(ow, RoleTier, s) && b in ow.deny :: b
  }

  ghost function Effective(base: Perms, rows: seq<Overwrite>, s: Subject): Perms {
    var everyone := Amend(base, Find(rows, EveryoneTier, s));
    var roles := everyone - RoleDeny(rows, s) + RoleAllow(rows, s);
    Amend(roles, Find(rows, MemberTier, s))
  }

  /** The loop over the rows of held roles, the same on both sides. */
  method RoleMasks(overwrites: seq<Overwrite>, s: Subject) returns (allow: Perms, deny: Perms)
    ensures allow == RoleAllow(overwrites, s) && deny == RoleDeny(overwrites, s)
  {
    allow, deny := {}, {};
    for i := 0 to |overwrites|
      invariant allow == RoleAllow(overwrites[..i], s)
      invariant deny == RoleDeny(overwrites[..i], s)
    {
      var ow := overwrites[i];
      assert overwrites[..i + 1] == overwrites[..i] + [ow];
      if ow.targetType == Role && ow.targetId in s.roles {
        allow := allow + ow.allow;
        deny := deny + ow.deny;
      }
    }
    assert overwrites[..|overwrites|] == overwrites;
  }

  method ApplyChannelOverwrites(base: Perms, overwrites: seq<Overwrite>, s: Subject)
    returns (effective: Perms)
    ensures effective == Effective(base, overwrites, s)
  {
    effective := base;
    var everyoneOW := Find(overwrites, EveryoneTier, s);
    if everyoneOW.Some? {
      effective := effective - everyoneOW.value.deny;
      effective := effective + everyoneOW.value.allow;
    }
    var allow, deny := RoleMasks(overwrites, s);
    effective := effective - deny;
    effective := effective + allow;
    var memberOW := Find(overwrites, MemberTier, s);
    if memberOW.Some? {
      effective := effective - memberOW.value.deny;
      effective := effective + memberOW.value.allow;
    }
  }

  // ---------- what it means: a ladder of tiers, bit by bit ----------

  ghost predicate Allows(rows: seq<Overwrite>, tier: Tier, s: Subject, b: nat) {
    exists ow :: ow in rows && InTier(ow, tier, s) && b in ow.allow
  }

  ghost predicate Denies(rows: seq<Overwrite>, tier: Tier, s: Subject, b: nat) {
    exists ow :: ow in rows && InTier(ow, tier, s) && b in ow.deny
  }

  /** The verdict of one tier: allow beats deny, silence passes the verdict of the tier below. */
  ghost predicate Rung(below: bool, rows: seq<Overwrite>, tier: Tier, s: Subject, b: nat) {
    Allows(rows, tier, s, b) || (below && !Denies(rows, tier, s, b))
  }

  ghost predicate Ladder(base: Perms, rows: seq<Overwrite>, s: Subject, b: nat) {
    Rung(Rung(Rung(b in base, rows, EveryoneTier, s, b), rows, RoleTier, s, b), rows, MemberTier, s, b)
  }

  /** Find answers a row of the tier whenever there is one. */
  lemma {:induction false} FindSound(rows: seq<Overwrite>, tier: Tier, s: Subject)
    ensures Find(rows, tier, s).None? ==> forall ow :: ow in rows ==> !InTier(ow, tier, s)
    ensures Find(rows, tier, s).Some? ==>
              Find(rows, tier, s).value in rows && InTier(Find(rows, tier, s).value, tier, s)
  {
    if rows != [] {
      FindSound(rows[1..], tier, s);
      assert rows == [rows[0]] + rows[1..];
    }
  }

  /** In the tiers with a single target, that row is the only one. */
  lemma FindUnique(rows: seq<Overwrite>, tier: Tier, s: Subject, ow: Overwrite)
    requires UniqueTargets(rows) && tier != RoleTier
    requires ow in rows && InTier(ow, tier, s)
    ensures Find(rows, tier, s) == Some(ow)
  {
    FindSound(rows, tier, s);
    var found := Find(rows, tier, s).value;
    var i :| 0 <= i < |rows| && rows[i] == ow;
    var j :| 0 <= j < |rows| && rows[j] == found;
    assert i == j;
  }

  lemma AmendIsRung(base: Perms, rows: seq<Overwrite>, tier: Tier, s: Subject, b: nat)
    requires UniqueTargets(rows) && tier != RoleTier
    ensures b in Amend(base, Find(rows, tier, s)) <==> Rung(b in base, rows, tier, s, b)
  {
    FindSound(rows, tier, s);
    forall ow | ow in rows && InTier(ow, tier, s) ensures Find(rows, tier, s) == Some(ow) {
      FindUnique(rows, tier, s, ow);
    }
  }

  /** The layered evaluation gives each bit the verdict of the highest tier that speaks about it. */
  lemma EffectiveIsLadder(base: Perms, rows: seq<Overwrite>, s: Subject, b: nat)
    requires UniqueTargets(rows)
    ensures b in Effective(base, rows, s) <==> Ladder(base, rows, s, b)
  {
    var everyone := Amend(base, Find(rows, EveryoneTier, s));
    var roles := everyone - RoleDeny(rows, s) + RoleAllow(rows, s);
    AmendIsRung(base, rows, EveryoneTier, s, b);
    assert b in roles <==> Rung(b in everyone, rows, RoleTier, s, b);
    AmendIsRung(roles, rows, MemberTier, s, b);
  }

  /** Whom a row speaks to: a member's row that member, a role's row whoever holds the role, and @everyone's
      everybody. */
  lemma AddressesIff(ow: Overwrite, s: Subject)
    ensures Addresses(ow, s)
            <==> if ow.targetType == Member then ow.targetId == s.userId
                 else ow.targetId == s.guildId || ow.targetId in s.roles
  {
    assert InTier(ow, MemberTier, s) || InTier(ow, RoleTier, s) || InTier(ow, EveryoneTier, s) <==> Addresses(ow, s);
  }

  /** And with which rank: a role's row speaks as @everyone's exactly if its target is the guild. */
  lemma TiersOfRows(ow: Overwrite, s: Subject)
    ensures InTier(ow, MemberTier, s) ==> !InTier(ow, RoleTier, s) && !InTier(ow, EveryoneTier, s)
    ensures ow.targetType == Role ==> (InTier(ow, EveryoneTier, s) <==> ow.targetId == s.guildId)
    ensures ow.targetType == Role ==> (InTier(ow, RoleTier, s) <==> ow.targetId in s.roles)
  {
  }

  // ---------- which tier decides ----------

  function Rank(tier: Tier): nat {
    match tier
    case EveryoneTier => 0
    case RoleTier => 1
    case MemberTier => 2
  }

  ghost predicate Speaks(rows: seq<Overwrite>, tier: Tier, s: Subject, b: nat) {
    Allows(rows, tier, s, b) || Denies(rows, tier, s, b)
  }

  /** The highest tier that says anything about the bit. */
  ghost predicate Decides(rows: seq<Overwrite>, tier: Tier, s: Subject, b: nat) {
    Speaks(rows, tier, s, b) && forall above :: Rank(above) > Rank(tier) ==> !Speaks(rows, above, s, b)
  }

  lemma DecidingTierRules(base: Perms, rows: seq<Overwrite>, s: Subject, b: nat, tier: Tier)
    requires UniqueTargets(rows) && Decides(rows, tier, s, b)
    ensures b in Effective(base, rows, s) <==> Allows(rows, tier, s, b)
  {
    EffectiveIsLadder(base, rows, s, b);
    assert Rank(MemberTier) > Rank(RoleTier) > Rank(EveryoneTier);
  }

  lemma SilenceKeepsBase(base: Perms, rows: seq<Overwrite>, s: Subject, b: nat)
    requires UniqueTargets(rows) && forall tier :: !Decides(rows, tier, s, b)
    ensures b in Effective(base, rows, s) <==> b in base
  {
    EffectiveIsLadder(base, rows, s, b);
    assert !Decides(rows, MemberTier, s, b) && !Decides(rows, RoleTier, s, b) && !Decides(rows, EveryoneTier, s, b);
  }

  /** The overwrites change nothing exactly when every deciding tier says what the base permission says. */
  lemma EffectiveIsBaseIff(base: Perms, rows: seq<Overwrite>, s: Subject)
    requires UniqueTargets(rows)
    ensures Effective(base, rows, s) == base
            <==> forall b, tier :: Decides(rows, tier, s, b) ==> (Allows(rows, tier, s, b) <==> b in base)
  {
    forall b, tier | Decides(rows, tier, s, b)
      ensures b in Effective(base, rows, s) <==> Allows(rows, tier, s, b)
    {
      DecidingTierRules(base, rows, s, b, tier);
    }
    forall b | forall tier :: !Decides(rows, tier, s, b) ensures b in Effective(base, rows, s) <==> b in base {
      SilenceKeepsBase(base, rows, s, b);
    }
  }

  /** They take nothing away exactly when no deciding tier only denies a bit of the base permission. */
  lemma EffectiveKeepsBaseIff(base: Perms, rows: seq<Overwrite>, s: Subject)
    requires UniqueTargets(rows)
    ensures base <= Effective(base, rows, s)
            <==> forall b, tier :: b in base && Decides(rows, tier, s, b) ==> Allows(rows, tier, s, b)
  {
    forall b, tier | Decides(rows, tier, s, b)
      ensures b in Effective(base, rows, s) <==> Allows(rows, tier, s, b)
    {
      DecidingTierRules(base, rows, s, b, tier);
    }
    forall b | forall tier :: !Decides(rows, tier, s, b) ensures b in Effective(base, rows, s) <==> b in base {
      SilenceKeepsBase(base, rows, s, b);
    }
  }

  ghost predicate SameRows(xs: seq<Overwrite>, ys: seq<Overwrite>) {
    forall ow :: ow in xs <==> ow in ys
  }

  ghost predicate SameSubject(s: Subject, t: Subject) {
    s.userId == t.userId && s.guildId == t.guildId && forall r :: r in s.roles <==> r in t.roles
  }

  /** Neither the order of the rows nor the order of the roles matters. */
  lemma OrderIndependence(base: Perms, xs: seq<Overwrite>, ys: seq<Overwrite>, s: Subject, t: Subject)
    requires UniqueTargets(xs) && UniqueTargets(ys)
    requires SameRows(xs, ys) && SameSubject(s, t)
    ensures Effective(base, xs, s) == Effective(base, ys, t)
  {
    forall b ensures b in Effective(base, xs, s) <==> b in Effective(base, ys, t) {
      EffectiveIsLadder(base, xs, s, b);
      EffectiveIsLadder(base, ys, t, b);
      assert forall ow, tier :: InTier(ow, tier, s) == InTier(ow, tier, t);
    }
  }

  /** Two rows for one target, which the unique index rules out, would make the order count. */
  lemma OrderMattersWithDuplicates()
    ensures exists xs, ys, s :: SameRows(xs, ys) && Effective({}, xs, s) != Effective({}, ys, s)
  {
    var s := Subject(1, [], 0);
    var a, d := Overwrite(1, Member, {5}, {}), Overwrite(1, Member, {}, {5});
    assert Find([a, d], MemberTier, s) == Some(a);
    assert Find([d, a], MemberTier, s) == Some(d);
    assert 5 in Effective({}, [a, d], s) && 5 !in Effective({}, [d, a], s);
    assert SameRows([a, d], [d, a]);
  }

  /** Rows that do not address the subject can be dropped or changed freely. */
  lemma UnaddressedRowsAreIgnored(base: Perms, xs: seq<Overwrite>, ys: seq<Overwrite>, s: Subject)
    requires UniqueTargets(xs) && UniqueTargets(ys)
    requires forall ow :: Addresses(ow, s) ==> (ow in xs <==> ow in ys)
    ensures Effective(base, xs, s) == Effective(base, ys, s)
  {
    forall b ensures b in Effective(base, xs, s) <==> b in Effective(base, ys, s) {
      EffectiveIsLadder(base, xs, s, b);
      EffectiveIsLadder(base, ys, s, b);
      assert forall ow, tier :: InTier(ow, tier, s) ==> Addresses(ow, s);
    }
  }

  // ---------- the client's 32-bit complement ----------

  /** On the client `deny` is a decimal string, so `effective &= BigInt(~deny)` complements it as a
      32-bit integer: bits 0 to 30 are cleared one by one, and bit 31 is the sign, which clears every
      bit from 31 up. */
  function ClearAsInt32(effective: Perms, deny: Perms): Perms {
    set b | b in effective && !(if b < 31 then b in deny else 31 in deny)
  }

  ghost predicate Narrow(mask: Perms) {
    forall b :: b in mask ==> b < 31
  }

  /** The 32-bit complement removes exactly the denied bits, whatever the permission it is applied to,
      if and only if the mask stays below bit 31. */
  lemma ClearAsInt32Exact(deny: Perms)
    ensures (forall effective: Perms :: ClearAsInt32(effective, deny) == effective - deny) <==> Narrow(deny)
  {
    if !Narrow(deny) {
      var b :| b in deny && b >= 31;
      if 31 !in deny {
        assert ClearAsInt32({b}, deny) != {b} - deny by {
          assert b in ClearAsInt32({b}, deny);
        }
      } else {
        var c := Above(deny);
        assert ClearAsInt32({c}, deny) != {c} - deny by {
          assert c in {c} - deny && c !in ClearAsInt32({c}, deny);
        }
      }
    }
  }

  /** A bit above every bit of a mask, and not below 32. */
  lemma {:induction false} Above(mask: Perms) returns (c: nat)
    ensures c >= 32 && forall b :: b in mask ==> b < c
    decreases |mask|
  {
    if mask == {} {
      c := 32;
    } else {
      var b :| b in mask;
      var rest := mask - {b};
      c := Above(rest);
      assert mask == rest + {b};
      if c <= b { c := b + 1; }
    }
  }

  function ClientAmend(base: Perms, row: Option<Overwrite>): Perms {
    if row.Some? then ClearAsInt32(base, row.value.deny) + row.value.allow else base
  }

  /** The client's evaluation: the string complement in the first and last tier, the bigint one for
      the roles. */
  ghost function ClientEffective(base: Perms, rows: seq<Overwrite>, s: Subject): Perms {
    var everyone := ClientAmend(base, Find(rows, EveryoneTier, s));
    var roles := everyone - RoleDeny(rows, s) + RoleAllow(rows, s);
    ClientAmend(roles, Find(rows, MemberTier, s))
  }

  method ApplyChannelOverwritesOnClient(base: Perms, overwrites: seq<Overwrite>, s: Subject)
    returns (effective: Perms)
    ensures effective == ClientEffective(base, overwrites, s)
  {
    effective := base;
    var everyoneOW := Find(overwrites, EveryoneTier, s);
    if everyoneOW.Some? {
      effective := ClearAsInt32(effective, everyoneOW.value.deny);
      effective := effective + everyoneOW.value.allow;
    }
    var allow, deny := RoleMasks(overwrites, s);
    effective := effective - deny;
    effective := effective + allow;
    var memberOW := Find(overwrites, MemberTier, s);
    if memberOW.Some? {
      effective := ClearAsInt32(effective, memberOW.value.deny);
      effective := effective + memberOW.value.allow;
    }
  }

  ghost predicate NarrowRows(rows: seq<Overwrite>) {
    forall ow :: ow in rows ==> Narrow(ow.deny)
  }

  lemma ClientEvaluatesAlike(base: Perms, rows: seq<Overwrite>, s: Subject)
    requires NarrowRows(rows)
    ensures ClientEffective(base, rows, s) == Effective(base, rows, s)
  {
    FindSound(rows, EveryoneTier, s);
    FindSound(rows, MemberTier, s);
    forall ow | ow in rows
      ensures forall effective: Perms :: ClearAsInt32(effective, ow.deny) == effective - ow.deny
    {
      ClearAsInt32Exact(ow.deny);
    }
  }

  // ---------- base permission ----------

  datatype GuildMember = GuildMember(userId: Id, roles: seq<Id>)

  /** Roles with their masks; the @everyone role is keyed by the guild's own id. */
  datatype Guild = Guild(ownerId: Id, roles: map<Id, Perms>, members: seq<GuildMember>)

  /** Members are keyed by user, and hold roles of the guild. */
  ghost predicate ValidGuild(g: Guild) {
    && (forall i, j :: 0 <= i < j < |g.members| ==> g.members[i].userId != g.members[j].userId)
    && (forall m, r :: m in g.members && r in m.roles ==> r in g.roles)
  }

  /** `getMemberRoles`: nobody's roles are none. */
  function MemberRoles(members: seq<GuildMember>, userId: Id): seq<Id> {
    if members == [] then []
    else if members[0].userId == userId then members[0].roles
    else MemberRoles(members[1..], userId)
  }

  lemma {:induction false} MemberRolesOf(members: seq<GuildMember>, m: GuildMember)
    requires m in members
    requires forall i, j :: 0 <= i < j < |members| ==> members[i].userId != members[j].userId
    ensures MemberRoles(members, m.userId) == m.roles
  {
    if members[0] != m {
      assert members == [members[0]] + members[1..];
      MemberRolesOf(members[1..], m);
    }
  }

  /** Whoever is no member holds no role. */
  lemma {:induction false} StrangersHoldNothing(members: seq<GuildMember>, userId: Id)
    requires forall m :: m in members ==> m.userId != userId
    ensures MemberRoles(members, userId) == []
  {
    if members != [] {
      assert members[0] in members;
      StrangersHoldNothing(members[1..], userId);
    }
  }

  function RolePerms(g: Guild, r: Id): Perms {
    if r in g.roles then g.roles[r] else {}
  }

  /** @everyone together with everything the held roles grant. */
  ghost function GrantedBy(g: Guild, guildId: Id, roles: seq<Id>): Perms {
    RolePerms(g, guildId) + set r, b | r in roles && b in RolePerms(g, r) :: b
  }

  method AllowAll(g: Guild, start: Perms, roles: seq<Id>) returns (perms: Perms)
    ensures perms == start + set r, b | r in roles && b in RolePerms(g, r) :: b
  {
    perms := start;
    for i := 0 to |roles|
      invariant perms == start + set r, b | r in roles[..i] && b in RolePerms(g, r) :: b
    {
      assert roles[..i + 1] == roles[..i] + [roles[i]];
      perms := perms + RolePerms(g, roles[i]);
    }
    assert roles[..|roles|] == roles;
  }

  ghost function BasePermission(g: Guild, guildId: Id, userId: Id): Perms {
    if g.ownerId == userId then ALL_PERMISSIONS
    else GrantedBy(g, guildId, MemberRoles(g.members, userId))
  }

  /** Everything for the owner; for another member what the @everyone role or a role the member holds grants. */
  lemma BaseIsUnionOfRoles(g: Guild, guildId: Id, m: GuildMember, b: nat)
    requires ValidGuild(g) && m in g.members
    ensures b in BasePermission(g, guildId, m.userId)
            <==> if m.userId == g.ownerId then b in ALL_PERMISSIONS
                 else exists r: Id :: (r == guildId || r in m.roles) && r in g.roles && b in g.roles[r]
  {
    MemberRolesOf(g.members, m);
    if m.userId != g.ownerId {
      var granted := set r, b | r in m.roles && b in RolePerms(g, r) :: b;
      assert BasePermission(g, guildId, m.userId) == RolePerms(g, guildId) + granted;
      if b in granted {
        var r :| r in m.roles && b in RolePerms(g, r);
        assert r in g.roles && b in g.roles[r];
      } else if b in RolePerms(g, guildId) {
        assert guildId in g.roles && b in g.roles[guildId];
      } else {
        assert forall r :: r in m.roles && r in g.roles ==> RolePerms(g, r) == g.roles[r];
      }
    }
  }

  method GetBasePermission(g: Guild, guildId: Id, userId: Id) returns (perms: Perms)
    ensures perms == BasePermission(g, guildId, userId)
  {
    if g.ownerId == userId { return ALL_PERMISSIONS; }
    perms := AllowAll(g, RolePerms(g, guildId), MemberRoles(g.members, userId));
  }
}
