/** Friend requests, friendships and blocks: one record per pair of users, seen differently from its two sides. */
module Relationships {
  import opened Common

  datatype Kind = Nothing | Pending | Friends | Blocked | PendingReceived

  datatype Relationship = Relationship(senderId: Id, recipientId: Id, kind: Kind)

  type Db = map<Id, Relationship>

  /** An entry of a user's list. */
  datatype View = View(id: Id, kind: Kind, user: Id)

  predicate Touches(r: Relationship, u: Id) {
    r.senderId == u || r.recipientId == u
  }

  predicate Links(r: Relationship, a: Id, b: Id) {
    (r.senderId == a && r.recipientId == b) || (r.senderId == b && r.recipientId == a)
  }

  function OtherSide(r: Relationship, u: Id): Id {
    if r.senderId != u then r.senderId else r.recipientId
  }

  // ---------- operations ----------

  /** `findOne` for a pair, in either direction. */
  ghost function Between(db: Db, a: Id, b: Id): (found: Option<Id>)
    ensures found.Some? ==> found.value in db && Links(db[found.value], a, b)
    ensures found.None? ==> forall id :: id in db ==> !Links(db[id], a, b)
  {
    if id :| id in db && Links(db[id], a, b) then Some(id) else None
  }

  /** `profiles` are the users that exist. The record is saved before the recipient's profile is read. */
  function Accept(db: Db, profiles: set<Id>, id: Id): (Db, Option<Status>)
    requires id in db
  {
    var r := db[id];
    if r.kind != Pending && r.kind != Blocked then (db, Some(BadRequest))
    else (db[id := r.(kind := Friends)], if r.recipientId in profiles then None else Some(InternalServerError))
  }

  /** Whoever blocks becomes the sender. */
  function BlockUpdate(db: Db, userId: Id, id: Id): Db
    requires id in db
  {
    var r := db[id];
    db[id := Relationship(userId, if r.senderId == userId then r.recipientId else r.senderId, Blocked)]
  }

  /** `recipient` is the profile found under the given username. */
  ghost function Create(db: Db, profiles: set<Id>, senderId: Id, recipient: Option<Id>, newId: Id)
    : (Db, Option<Status>)
  {
    if recipient.None? || recipient.value == senderId then (db, Some(BadRequest))
    else
      var existing := Between(db, senderId, recipient.value);
      if existing.None? then (db[newId := Relationship(senderId, recipient.value, Pending)], None)
      else
        var r := db[existing.value];
        if r.kind == Friends then (db, Some(BadRequest))
        else if r.kind == Pending then
          if r.senderId == senderId then (db, None)
          else
            var (db', error) := Accept(db, profiles, existing.value);
            (db', if error.Some? then Some(BadRequest) else None)
        else if r.kind == Blocked && r.senderId == senderId then Accept(db, profiles, existing.value)
        else (db, Some(BadRequest))
  }

  /** A missing type means Friends. */
  function Update(db: Db, profiles: set<Id>, userId: Id, id: Id, kind: Kind): (Db, Option<Status>) {
    var wanted := if kind == Nothing then Friends else kind;
    if id !in db || !Touches(db[id], userId) then (db, Some(BadRequest))
    else if wanted == Blocked then (BlockUpdate(db, userId, id), None)
    else if wanted == Friends then Accept(db, profiles, id)
    else (db, Some(BadRequest))
  }

  /** `blocked` is None when the request names nobody. */
  ghost function Block(db: Db, userId: Id, blocked: Option<Id>, newId: Id): (Db, Option<Status>) {
    if blocked.None? then (db, Some(BadRequest))
    else
      var existing := Between(db, userId, blocked.value);
      if existing.Some? then (BlockUpdate(db, userId, existing.value), None)
      else (db[newId := Relationship(userId, blocked.value, Blocked)], None)
  }

  function Remove(db: Db, profiles: set<Id>, userId: Id, id: Id): (Db, Option<Status>) {
    if id !in db || !Touches(db[id], userId) then (db, Some(BadRequest))
    else if db[id].kind == Blocked && db[id].senderId != userId then (db, Some(BadRequest))
    else (db - {id}, if userId in profiles then None else Some(InternalServerError))
  }

  // ---------- lists ----------

  /** A block is shown only to the one who blocked. */
  predicate Visible(r: Relationship, u: Id) {
    Touches(r, u) && (r.kind != Blocked || r.senderId == u)
  }

  function ViewOf(id: Id, r: Relationship, u: Id): View {
    var kind := if r.kind != Pending then r.kind else if r.senderId == u then Pending else PendingReceived;
    View(id, kind, OtherSide(r, u))
  }

  ghost predicate InList(db: Db, u: Id, v: View) {
    v.id in db && Visible(db[v.id], u) && v == ViewOf(v.id, db[v.id], u)
  }

  /** User u's list shows user v as `kind`. */
  ghost predicate Shows(db: Db, u: Id, v: Id, kind: Kind) {
    exists e :: InList(db, u, e) && e.user == v && e.kind == kind
  }

  ghost predicate ShowsNothing(db: Db, u: Id, v: Id) {
    forall e :: InList(db, u, e) ==> e.user != v
  }

  // ---------- invariant ----------

  /** At most one record per unordered pair, and PendingReceived is never stored. */
  ghost predicate Inv(db: Db) {
    && (forall i, j :: i in db && j in db && Links(db[j], db[i].senderId, db[i].recipientId) ==> i == j)
    && (forall i :: i in db ==> db[i].kind in {Pending, Friends, Blocked})
  }

  /** The record of a pair, changed in any way that keeps the pair. */
  lemma ReplaceKeepsInv(db: Db, id: Id, r: Relationship)
    requires Inv(db) && id in db && r.kind in {Pending, Friends, Blocked}
    requires Links(r, db[id].senderId, db[id].recipientId)
    ensures Inv(db[id := r])
  {
    var db' := db[id := r];
    forall i, j | i in db' && j in db' && Links(db'[j], db'[i].senderId, db'[i].recipientId) ensures i == j {
      assert Links(db[j], db[i].senderId, db[i].recipientId);
    }
  }

  lemma AddKeepsInv(db: Db, id: Id, r: Relationship)
    requires Inv(db) && id !in db && r.kind in {Pending, Friends, Blocked}
    requires Between(db, r.senderId, r.recipientId).None?
    ensures Inv(db[id := r])
  {
  }

  datatype Action =
    | DoCreate(senderId: Id, recipient: Option<Id>, newId: Id)
    | DoUpdate(userId: Id, id: Id, kind: Kind)
    | DoBlock(userId: Id, blocked: Option<Id>, newId: Id)
    | DoRemove(userId: Id, id: Id)

  /** Database ids are fresh. */
  predicate Fresh(db: Db, a: Action) {
    match a
    case DoCreate(_, _, newId) => newId !in db
    case DoBlock(_, _, newId) => newId !in db
    case _ => true
  }

  ghost function Step(db: Db, profiles: set<Id>, a: Action): Db {
    match a
    case DoCreate(u, v, newId) => Create(db, profiles, u, v, newId).0
    case DoUpdate(u, id, kind) => Update(db, profiles, u, id, kind).0
    case DoBlock(u, v, newId) => Block(db, u, v, newId).0
    case DoRemove(u, id) => Remove(db, profiles, u, id).0
  }

  lemma StepInv(db: Db, profiles: set<Id>, a: Action)
    requires Inv(db) && Fresh(db, a)
    ensures Inv(Step(db, profiles, a))
  {
    match a
    case DoCreate(u, v, newId) =>
      if v.Some? && v.value != u {
        var existing := Between(db, u, v.value);
        if existing.None? {
          AddKeepsInv(db, newId, Relationship(u, v.value, Pending));
        } else {
          ReplaceKeepsInv(db, existing.value, db[existing.value].(kind := Friends));
        }
      }
    case DoUpdate(u, id, kind) =>
      if id in db && Touches(db[id], u) {
        ReplaceKeepsInv(db, id, db[id].(kind := Friends));
        ReplaceKeepsInv(db, id, BlockUpdate(db, u, id)[id]);
      }
    case DoBlock(u, v, newId) =>
      if v.Some? {
        var existing := Between(db, u, v.value);
        if existing.None? {
          AddKeepsInv(db, newId, Relationship(u, v.value, Blocked));
        } else {
          ReplaceKeepsInv(db, existing.value, BlockUpdate(db, u, existing.value)[existing.value]);
        }
      }
    case DoRemove(_, _) =>
  }

  ghost predicate IsRun(profiles: set<Id>, states: seq<Db>, actions: seq<Action>) {
    && |states| == |actions| + 1 && states[0] == map[]
    && forall i {:trigger actions[i]} :: 0 <= i < |actions| ==>
         Fresh(states[i], actions[i]) && states[i + 1] == Step(states[i], profiles, actions[i])
  }

  lemma {:induction false} RunInv(profiles: set<Id>, states: seq<Db>, actions: seq<Action>, i: nat)
    requires IsRun(profiles, states, actions) && i < |states|
    ensures Inv(states[i])
  {
    if i > 0 {
      RunInv(profiles, states, actions, i - 1);
      StepInv(states[i - 1], profiles, actions[i - 1]);
    }
  }

  // ---------- the two sides ----------

  /** A user's list shows any other user at most once. */
  lemma ListedOnce(db: Db, u: Id, e: View, f: View)
    requires Inv(db) && InList(db, u, e) && InList(db, u, f) && e.user == f.user
    ensures e == f
  {
    assert Links(db[f.id], db[e.id].senderId, db[e.id].recipientId);
  }

  /** What u's list shows of v, read off the record between them. */
  lemma ShowsByRecord(db: Db, u: Id, v: Id, id: Id, kind: Kind)
    requires Inv(db) && id in db && Links(db[id], u, v)
    ensures Shows(db, u, v, kind) <==> Visible(db[id], u) && ViewOf(id, db[id], u).kind == kind
    ensures ShowsNothing(db, u, v) <==> !Visible(db[id], u)
  {
    var e := ViewOf(id, db[id], u);
    assert e.user == v;
    forall f | InList(db, u, f) && f.user == v ensures f.id == id {
      assert Links(db[f.id], db[id].senderId, db[id].recipientId);
    }
    if Visible(db[id], u) { assert InList(db, u, e); }
  }

  /** The two views of any pair of users, in any run, are dual: a sent request faces a received one,
      a friendship faces a friendship, and a block faces nothing. */
  lemma ViewsAreDual(profiles: set<Id>, states: seq<Db>, actions: seq<Action>, i: nat, u: Id, v: Id)
    requires IsRun(profiles, states, actions) && i < |states| && u != v
    ensures Shows(states[i], u, v, Pending) <==> Shows(states[i], v, u, PendingReceived)
    ensures Shows(states[i], u, v, Friends) <==> Shows(states[i], v, u, Friends)
    ensures Shows(states[i], u, v, Blocked) ==> ShowsNothing(states[i], v, u)
    ensures ShowsNothing(states[i], u, v) ==> ShowsNothing(states[i], v, u) || Shows(states[i], v, u, Blocked)
  {
    var db := states[i];
    RunInv(profiles, states, actions, i);
    var found := Between(db, u, v);
    if found.Some? {
      var id := found.value;
      ShowsByRecord(db, u, v, id, Pending);
      ShowsByRecord(db, v, u, id, PendingReceived);
      ShowsByRecord(db, u, v, id, Friends);
      ShowsByRecord(db, v, u, id, Friends);
      ShowsByRecord(db, u, v, id, Blocked);
      ShowsByRecord(db, v, u, id, Blocked);
    } else {
      assert forall id :: id in db ==> !Links(db[id], u, v);
    }
  }

  // ---------- what operations undo and agree on ----------

  /** Two users who ask each other become friends, whoever asks first. */
  lemma MutualRequestsMakeFriends(db: Db, profiles: set<Id>, u: Id, v: Id, newId: Id, otherId: Id)
    requires Inv(db) && u != v && newId !in db && Between(db, u, v).None?
    ensures var db1 := Create(db, profiles, u, Some(v), newId).0;
            Create(db1, profiles, v, Some(u), otherId).0 == db[newId := Relationship(u, v, Friends)]
  {
    var db1 := Create(db, profiles, u, Some(v), newId).0;
    AddKeepsInv(db, newId, Relationship(u, v, Pending));
    var found := Between(db1, v, u);
    assert Links(db1[newId], v, u);
    assert found == Some(newId);
  }

  /** Removing undoes a new request, from either side. */
  lemma RemoveUndoesRequest(db: Db, profiles: set<Id>, u: Id, v: Id, newId: Id, who: Id)
    requires u != v && newId !in db && Between(db, u, v).None? && who in {u, v}
    ensures Remove(Create(db, profiles, u, Some(v), newId).0, profiles, who, newId).0 == db
  {
    assert db[newId := Relationship(u, v, Pending)] - {newId} == db;
  }

  /** A block makes the blocker the sender, and blocking back hands it over. */
  lemma BlockHandsOver(db: Db, u: Id, v: Id, newId: Id)
    requires Inv(db) && newId !in db && u != v
    ensures var db1 := Block(db, u, Some(v), newId).0;
            var id := Between(db1, u, v);
            && id.Some? && db1[id.value] == Relationship(u, v, Blocked)
            && Block(db1, v, Some(u), newId).0 == db1[id.value := Relationship(v, u, Blocked)]
  {
    var db1 := Block(db, u, Some(v), newId).0;
    StepInv(db, {}, DoBlock(u, Some(v), newId));
    var existing := Between(db, u, v);
    var at := if existing.Some? then existing.value else newId;
    assert db1[at] == Relationship(u, v, Blocked);
    assert Links(db1[at], u, v) && Links(db1[at], v, u);
    assert Between(db1, u, v) == Some(at) && Between(db1, v, u) == Some(at);
  }

  /** Everything that ends or turns the block of v by u: either side accepting, v blocking back, and u removing
      it or sending a request. */
  predicate EndsBlock(a: Action, u: Id, v: Id, id: Id) {
    || (a.DoUpdate? && a.id == id && a.userId in {u, v} && a.kind in {Friends, Nothing})
    || (a.DoUpdate? && a.id == id && a.userId == v && a.kind == Blocked)
    || (a.DoRemove? && a.id == id && a.userId == u)
    || (a.DoCreate? && a.senderId == u && a.recipient == Some(v))
    || (a.DoBlock? && a.userId == v && a.blocked == Some(u))
  }

  /** A block stays as it is under exactly the other actions. */
  lemma BlockStaysIff(db: Db, profiles: set<Id>, id: Id, u: Id, v: Id, a: Action)
    requires Inv(db) && Fresh(db, a) && u != v && id in db && db[id] == Relationship(u, v, Blocked)
    ensures var db' := Step(db, profiles, a);
            (id in db' && db'[id] == db[id]) <==> !EndsBlock(a, u, v, id)
  {
    match a
    case DoCreate(w, x, _) => if x.Some? { BetweenIs(db, id, w, x.value); }
    case DoBlock(w, x, _) => if x.Some? { BetweenIs(db, id, w, x.value); }
    case DoUpdate(_, _, _) =>
    case DoRemove(_, _) =>
  }

  lemma BetweenIs(db: Db, id: Id, a: Id, b: Id)
    requires Inv(db) && id in db
    ensures Between(db, a, b) == Some(id) <==> Links(db[id], a, b)
  {
    var found := Between(db, a, b);
    if Links(db[id], a, b) && found.Some? { assert Links(db[found.value], db[id].senderId, db[id].recipientId); }
  }

  /** In particular the blocked side can turn the block into a friendship, with or without naming the type. */
  lemma BlockedSideAccepts(db: Db, profiles: set<Id>, id: Id, u: Id, v: Id, kind: Kind)
    requires id in db && db[id] == Relationship(u, v, Blocked) && kind in {Friends, Nothing}
    ensures Step(db, profiles, DoUpdate(v, id, kind)) == db[id := Relationship(u, v, Friends)]
  {
  }

  /** Over runs: a block holds for as long as nothing ends it. */
  lemma {:induction false} BlockHolds(profiles: set<Id>, states: seq<Db>, actions: seq<Action>, i: nat, j: nat,
                                      id: Id, u: Id, v: Id)
    requires IsRun(profiles, states, actions) && i <= j < |states| && u != v
    requires id in states[i] && states[i][id] == Relationship(u, v, Blocked)
    requires forall n :: i <= n < j ==> !EndsBlock(actions[n], u, v, id)
    ensures id in states[j] && states[j][id] == Relationship(u, v, Blocked)
    decreases j
  {
    if i < j {
      BlockHolds(profiles, states, actions, i, j - 1, id, u, v);
      RunInv(profiles, states, actions, j - 1);
      BlockStaysIff(states[j - 1], profiles, id, u, v, actions[j - 1]);
    }
  }

  // ---------- the service ----------

  class RelationshipsService {
    var records: Db
    var profiles: set<Id>

    constructor (profiles: set<Id>)
      ensures Valid() && records == map[] && this.profiles == profiles
    {
      records, this.profiles := map[], profiles;
    }

    ghost predicate Valid()
      reads this
    {
      Inv(records)
    }

    method FindBetween(a: Id, b: Id) returns (found: Option<Id>)
      requires Valid()
      ensures found == Between(records, a, b)
    {
      var rest := records.Keys;
      while rest != {}
        invariant rest <= records.Keys
        invariant forall id :: id in records.Keys - rest ==> !Links(records[id], a, b)
        decreases |rest|
      {
        var id :| id in rest;
        if Links(records[id], a, b) {
          assert Links(records[Between(records, a, b).value], records[id].senderId, records[id].recipientId);
          return Some(id);
        }
        rest := rest - {id};
      }
      found := None;
    }

    method AcceptRequest(id: Id) returns (error: Option<Status>)
      requires id in records
      modifies this`records
      ensures (records, error) == Accept(old(records), profiles, id)
    {
      var relationship := records[id];
      if relationship.kind != Pending && relationship.kind != Blocked {
        return Some(BadRequest);
      }
      records := records[id := relationship.(kind := Friends)];
      error := if relationship.recipientId in profiles then None else Some(InternalServerError);
    }

    method BlockUserUpdate(userId: Id, id: Id)
      requires id in records
      modifies this`records
      ensures records == BlockUpdate(old(records), userId, id)
    {
      var relationship := records[id].(kind := Blocked);
      var blockedUserId := if relationship.senderId == userId then relationship.recipientId else relationship.senderId;
      relationship := relationship.(senderId := userId);
      relationship := relationship.(recipientId := blockedUserId);
      records := records[id := relationship];
    }

    method CreateRequest(senderId: Id, recipient: Option<Id>, newId: Id) returns (error: Option<Status>)
      requires Valid() && newId !in records
      modifies this`records
      ensures Valid() && (records, error) == Create(old(records), profiles, senderId, recipient, newId)
    {
      StepInv(records, profiles, DoCreate(senderId, recipient, newId));
      if recipient.None? || recipient.value == senderId {
        return Some(BadRequest);
      }
      var existing := FindBetween(senderId, recipient.value);
      if existing.None? {
        records := records[newId := Relationship(senderId, recipient.value, Pending)];
        return None;
      }
      var relationship := records[existing.value];
      if relationship.kind == Friends {
        return Some(BadRequest);
      } else if relationship.kind == Pending {
        if relationship.senderId == senderId { return None; }
        error := AcceptRequest(existing.value);
        if error.Some? { error := Some(BadRequest); }
        return;
      } else if relationship.kind == Blocked && relationship.senderId == senderId {
        error := UpdateRequest(senderId, existing.value, Friends);
        return;
      }
      error := Some(BadRequest);
    }

    method UpdateRequest(userId: Id, id: Id, kind: Kind) returns (error: Option<Status>)
      requires Valid()
      modifies this`records
      ensures Valid() && (records, error) == Update(old(records), profiles, userId, id, kind)
    {
      StepInv(records, profiles, DoUpdate(userId, id, kind));
      var wanted := if kind == Nothing then Friends else kind;
      if id !in records || !Touches(records[id], userId) {
        return Some(BadRequest);
      }
      if wanted == Blocked {
        BlockUserUpdate(userId, id);
        return None;
      }
      if wanted == Friends {
        error := AcceptRequest(id);
        return;
      }
      error := Some(BadRequest);
    }

    method BlockUser(userId: Id, blocked: Option<Id>, newId: Id) returns (error: Option<Status>)
      requires Valid() && newId !in records
      modifies this`records
      ensures Valid() && (records, error) == Block(old(records), userId, blocked, newId)
    {
      StepInv(records, profiles, DoBlock(userId, blocked, newId));
      if blocked.None? {
        return Some(BadRequest);
      }
      var existing := FindBetween(userId, blocked.value);
      if existing.Some? {
        BlockUserUpdate(userId, existing.value);
      } else {
        records := records[newId := Relationship(userId, blocked.value, Blocked)];
      }
      error := None;
    }

    method RemoveRequest(userId: Id, id: Id) returns (error: Option<Status>)
      requires Valid()
      modifies this`records
      ensures Valid() && (records, error) == Remove(old(records), profiles, userId, id)
    {
      if id !in records || !Touches(records[id], userId) {
        return Some(BadRequest);
      }
      if records[id].kind == Blocked && records[id].senderId != userId {
        return Some(BadRequest);
      }
      records := records - {id};
      error := if userId in profiles then None else Some(InternalServerError);
    }

    /** The user's list: every visible record once, and so every other user at most once. */
    method FindAll(userId: Id) returns (views: seq<View>)
      requires Valid()
      ensures forall v :: v in views <==> InList(records, userId, v)
      ensures forall i, j :: 0 <= i < j < |views| ==> views[i].user != views[j].user
    {
      views := [];
      var rest := records.Keys;
      while rest != {}
        invariant rest <= records.Keys
        invariant forall v :: v in views <==> InList(records, userId, v) && v.id !in rest
        invariant forall i, j :: 0 <= i < j < |views| ==> views[i].user != views[j].user
        decreases |rest|
      {
        var id :| id in rest;
        var relationship := records[id];
        if Visible(relationship, userId) {
          var view := ViewOf(id, relationship, userId);
          forall v | v in views ensures v.user != view.user {
            if v.user == view.user { ListedOnce(records, userId, v, view); }
          }
          views := views + [view];
        }
        rest := rest - {id};
      }
    }
  }
}
