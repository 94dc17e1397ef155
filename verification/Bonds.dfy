/** What the records mean for a pair of users: a small machine of its own, which every action either drives for the two
    or leaves alone. */
module Bonds {
  import opened Common
  import opened Relationships

  datatype Bond = Strangers | Asked(side: Id) | Friendly | Shut(side: Id)

  /** What one of the two does about the other. */
  datatype Deed = Request(who: Id) | Agree(who: Id) | Shun(who: Id) | Part(who: Id) | Idle

  ghost function BondOf(db: Db, u: Id, v: Id): Bond {
    var found := Between(db, u, v);
    if found.None? then Strangers
    else
      match db[found.value].kind
      case Pending => Asked(db[found.value].senderId)
      case Friends => Friendly
      case Blocked => Shut(db[found.value].senderId)
      case _ => Strangers
  }

  predicate IsPair(a: Id, b: Id, u: Id, v: Id) {
    (a == u && b == v) || (a == v && b == u)
  }

  /** What an action means to the two. An update or a removal is about the record it names. */
  ghost function DeedOf(db: Db, a: Action, u: Id, v: Id): Deed {
    match a
    case DoCreate(w, x, _) => if x.Some? && IsPair(w, x.value, u, v) then Request(w) else Idle
    case DoBlock(w, x, _) => if x.Some? && IsPair(w, x.value, u, v) then Shun(w) else Idle
    case DoUpdate(w, id, kind) =>
      if Between(db, u, v) != Some(id) || w !in {u, v} then Idle
      else if kind == Friends || kind == Nothing then Agree(w)
      else if kind == Blocked then Shun(w)
      else Idle
    case DoRemove(w, id) => if Between(db, u, v) == Some(id) && w in {u, v} then Part(w) else Idle
  }

  function After(b: Bond, d: Deed): Bond {
    match d
    case Idle => b
    case Request(w) =>
      (match b
       case Strangers => Asked(w)
       case Asked(x) => if x == w then b else Friendly
       case Friendly => b
       case Shut(x) => if x == w then Friendly else b)
    case Agree(w) => if b.Asked? || b.Shut? then Friendly else b
    case Shun(w) => Shut(w)
    case Part(w) => if b.Shut? && b.side != w then b else Strangers
  }

  // ---------- every action is one deed ----------

  lemma BondByRecord(db: Db, id: Id, u: Id, v: Id)
    requires Inv(db) && id in db && Links(db[id], u, v)
    ensures Between(db, u, v) == Some(id)
    ensures BondOf(db, u, v) == match db[id].kind
                                case Pending => Asked(db[id].senderId)
                                case Friends => Friendly
                                case Blocked => Shut(db[id].senderId)
                                case _ => Strangers
  {
    BetweenIs(db, id, u, v);
  }

  lemma BondByAbsence(db: Db, u: Id, v: Id)
    requires forall id :: id in db ==> !Links(db[id], u, v)
    ensures Between(db, u, v) == None && BondOf(db, u, v) == Strangers
  {
  }

  /** A record that changes in place, keeping its pair, matters to that pair alone. */
  lemma ReplacedBond(db: Db, id: Id, r: Relationship, u: Id, v: Id)
    requires Inv(db) && id in db && r.kind in {Pending, Friends, Blocked}
    requires Links(r, db[id].senderId, db[id].recipientId)
    ensures var db' := db[id := r];
            if Links(db[id], u, v)
            then BondOf(db', u, v) == if r.kind == Pending then Asked(r.senderId)
                                      else if r.kind == Friends then Friendly else Shut(r.senderId)
            else BondOf(db', u, v) == BondOf(db, u, v)
  {
    var db' := db[id := r];
    ReplaceKeepsInv(db, id, r);
    if Links(db[id], u, v) {
      BondByRecord(db', id, u, v);
    } else {
      UnlinkedBond(db, db', id, u, v);
    }
  }

  lemma UnlinkedBond(db: Db, db': Db, id: Id, u: Id, v: Id)
    requires Inv(db) && Inv(db')
    requires forall i :: i != id ==> (i in db <==> i in db') && (i in db ==> db'[i] == db[i])
    requires (id in db ==> !Links(db[id], u, v)) && (id in db' ==> !Links(db'[id], u, v))
    ensures BondOf(db', u, v) == BondOf(db, u, v)
  {
    var found := Between(db, u, v);
    if found.Some? {
      BondByRecord(db', found.value, u, v);
    } else {
      BondByAbsence(db', u, v);
    }
  }

  lemma AddedBond(db: Db, id: Id, r: Relationship, u: Id, v: Id)
    requires Inv(db) && id !in db && r.kind in {Pending, Blocked} && Between(db, r.senderId, r.recipientId).None?
    ensures var db' := db[id := r];
            BondOf(db', u, v) == if !Links(r, u, v) then BondOf(db, u, v)
                                 else if r.kind == Pending then Asked(r.senderId) else Shut(r.senderId)
  {
    var db' := db[id := r];
    AddKeepsInv(db, id, r);
    if Links(r, u, v) { BondByRecord(db', id, u, v); } else { UnlinkedBond(db, db', id, u, v); }
  }

  lemma OnlyLink(db: Db, i: Id, j: Id, u: Id, v: Id)
    requires Inv(db) && i in db && j in db
    ensures Links(db[i], u, v) && Links(db[j], u, v) ==> i == j
  {
    if Links(db[i], u, v) && Links(db[j], u, v) { assert Links(db[j], db[i].senderId, db[i].recipientId); }
  }

  lemma RemovedBond(db: Db, id: Id, u: Id, v: Id)
    requires Inv(db) && id in db
    ensures BondOf(db - {id}, u, v) == if Links(db[id], u, v) then Strangers else BondOf(db, u, v)
  {
    var db' := db - {id};
    if Links(db[id], u, v) {
      forall i | i in db' ensures !Links(db'[i], u, v) {
        OnlyLink(db, id, i, u, v);
      }
      BondByAbsence(db', u, v);
    } else {
      UnlinkedBond(db, db', id, u, v);
    }
  }

  lemma CreateIsRequest(db: Db, profiles: set<Id>, w: Id, x: Option<Id>, newId: Id, u: Id, v: Id)
    requires Inv(db) && newId !in db && u != v
    ensures BondOf(Create(db, profiles, w, x, newId).0, u, v)
            == After(BondOf(db, u, v), DeedOf(db, DoCreate(w, x, newId), u, v))
  {
    if x.Some? && x.value != w {
      var found := Between(db, w, x.value);
      if found.None? {
        AddedBond(db, newId, Relationship(w, x.value, Pending), u, v);
        if IsPair(w, x.value, u, v) { BondByAbsence(db, u, v); }
      } else {
        ReplacedBond(db, found.value, db[found.value].(kind := Friends), u, v);
        if IsPair(w, x.value, u, v) { BondByRecord(db, found.value, u, v); }
      }
    }
  }

  lemma BlockIsShun(db: Db, w: Id, x: Option<Id>, newId: Id, u: Id, v: Id)
    requires Inv(db) && newId !in db && u != v
    ensures BondOf(Block(db, w, x, newId).0, u, v)
            == After(BondOf(db, u, v), DeedOf(db, DoBlock(w, x, newId), u, v))
  {
    if x.Some? {
      var found := Between(db, w, x.value);
      if found.None? {
        AddedBond(db, newId, Relationship(w, x.value, Blocked), u, v);
      } else {
        ReplacedBond(db, found.value, BlockUpdate(db, w, found.value)[found.value], u, v);
      }
    }
  }

  lemma UpdateIsDeed(db: Db, profiles: set<Id>, w: Id, id: Id, kind: Kind, u: Id, v: Id)
    requires Inv(db) && u != v
    ensures BondOf(Update(db, profiles, w, id, kind).0, u, v)
            == After(BondOf(db, u, v), DeedOf(db, DoUpdate(w, id, kind), u, v))
  {
    if id in db && Touches(db[id], w) {
      ReplacedBond(db, id, db[id].(kind := Friends), u, v);
      ReplacedBond(db, id, BlockUpdate(db, w, id)[id], u, v);
      BetweenIs(db, id, u, v);
      if Links(db[id], u, v) { BondByRecord(db, id, u, v); }
    }
  }

  lemma RemoveIsPart(db: Db, profiles: set<Id>, w: Id, id: Id, u: Id, v: Id)
    requires Inv(db) && u != v
    ensures BondOf(Remove(db, profiles, w, id).0, u, v)
            == After(BondOf(db, u, v), DeedOf(db, DoRemove(w, id), u, v))
  {
    if id in db && Touches(db[id], w) {
      RemovedBond(db, id, u, v);
      BetweenIs(db, id, u, v);
      if Links(db[id], u, v) { BondByRecord(db, id, u, v); }
    }
  }

  /** Whatever anybody does, the bond of two users moves as the deed between them says, and else stays. */
  lemma StepIsDeed(db: Db, profiles: set<Id>, a: Action, u: Id, v: Id)
    requires Inv(db) && Fresh(db, a) && u != v
    ensures BondOf(Step(db, profiles, a), u, v) == After(BondOf(db, u, v), DeedOf(db, a, u, v))
  {
    match a
    case DoCreate(w, x, newId) => CreateIsRequest(db, profiles, w, x, newId, u, v);
    case DoUpdate(w, id, kind) => UpdateIsDeed(db, profiles, w, id, kind, u, v);
    case DoBlock(w, x, newId) => BlockIsShun(db, w, x, newId, u, v);
    case DoRemove(w, id) => RemoveIsPart(db, profiles, w, id, u, v);
  }

  /** Where the deeds of the first i steps lead two strangers. */
  ghost function BondAt(states: seq<Db>, actions: seq<Action>, i: nat, u: Id, v: Id): Bond
    requires i <= |actions| <= |states|
  {
    if i == 0 then Strangers
    else After(BondAt(states, actions, i - 1, u, v), DeedOf(states[i - 1], actions[i - 1], u, v))
  }

  /** Over every run: two users stand to each other as their own deeds have left them. */
  lemma {:induction false} BondIsHistory(profiles: set<Id>, states: seq<Db>, actions: seq<Action>, i: nat, u: Id, v: Id)
    requires IsRun(profiles, states, actions) && i < |states| && u != v
    ensures BondOf(states[i], u, v) == BondAt(states, actions, i, u, v)
  {
    if i == 0 {
      BondByAbsence(states[0], u, v);
    } else {
      BondIsHistory(profiles, states, actions, i - 1, u, v);
      RunInv(profiles, states, actions, i - 1);
      StepIsDeed(states[i - 1], profiles, actions[i - 1], u, v);
    }
  }

  // ---------- what the two see ----------

  /** What a user is shown of the other: one's own request as pending, the other's as received, a friend as a friend,
      one's own block as a block, and nothing of a stranger or of the other's block. */
  function Shown(b: Bond, u: Id): Option<Kind> {
    match b
    case Strangers => None
    case Asked(x) => Some(if x == u then Pending else PendingReceived)
    case Friendly => Some(Friends)
    case Shut(x) => if x == u then Some(Blocked) else None
  }

  lemma ListShowsBond(db: Db, u: Id, v: Id, kind: Kind)
    requires Inv(db) && u != v
    ensures Shows(db, u, v, kind) <==> Shown(BondOf(db, u, v), u) == Some(kind)
    ensures ShowsNothing(db, u, v) <==> Shown(BondOf(db, u, v), u) == None
  {
    var found := Between(db, u, v);
    if found.Some? {
      BondByRecord(db, found.value, u, v);
      ShowsByRecord(db, u, v, found.value, kind);
    } else {
      NothingBetween(db, u, v);
    }
  }

  lemma NothingBetween(db: Db, u: Id, v: Id)
    requires Between(db, u, v).None? && u != v
    ensures ShowsNothing(db, u, v)
  {
    forall e | InList(db, u, e) ensures e.user != v {
      assert !Links(db[e.id], u, v);
    }
  }

  // ---------- answers ----------

  /** A request is accepted as new, or once more; it answers the other's request or ends one's own block, and then fails
      where the profile of whoever asked or was blocked is missing; friends and the blocked are turned down. */
  lemma CreateAnswers(db: Db, profiles: set<Id>, w: Id, x: Option<Id>, newId: Id)
    requires Inv(db)
    ensures var error := Create(db, profiles, w, x, newId).1;
            if x.None? || x.value == w then error == Some(BadRequest)
            else
              match BondOf(db, w, x.value)
              case Strangers => error == None
              case Asked(y) =>
                if y == w || AddresseeOf(db, w, x.value) in profiles then error == None else error == Some(BadRequest)
              case Friendly => error == Some(BadRequest)
              case Shut(y) =>
                if y != w then error == Some(BadRequest)
                else if AddresseeOf(db, w, x.value) in profiles then error == None
                else error == Some(InternalServerError)
  {
    if x.Some? && x.value != w {
      var found := Between(db, w, x.value);
      if found.Some? { BondByRecord(db, found.value, w, x.value); }
    }
  }

  /** The recipient of the record of two users. */
  ghost function AddresseeOf(db: Db, u: Id, v: Id): Id {
    var found := Between(db, u, v);
    if found.Some? then db[found.value].recipientId else v
  }

  /** An update of a record is a bad request to strangers, of anything but a block or an acceptance, and as an
      acceptance of a friendship. */
  lemma UpdateAnswers(db: Db, profiles: set<Id>, w: Id, id: Id, kind: Kind)
    requires Inv(db)
    ensures var error := Update(db, profiles, w, id, kind).1;
            if id !in db || !(db[id].senderId == w || db[id].recipientId == w) then error == Some(BadRequest)
            else if kind == Blocked then error == None
            else if kind == Pending || kind == PendingReceived || db[id].kind == Friends then error == Some(BadRequest)
            else error == if db[id].recipientId in profiles then None else Some(InternalServerError)
  {
  }

  /** Anybody who is named can be blocked. */
  lemma BlockAnswers(db: Db, w: Id, x: Option<Id>, newId: Id)
    ensures Block(db, w, x, newId).1 == if x.Some? then None else Some(BadRequest)
  {
  }

  /** A removal is a bad request to strangers and to the blocked side; it fails late where one's own profile is
      missing. */
  lemma RemoveAnswers(db: Db, profiles: set<Id>, w: Id, id: Id)
    ensures var error := Remove(db, profiles, w, id).1;
            if id !in db || !(db[id].senderId == w || db[id].recipientId == w)
               || (db[id].kind == Blocked && db[id].senderId != w)
            then error == Some(BadRequest)
            else error == if w in profiles then None else Some(InternalServerError)
  {
  }
}
