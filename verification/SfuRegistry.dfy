/** The SFU server: what its handlers do to the registries of rooms and peers. */
module SfuRegistry {
  import opened Common

  /** `producers` gives each producer its user, `consumers` gives each consumer its producer. */
  datatype Room = Room(transports: set<Id>, producers: map<Id, Id>, consumers: map<Id, Id>)

  datatype Peer = Peer(userId: Id, producers: set<Id>, consumers: set<Id>)

  /** `current` is each socket's `currentRoomId`, `online` the sockets that joined their room's broadcast
      group and are still connected. Closed producers and consumers never open again. */
  datatype Server = Server(rooms: map<Id, Room>, peers: map<Id, Peer>, current: map<Id, Id>, online: set<Id>,
                           closedProducers: set<Id>, closedConsumers: set<Id>)

  const EMPTY_SERVER := Server(map[], map[], map[], {}, {}, {})

  /** The room a socket's handlers work on, which `rooms.get(roomId)!` takes for granted. */
  predicate HasRoom(s: Server, k: Id) {
    k in s.current && s.current[k] in s.rooms
  }

  function RoomOf(s: Server, k: Id): Room
    requires HasRoom(s, k)
  {
    s.rooms[s.current[k]]
  }

  function WithRoom(s: Server, k: Id, room: Room): Server
    requires HasRoom(s, k)
  {
    s.(rooms := s.rooms[s.current[k] := room])
  }

  /** `socket.broadcast.to(roomId)` */
  function Others(s: Server, k: Id): set<Id>
    requires k in s.current
  {
    set o | o in s.online && o != k && o in s.current && s.current[o] == s.current[k]
  }

  // ---------- handlers ----------

  function JoinRoom(s: Server, k: Id, userId: Id, r: Id): Server {
    s.(rooms := if r in s.rooms then s.rooms else s.rooms[r := Room({}, map[], map[])],
       peers := s.peers[k := Peer(userId, {}, {})],
       current := s.current[k := r],
       online := s.online + {k})
  }

  function CreateTransport(s: Server, k: Id, t: Id): Server
    requires HasRoom(s, k)
  {
    var room := RoomOf(s, k);
    WithRoom(s, k, room.(transports := room.transports + {t}))
  }

  predicate CanProduce(s: Server, k: Id, t: Id)
    requires HasRoom(s, k)
  {
    t in RoomOf(s, k).transports && k in s.peers
  }

  /** `p` is the id of the producer, if one is created. */
  function Produce(s: Server, k: Id, t: Id, p: Id): Server
    requires HasRoom(s, k)
  {
    if !CanProduce(s, k, t) then s
    else
      var room, peer := RoomOf(s, k), s.peers[k];
      WithRoom(s, k, room.(producers := room.producers[p := peer.userId]))
      .(peers := s.peers[k := peer.(producers := peer.producers + {p})])
  }

  predicate CanConsume(s: Server, k: Id, t: Id, p: Id)
    requires HasRoom(s, k)
  {
    t in RoomOf(s, k).transports && p in RoomOf(s, k).producers
  }

  /** `c` is the id of the consumer, if one is created. A socket without a peer gets it into the room before
      the handler fails. */
  function Consume(s: Server, k: Id, t: Id, p: Id, c: Id): Server
    requires HasRoom(s, k)
  {
    if !CanConsume(s, k, t, p) then s
    else
      var room := RoomOf(s, k);
      var filed := WithRoom(s, k, room.(consumers := room.consumers[c := p]));
      if k !in s.peers then filed
      else
        var peer := s.peers[k];
        filed.(peers := s.peers[k := peer.(consumers := peer.consumers + {c})])
  }

  function CloseProducer(s: Server, k: Id, p: Id): Server
    requires HasRoom(s, k)
  {
    var room := RoomOf(s, k);
    if p !in room.producers then s
    else
      var gone := set c | c in room.consumers && room.consumers[c] == p;
      WithRoom(s, k, room.(producers := room.producers - {p}, consumers := room.consumers - gone))
      .(closedProducers := s.closedProducers + {p}, closedConsumers := s.closedConsumers + gone)
  }

  /** Only the peer's own consumer is closed, but the id is dropped from the room whoever owns it. */
  function CloseConsumer(s: Server, k: Id, c: Id): Server
    requires HasRoom(s, k)
  {
    if k !in s.peers then s
    else
      var room, peer := RoomOf(s, k), s.peers[k];
      WithRoom(s, k, room.(consumers := room.consumers - {c}))
      .(peers := s.peers[k := peer.(consumers := peer.consumers - {c})],
        closedConsumers := s.closedConsumers + if c in peer.consumers then {c} else {})
  }

  function CloseClient(s: Server, k: Id): Server
    requires HasRoom(s, k)
  {
    if k !in s.peers then s
    else
      var room, peer := RoomOf(s, k), s.peers[k];
      WithRoom(s, k, room.(producers := room.producers - peer.producers, consumers := room.consumers - peer.consumers))
      .(peers := s.peers - {k}, online := s.online - {k},
        closedProducers := s.closedProducers + peer.producers,
        closedConsumers := s.closedConsumers + peer.consumers)
  }

  /** A socket that drops leaves the broadcast group and nothing else happens: `close` is no socket.io
      event, so no handler runs. */
  function Drop(s: Server, k: Id): Server {
    s.(online := s.online - {k})
  }

  // ---------- agreement of the two registries ----------

  predicate OwnsProducer(s: Server, k: Id, p: Id) {
    k in s.peers && p in s.peers[k].producers
  }

  predicate OwnsConsumer(s: Server, k: Id, c: Id) {
    k in s.peers && c in s.peers[k].consumers
  }

  predicate In(s: Server, k: Id, r: Id) {
    k in s.current && s.current[k] == r
  }

  predicate LiveIn(s: Server, r: Id, p: Id) {
    r in s.rooms && p in s.rooms[r].producers
  }

  /** A room's producer belongs to a peer of that room and carries the peer's user. */
  ghost predicate ProducersOwned(s: Server) {
    forall r, p :: LiveIn(s, r, p) ==>
      exists k :: OwnsProducer(s, k, p) && In(s, k, r) && s.peers[k].userId == s.rooms[r].producers[p]
  }

  ghost predicate ConsumersOwned(s: Server) {
    forall r, c :: r in s.rooms && c in s.rooms[r].consumers ==> exists k :: OwnsConsumer(s, k, c) && In(s, k, r)
  }

  /** A producer in a peer's map is open if and only if it is in the room's map. */
  ghost predicate OpenIffLive(s: Server) {
    forall k, r, p :: OwnsProducer(s, k, p) && In(s, k, r) ==> (p !in s.closedProducers <==> LiveIn(s, r, p))
  }

  ghost predicate OneOwner(s: Server) {
    && (forall k, l, p :: OwnsProducer(s, k, p) && OwnsProducer(s, l, p) ==> k == l)
    && (forall k, l, c :: OwnsConsumer(s, k, c) && OwnsConsumer(s, l, c) ==> k == l)
  }

  ghost predicate PeersHaveRooms(s: Server) {
    && (forall k :: k in s.peers ==> HasRoom(s, k))
    && (forall k :: k in s.current ==> HasRoom(s, k))
    && s.online <= s.peers.Keys
  }

  ghost predicate Agreement(s: Server) {
    PeersHaveRooms(s) && ProducersOwned(s) && ConsumersOwned(s) && OpenIffLive(s) && OneOwner(s)
  }

  /** An id the server has not handed out to a producer or consumer. */
  ghost predicate Fresh(s: Server, id: Id) {
    && id !in s.closedProducers && id !in s.closedConsumers
    && forall k :: k in s.peers ==> id !in s.peers[k].producers && id !in s.peers[k].consumers
  }

  lemma JoinRoomAgrees(s: Server, k: Id, userId: Id, r: Id)
    requires Agreement(s) && k !in s.current
    ensures Agreement(JoinRoom(s, k, userId, r))
  {
    var s' := JoinRoom(s, k, userId, r);
    assert k !in s.peers;
    JoinRoomOwned(s, k, userId, r);
    assert forall o, q :: o != k ==> In(s', o, q) == In(s, o, q);
    assert forall q, p :: LiveIn(s', q, p) == LiveIn(s, q, p);
    assert forall o, p :: OwnsProducer(s', o, p) ==> OwnsProducer(s, o, p);
    assert forall o, c :: OwnsConsumer(s', o, c) ==> OwnsConsumer(s, o, c);
  }

  lemma JoinRoomOwned(s: Server, k: Id, userId: Id, r: Id)
    requires Agreement(s) && k !in s.current
    ensures ProducersOwned(JoinRoom(s, k, userId, r)) && ConsumersOwned(JoinRoom(s, k, userId, r))
  {
    var s' := JoinRoom(s, k, userId, r);
    forall r0, p | LiveIn(s', r0, p)
      ensures exists o :: OwnsProducer(s', o, p) && In(s', o, r0) && s'.peers[o].userId == s'.rooms[r0].producers[p]
    {
      assert LiveIn(s, r0, p);
      var o :| OwnsProducer(s, o, p) && In(s, o, r0) && s.peers[o].userId == s.rooms[r0].producers[p];
      assert OwnsProducer(s', o, p);
    }
    forall r0, c | r0 in s'.rooms && c in s'.rooms[r0].consumers
      ensures exists o :: OwnsConsumer(s', o, c) && In(s', o, r0)
    {
      var o :| OwnsConsumer(s, o, c) && In(s, o, r0);
      assert OwnsConsumer(s', o, c);
    }
  }

  lemma CreateTransportAgrees(s: Server, k: Id, t: Id)
    requires Agreement(s) && HasRoom(s, k)
    ensures Agreement(CreateTransport(s, k, t))
  {
    var s' := CreateTransport(s, k, t);
    assert forall o, r :: In(s', o, r) == In(s, o, r);
    assert forall r, p :: LiveIn(s', r, p) ==> LiveIn(s, r, p);
    assert forall o, p :: OwnsProducer(s', o, p) == OwnsProducer(s, o, p);
    assert forall o, c :: OwnsConsumer(s', o, c) == OwnsConsumer(s, o, c);
  }

  lemma ProduceAgrees(s: Server, k: Id, t: Id, p: Id)
    requires Agreement(s) && HasRoom(s, k) && Fresh(s, p)
    ensures Agreement(Produce(s, k, t, p))
  {
    var s' := Produce(s, k, t, p);
    assert forall o, r :: In(s', o, r) == In(s, o, r);
    if CanProduce(s, k, t) {
      assert forall o, q :: OwnsProducer(s', o, q) <==> OwnsProducer(s, o, q) || (o == k && q == p);
      assert forall o, c :: OwnsConsumer(s', o, c) == OwnsConsumer(s, o, c);
      forall r, q | LiveIn(s', r, q)
        ensures exists o :: OwnsProducer(s', o, q) && In(s', o, r) && s'.peers[o].userId == s'.rooms[r].producers[q]
      {
        if r == s.current[k] && q == p {
          assert OwnsProducer(s', k, p);
        } else {
          assert LiveIn(s, r, q);
          var o :| OwnsProducer(s, o, q) && In(s, o, r) && s.peers[o].userId == s.rooms[r].producers[q];
          assert OwnsProducer(s', o, q);
        }
      }
      assert !LiveIn(s, s.current[k], p);
    }
  }

  lemma ConsumeAgrees(s: Server, k: Id, t: Id, p: Id, c: Id)
    requires Agreement(s) && HasRoom(s, k) && k in s.peers && Fresh(s, c)
    ensures Agreement(Consume(s, k, t, p, c))
  {
    var s' := Consume(s, k, t, p, c);
    assert forall o, r :: In(s', o, r) == In(s, o, r);
    if CanConsume(s, k, t, p) {
      assert forall o, q :: OwnsProducer(s', o, q) == OwnsProducer(s, o, q);
      assert forall o, d :: OwnsConsumer(s', o, d) <==> OwnsConsumer(s, o, d) || (o == k && d == c);
      assert forall r, q :: LiveIn(s', r, q) ==> LiveIn(s, r, q);
      forall r, d | r in s'.rooms && d in s'.rooms[r].consumers
        ensures exists o :: OwnsConsumer(s', o, d) && In(s', o, r)
      {
        if r == s.current[k] && d == c {
          assert OwnsConsumer(s', k, c);
        } else {
          assert d in s.rooms[r].consumers;
          var o :| OwnsConsumer(s, o, d) && In(s, o, r);
          assert OwnsConsumer(s', o, d);
        }
      }
    }
  }

  /** A socket without a peer breaks the agreement exactly when its consumer is created. */
  lemma ConsumeAgreesIff(s: Server, k: Id, t: Id, p: Id, c: Id)
    requires Agreement(s) && HasRoom(s, k) && Fresh(s, c)
    ensures Agreement(Consume(s, k, t, p, c)) <==> k in s.peers || !CanConsume(s, k, t, p)
  {
    var s' := Consume(s, k, t, p, c);
    if k in s.peers {
      ConsumeAgrees(s, k, t, p, c);
    } else if CanConsume(s, k, t, p) {
      assert c in s'.rooms[s.current[k]].consumers;
      assert forall o :: !OwnsConsumer(s', o, c);
    }
  }

  lemma CloseProducerAgrees(s: Server, k: Id, p: Id)
    requires Agreement(s) && HasRoom(s, k)
    ensures Agreement(CloseProducer(s, k, p))
  {
    var s' := CloseProducer(s, k, p);
    assert forall o, r :: In(s', o, r) == In(s, o, r);
    assert forall o, q :: OwnsProducer(s', o, q) == OwnsProducer(s, o, q);
    assert forall o, c :: OwnsConsumer(s', o, c) == OwnsConsumer(s, o, c);
    assert forall r, q :: LiveIn(s', r, q) ==> LiveIn(s, r, q);
    if p in RoomOf(s, k).producers {
      assert LiveIn(s, s.current[k], p);
      forall o, r, q | OwnsProducer(s', o, q) && In(s', o, r)
        ensures q !in s'.closedProducers <==> LiveIn(s', r, q)
      {
        if q == p {
          var l :| OwnsProducer(s, l, p) && In(s, l, s.current[k]);
          assert l == o;
        }
      }
    }
  }

  lemma CloseConsumerAgrees(s: Server, k: Id, c: Id)
    requires Agreement(s) && HasRoom(s, k)
    ensures Agreement(CloseConsumer(s, k, c))
  {
    var s' := CloseConsumer(s, k, c);
    assert forall o, r :: In(s', o, r) == In(s, o, r);
    assert forall o, q :: OwnsProducer(s', o, q) == OwnsProducer(s, o, q);
    assert forall o, d :: OwnsConsumer(s', o, d) ==> OwnsConsumer(s, o, d);
    assert forall r, q :: LiveIn(s', r, q) ==> LiveIn(s, r, q);
    forall r, d | r in s'.rooms && d in s'.rooms[r].consumers
      ensures exists o :: OwnsConsumer(s', o, d) && In(s', o, r)
    {
      assert d in s.rooms[r].consumers;
      var o :| OwnsConsumer(s, o, d) && In(s, o, r);
      assert OwnsConsumer(s', o, d);
    }
  }

  lemma CloseClientAgrees(s: Server, k: Id)
    requires Agreement(s) && HasRoom(s, k)
    ensures Agreement(CloseClient(s, k))
  {
    var s' := CloseClient(s, k);
    assert forall o, r :: In(s', o, r) == In(s, o, r);
    if k in s.peers {
      assert forall o, q :: OwnsProducer(s', o, q) <==> OwnsProducer(s, o, q) && o != k;
      assert forall o, d :: OwnsConsumer(s', o, d) <==> OwnsConsumer(s, o, d) && o != k;
      forall r, q | LiveIn(s', r, q)
        ensures exists o :: OwnsProducer(s', o, q) && In(s', o, r) && s'.peers[o].userId == s'.rooms[r].producers[q]
      {
        assert LiveIn(s, r, q);
        var o :| OwnsProducer(s, o, q) && In(s, o, r) && s.peers[o].userId == s.rooms[r].producers[q];
        assert o != k;
        assert OwnsProducer(s', o, q);
      }
      forall r, d | r in s'.rooms && d in s'.rooms[r].consumers
        ensures exists o :: OwnsConsumer(s', o, d) && In(s', o, r)
      {
        assert d in s.rooms[r].consumers;
        var o :| OwnsConsumer(s, o, d) && In(s, o, r);
        assert o != k;
        assert OwnsConsumer(s', o, d);
      }
      forall o, r, q | OwnsProducer(s', o, q) && In(s', o, r)
        ensures q !in s'.closedProducers <==> LiveIn(s', r, q)
      {
        assert !OwnsProducer(s, k, q);
      }
    }
  }

  lemma DropAgrees(s: Server, k: Id)
    requires Agreement(s)
    ensures Agreement(Drop(s, k))
  {
    var s' := Drop(s, k);
    assert forall o, r :: In(s', o, r) == In(s, o, r);
    assert forall o, q :: OwnsProducer(s', o, q) == OwnsProducer(s, o, q);
    assert forall o, d :: OwnsConsumer(s', o, d) == OwnsConsumer(s, o, d);
    assert forall r, q :: LiveIn(s', r, q) == LiveIn(s, r, q);
  }

  /** Each live producer is in exactly one peer's map and in exactly one room. */
  lemma LiveProducerHasOneHome(s: Server, r: Id, p: Id)
    requires Agreement(s) && LiveIn(s, r, p)
    ensures exists k :: OwnsProducer(s, k, p) && In(s, k, r) && forall l :: OwnsProducer(s, l, p) ==> l == k
    ensures forall q :: LiveIn(s, q, p) ==> q == r
    ensures p !in s.closedProducers
  {
    var k :| OwnsProducer(s, k, p) && In(s, k, r);
    forall q | LiveIn(s, q, p) ensures q == r {
      var l :| OwnsProducer(s, l, p) && In(s, l, q);
      assert l == k;
    }
  }

  /** Once a client is closed, no room holds any of its producers or consumers. */
  lemma CloseClientLeavesNothing(s: Server, k: Id)
    requires Agreement(s) && HasRoom(s, k) && k in s.peers
    ensures var s' := CloseClient(s, k);
            && k !in s'.peers
            && (forall r, p :: p in s.peers[k].producers ==> !LiveIn(s', r, p))
            && (forall r, c :: c in s.peers[k].consumers && r in s'.rooms ==> c !in s'.rooms[r].consumers)
            && s.peers[k].producers <= s'.closedProducers && s.peers[k].consumers <= s'.closedConsumers
  {
    var s' := CloseClient(s, k);
    forall r, p | p in s.peers[k].producers && LiveIn(s, r, p) ensures r == s.current[k] {
      assert OwnsProducer(s, k, p);
      var l :| OwnsProducer(s, l, p) && In(s, l, r);
      assert l == k;
    }
    forall r, c | c in s.peers[k].consumers && r in s.rooms && c in s.rooms[r].consumers ensures r == s.current[k] {
      assert OwnsConsumer(s, k, c);
      var l :| OwnsConsumer(s, l, c) && In(s, l, r);
      assert l == k;
    }
  }

  // ---------- runs ----------

  datatype Call =
    | CallJoin(k: Id, userId: Id, room: Id)
    | CallTransport(k: Id, transport: Id)
    | CallProduce(k: Id, transport: Id, producer: Id)
    | CallConsume(k: Id, transport: Id, producer: Id, consumer: Id)
    | CallCloseProducer(k: Id, producer: Id)
    | CallCloseConsumer(k: Id, consumer: Id)
    | CallCloseClient(k: Id)
    | CallDrop(k: Id)

  /** A socket joins once and before anything else, new ids are fresh, and a closed peer, whose socket the
      server disconnects, no longer consumes. */
  ghost predicate Allowed(s: Server, call: Call) {
    match call
    case CallJoin(k, _, _) => k !in s.current
    case CallProduce(k, _, p) => HasRoom(s, k) && Fresh(s, p)
    case CallConsume(k, _, _, c) => HasRoom(s, k) && k in s.peers && Fresh(s, c)
    case CallDrop(_) => true
    case _ => HasRoom(s, call.k)
  }

  ghost function Handle(s: Server, call: Call): Server
    requires Allowed(s, call)
  {
    match call
    case CallJoin(k, u, r) => JoinRoom(s, k, u, r)
    case CallTransport(k, t) => CreateTransport(s, k, t)
    case CallProduce(k, t, p) => Produce(s, k, t, p)
    case CallConsume(k, t, p, c) => Consume(s, k, t, p, c)
    case CallCloseProducer(k, p) => CloseProducer(s, k, p)
    case CallCloseConsumer(k, c) => CloseConsumer(s, k, c)
    case CallCloseClient(k) => CloseClient(s, k)
    case CallDrop(k) => Drop(s, k)
  }

  lemma HandleAgrees(s: Server, call: Call)
    requires Agreement(s) && Allowed(s, call)
    ensures Agreement(Handle(s, call))
  {
    match call
    case CallJoin(k, u, r) => JoinRoomAgrees(s, k, u, r);
    case CallTransport(k, t) => CreateTransportAgrees(s, k, t);
    case CallProduce(k, t, p) => ProduceAgrees(s, k, t, p);
    case CallConsume(k, t, p, c) => ConsumeAgrees(s, k, t, p, c);
    case CallCloseProducer(k, p) => CloseProducerAgrees(s, k, p);
    case CallCloseConsumer(k, c) => CloseConsumerAgrees(s, k, c);
    case CallCloseClient(k) => CloseClientAgrees(s, k);
    case CallDrop(k) => DropAgrees(s, k);
  }

  /** `states` is a run of the server: it starts empty and each state comes from the one before by an
      allowed handler call. */
  ghost predicate IsRun(states: seq<Server>, calls: seq<Call>) {
    && |states| == |calls| + 1 && states[0] == EMPTY_SERVER
    && forall i {:trigger calls[i]} :: 0 <= i < |calls| ==>
         Allowed(states[i], calls[i]) && states[i + 1] == Handle(states[i], calls[i])
  }

  /** The registries agree in every state of every run, whatever the clients ask for. */
  lemma {:induction false} RunAgrees(states: seq<Server>, calls: seq<Call>, i: nat)
    requires IsRun(states, calls) && i < |states|
    ensures Agreement(states[i])
  {
    if i > 0 {
      RunAgrees(states, calls, i - 1);
      HandleAgrees(states[i - 1], calls[i - 1]);
    }
  }

  // ---------- what the code leaves behind ----------

  predicate OpenConsumer(s: Server, k: Id, c: Id) {
    OwnsConsumer(s, k, c) && c !in s.closedConsumers
  }

  predicate Lists(s: Server, k: Id, c: Id) {
    HasRoom(s, k) && c in RoomOf(s, k).consumers
  }

  /** Every open consumer a peer owns is listed in its room. */
  ghost predicate OpenListed(s: Server) {
    forall k, c :: OpenConsumer(s, k, c) ==> Lists(s, k, c)
  }

  /** Somebody else in the room owns the consumer, which stays open. */
  ghost predicate ForeignAndOpen(s: Server, k: Id, c: Id)
    requires HasRoom(s, k)
  {
    k in s.peers && exists l :: l != k && In(s, l, s.current[k]) && OpenConsumer(s, l, c)
  }

  /** Closing a consumer drops the id from the room whoever owns it: an open consumer goes missing exactly
      when somebody else in the room owns it. */
  lemma CloseConsumerKeepsListedIff(s: Server, k: Id, c: Id)
    requires Agreement(s) && OpenListed(s) && HasRoom(s, k)
    ensures OpenListed(CloseConsumer(s, k, c)) <==> !ForeignAndOpen(s, k, c)
  {
    var s' := CloseConsumer(s, k, c);
    if ForeignAndOpen(s, k, c) {
      var l :| l != k && In(s, l, s.current[k]) && OpenConsumer(s, l, c);
      assert !OwnsConsumer(s, k, c);
      assert s'.current[l] == s'.current[k];
      assert OpenConsumer(s', l, c) && !Lists(s', l, c);
    } else if k in s.peers {
      forall l, d | OpenConsumer(s', l, d) ensures Lists(s', l, d) {
        assert OpenConsumer(s, l, d) && Lists(s, l, d);
      }
    }
  }

  lemma ConsumeKeepsListed(s: Server, k: Id, t: Id, p: Id, c: Id)
    requires Agreement(s) && OpenListed(s) && HasRoom(s, k) && k in s.peers && Fresh(s, c)
    ensures OpenListed(Consume(s, k, t, p, c))
  {
    var s' := Consume(s, k, t, p, c);
    forall l, d | OpenConsumer(s', l, d) ensures Lists(s', l, d) {
      if !(l == k && d == c) { assert OpenConsumer(s, l, d) && Lists(s, l, d); }
    }
  }

  lemma CloseProducerKeepsListed(s: Server, k: Id, p: Id)
    requires OpenListed(s) && HasRoom(s, k)
    ensures OpenListed(CloseProducer(s, k, p))
  {
    var s' := CloseProducer(s, k, p);
    forall l, d | OpenConsumer(s', l, d) ensures Lists(s', l, d) {
      assert OpenConsumer(s, l, d) && Lists(s, l, d);
    }
  }

  lemma CloseClientKeepsListed(s: Server, k: Id)
    requires Agreement(s) && OpenListed(s) && HasRoom(s, k)
    ensures OpenListed(CloseClient(s, k))
  {
    var s' := CloseClient(s, k);
    forall l, d | OpenConsumer(s', l, d) ensures Lists(s', l, d) {
      assert OpenConsumer(s, l, d) && Lists(s, l, d);
      if k in s.peers { assert !OwnsConsumer(s, k, d); }
    }
  }

  lemma OtherCallsKeepListed(s: Server, call: Call)
    requires Agreement(s) && OpenListed(s) && Allowed(s, call)
    requires call.CallJoin? || call.CallTransport? || call.CallProduce? || call.CallDrop?
    ensures OpenListed(Handle(s, call))
  {
    var s' := Handle(s, call);
    forall l, d | OpenConsumer(s', l, d) ensures Lists(s', l, d) {
      assert OpenConsumer(s, l, d) && Lists(s, l, d);
    }
  }

  /** No other handler does it: of all calls, only closing a foreign open consumer loses one. */
  lemma HandleKeepsListedIff(s: Server, call: Call)
    requires Agreement(s) && OpenListed(s) && Allowed(s, call)
    ensures OpenListed(Handle(s, call))
            <==> !(call.CallCloseConsumer? && ForeignAndOpen(s, call.k, call.consumer))
  {
    match call
    case CallConsume(k, t, p, c) => ConsumeKeepsListed(s, k, t, p, c);
    case CallCloseProducer(k, p) => CloseProducerKeepsListed(s, k, p);
    case CallCloseConsumer(k, c) => CloseConsumerKeepsListedIff(s, k, c);
    case CallCloseClient(k) => CloseClientKeepsListed(s, k);
    case _ => OtherCallsKeepListed(s, call);
  }

  // Socket 1 produces 30 in room 5, socket 2 consumes it as 40.
  const SAMPLE_ROOM := Room({20}, map[30 := 11], map[40 := 30])
  const SAMPLE_CONSUMING := Server(map[5 := SAMPLE_ROOM], map[1 := Peer(11, {30}, {}), 2 := Peer(12, {}, {40})],
                                   map[1 := 5, 2 := 5], {1, 2}, {}, {})

  const SAMPLE_ONE := Server(map[5 := Room({}, map[], map[])], map[1 := Peer(11, {}, {})], map[1 := 5], {1}, {}, {})
  const SAMPLE_TWO := SAMPLE_ONE.(peers := SAMPLE_ONE.peers[2 := Peer(12, {}, {})],
                                  current := SAMPLE_ONE.current[2 := 5], online := {1, 2})
  const SAMPLE_TRANSPORT := SAMPLE_TWO.(rooms := map[5 := Room({20}, map[], map[])])
  const SAMPLE_PRODUCING := SAMPLE_TRANSPORT.(rooms := map[5 := Room({20}, map[30 := 11], map[])],
                                              peers := SAMPLE_TWO.peers[1 := Peer(11, {30}, {})])

  lemma SampleJoins()
    ensures SAMPLE_ONE == JoinRoom(EMPTY_SERVER, 1, 11, 5) && SAMPLE_TWO == JoinRoom(SAMPLE_ONE, 2, 12, 5)
    ensures HasRoom(SAMPLE_TWO, 1) && SAMPLE_TRANSPORT == CreateTransport(SAMPLE_TWO, 1, 20)
  {
    assert {1} + {2} == {1, 2};
    assert {} + {20} == {20};
  }

  lemma SampleProduces()
    ensures HasRoom(SAMPLE_TRANSPORT, 1) && SAMPLE_PRODUCING == Produce(SAMPLE_TRANSPORT, 1, 20, 30)
  {
    assert {} + {30} == {30};
  }

  lemma SampleConsumes()
    ensures HasRoom(SAMPLE_PRODUCING, 2) && SAMPLE_CONSUMING == Consume(SAMPLE_PRODUCING, 2, 20, 30, 40)
  {
    assert {} + {40} == {40};
  }

  lemma ProducingIsReached() returns (states: seq<Server>, calls: seq<Call>)
    ensures IsRun(states, calls) && states[|calls|] == SAMPLE_PRODUCING
  {
    states := [EMPTY_SERVER, SAMPLE_ONE, SAMPLE_TWO, SAMPLE_TRANSPORT, SAMPLE_PRODUCING];
    calls := [CallJoin(1, 11, 5), CallJoin(2, 12, 5), CallTransport(1, 20), CallProduce(1, 20, 30)];
    SampleJoins();
    SampleProduces();
  }

  lemma ConsumingIsReached() returns (states: seq<Server>, calls: seq<Call>)
    ensures IsRun(states, calls) && states[|calls|] == SAMPLE_CONSUMING
  {
    states, calls := ProducingIsReached();
    SampleConsumes();
    var call := CallConsume(2, 20, 30, 40);
    RunExtends(states, calls, call);
    states, calls := states + [SAMPLE_CONSUMING], calls + [call];
  }

  /** A socket that is closed keeps its room but has no peer, and a consumer it asks for then is nobody's. */
  lemma ClosedSocketConsumes()
    ensures exists states, calls, k, t, p, c ::
              && IsRun(states, calls) && HasRoom(states[|calls|], k) && Fresh(states[|calls|], c)
              && Agreement(states[|calls|]) && !Agreement(Consume(states[|calls|], k, t, p, c))
  {
    var states, calls := ProducingIsReached();
    var call := CallCloseClient(2);
    RunExtends(states, calls, call);
    states, calls := states + [CloseClient(SAMPLE_PRODUCING, 2)], calls + [call];
    RunAgrees(states, calls, |calls|);
    ClosedIsBare(states[|calls|]);
    ConsumeAgreesIff(states[|calls|], 2, 20, 30, 40);
  }

  lemma ClosedIsBare(s: Server)
    requires s == CloseClient(SAMPLE_PRODUCING, 2)
    ensures HasRoom(s, 2) && 2 !in s.peers && CanConsume(s, 2, 20, 30) && Fresh(s, 40)
  {
  }

  lemma SampleLosesConsumer()
    ensures HasRoom(SAMPLE_CONSUMING, 1) && !OpenListed(CloseConsumer(SAMPLE_CONSUMING, 1, 40))
  {
    var s := CloseConsumer(SAMPLE_CONSUMING, 1, 40);
    assert OpenConsumer(s, 2, 40) && !Lists(s, 2, 40);
  }

  /** It does happen: 1 asks to close the consumer of 2. */
  lemma ForeignConsumerDropped()
    ensures exists states, calls :: IsRun(states, calls) && !OpenListed(states[|calls|])
  {
    var states, calls := ConsumingIsReached();
    SampleLosesConsumer();
    var call := CallCloseConsumer(1, 40);
    var s := CloseConsumer(SAMPLE_CONSUMING, 1, 40);
    RunExtends(states, calls, call);
    assert IsRun(states + [s], calls + [call]);
    assert (states + [s])[|calls + [call]|] == s;
  }

  lemma RunExtends(states: seq<Server>, calls: seq<Call>, call: Call)
    requires IsRun(states, calls) && Allowed(states[|calls|], call)
    ensures IsRun(states + [Handle(states[|calls|], call)], calls + [call])
  {
    var states', calls' := states + [Handle(states[|calls|], call)], calls + [call];
    forall i | 0 <= i < |calls'|
      ensures Allowed(states'[i], calls'[i]) && states'[i + 1] == Handle(states'[i], calls'[i])
    {
      if i < |calls| { assert calls'[i] == calls[i]; }
    }
  }

  /** A dropped socket only stops hearing: everything it produced is live in its room as before, its peer is
      still there, and nothing is closed. */
  lemma DropLeavesEverything(s: Server, k: Id)
    requires Agreement(s)
    ensures var s' := Drop(s, k);
            && (forall l, p :: OwnsProducer(s', l, p) <==> OwnsProducer(s, l, p))
            && (forall r, p :: LiveIn(s', r, p) <==> LiveIn(s, r, p))
            && (forall l, c :: OpenConsumer(s', l, c) <==> OpenConsumer(s, l, c))
            && (forall p :: OwnsProducer(s, k, p) && p !in s.closedProducers ==> LiveIn(s', s.current[k], p))
            && (forall l :: l in s.current ==> k !in Others(s', l))
  {
    forall p | OwnsProducer(s, k, p) && p !in s.closedProducers ensures LiveIn(Drop(s, k), s.current[k], p) {
      assert In(s, k, s.current[k]);
    }
  }
}
