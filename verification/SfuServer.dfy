/** The SFU's socket handlers over their two registries. */
module SfuServer {
  import opened Common
  import opened SfuRegistry

  class Sfu {
    var rooms: map<Id, Room>
    var peers: map<Id, Peer>
    var current: map<Id, Id>
    var online: set<Id>
    var closedProducers: set<Id>
    var closedConsumers: set<Id>

    ghost function State(): Server
      reads this
    {
      Server(rooms, peers, current, online, closedProducers, closedConsumers)
    }

    constructor ()
      ensures State() == EMPTY_SERVER
    {
      rooms, peers, current, online := map[], map[], map[], {};
      closedProducers, closedConsumers := {}, {};
    }

    /** Everyone else in the socket's room. */
    method Broadcast(k: Id) returns (recipients: set<Id>)
      requires k in current
      ensures recipients == Others(State(), k)
    {
      recipients := set o | o in online && o != k && o in current && current[o] == current[k];
    }

    method HandleJoinRoom(k: Id, userId: Id, roomId: Id)
      modifies this
      ensures State() == JoinRoom(old(State()), k, userId, roomId)
    {
      current := current[k := roomId];
      online := online + {k};
      if roomId !in rooms {
        rooms := rooms[roomId := Room({}, map[], map[])];
      }
      peers := peers[k := Peer(userId, {}, {})];
    }

    method HandleCreateTransport(k: Id, transport: Id)
      requires HasRoom(State(), k)
      modifies this
      ensures State() == CreateTransport(old(State()), k, transport)
    {
      var room := rooms[current[k]];
      rooms := rooms[current[k] := room.(transports := room.transports + {transport})];
    }

    /** `id` is the producer's id on success; `joined` are the sockets told about it. */
    method HandleProduce(k: Id, transport: Id, producer: Id) returns (id: Option<Id>, joined: set<Id>)
      requires HasRoom(State(), k)
      modifies this
      ensures State() == Produce(old(State()), k, transport, producer)
      ensures id == if CanProduce(old(State()), k, transport) then Some(producer) else None
      ensures joined == if id.Some? then Others(old(State()), k) else {}
    {
      var room := rooms[current[k]];
      if transport !in room.transports || k !in peers { return None, {}; }
      var peer := peers[k];
      rooms := rooms[current[k] := room.(producers := room.producers[producer := peer.userId])];
      peers := peers[k := peer.(producers := peer.producers + {producer})];
      joined := Broadcast(k);
      id := Some(producer);
    }

    /** `fails` is the exception for a socket without a peer, thrown after the room has the consumer. */
    method HandleConsume(k: Id, transport: Id, producer: Id, consumer: Id) returns (id: Option<Id>, fails: bool)
      requires HasRoom(State(), k)
      modifies this
      ensures State() == Consume(old(State()), k, transport, producer, consumer)
      ensures fails == (k !in old(peers) && CanConsume(old(State()), k, transport, producer))
      ensures id == if CanConsume(old(State()), k, transport, producer) && !fails then Some(consumer) else None
    {
      var room := rooms[current[k]];
      if transport !in room.transports || producer !in room.producers { return None, false; }
      rooms := rooms[current[k] := room.(consumers := room.consumers[consumer := producer])];
      if k !in peers { return None, true; }
      var peer := peers[k];
      peers := peers[k := peer.(consumers := peer.consumers + {consumer})];
      return Some(consumer), false;
    }

    /** The snapshot: each live producer of the room, with the user who produces it. */
    method GetProducers(k: Id) returns (producers: map<Id, Id>)
      requires HasRoom(State(), k)
      ensures forall p :: p in producers <==> LiveIn(State(), current[k], p)
      ensures forall p :: p in producers ==>
                LiveIn(State(), current[k], p) && producers[p] == RoomOf(State(), k).producers[p]
      ensures Agreement(State()) ==>
                forall p, o :: p in producers && o in peers && p in peers[o].producers ==>
                    producers[p] == peers[o].userId
    {
      var room := rooms[current[k]];
      producers := map[];
      var rest := room.producers.Keys;
      while rest != {}
        invariant rest <= room.producers.Keys && producers == room.producers - rest
        decreases rest
      {
        var p :| p in rest;
        producers := producers[p := room.producers[p]];
        rest := rest - {p};
      }
      if Agreement(State()) {
        forall p, o | p in producers && o in peers && p in peers[o].producers ensures producers[p] == peers[o].userId {
          assert OwnsProducer(State(), o, p);
          assert LiveIn(State(), current[k], p);
        }
      }
    }

    /** Producers are deleted from the room, closed and announced one by one, then the consumers. `told` are
        the sockets each closure goes to. */
    method HandleCloseClient(k: Id) returns (announced: set<Id>, told: set<Id>)
      requires HasRoom(State(), k)
      modifies this
      ensures State() == CloseClient(old(State()), k)
      ensures announced == if k in old(peers) then old(peers)[k].producers else {}
      ensures told == if k in old(peers) then Others(old(State()), k) else {}
      ensures k !in peers && (k in old(peers) ==> k !in online)
      ensures k in old(peers) ==>
                && old(peers)[k].producers <= closedProducers && old(peers)[k].consumers <= closedConsumers
                && old(peers)[k].producers !! rooms[current[k]].producers.Keys
                && old(peers)[k].consumers !! rooms[current[k]].consumers.Keys
    {
      announced, told := {}, {};
      if k !in peers { return; }
      var room, peer := rooms[current[k]], peers[k];
      told := Broadcast(k);
      var producers, consumers := room.producers, room.consumers;
      var pending := peer.producers;
      while pending != {}
        invariant pending <= peer.producers && announced == peer.producers - pending
        invariant producers == room.producers - announced
        invariant State() == old(State()).(closedProducers := old(closedProducers) + announced)
        decreases pending
      {
        var p :| p in pending;
        pending := pending - {p};
        producers := producers - {p};
        closedProducers := closedProducers + {p};
        announced := announced + {p};
      }
      assert announced == peer.producers;
      ghost var closed := closedProducers;
      var waiting := peer.consumers;
      while waiting != {}
        invariant waiting <= peer.consumers
        invariant consumers == room.consumers - (peer.consumers - waiting)
        invariant State() == old(State()).(closedProducers := closed,
                                           closedConsumers := old(closedConsumers) + (peer.consumers - waiting))
        decreases waiting
      {
        var c :| c in waiting;
        waiting := waiting - {c};
        consumers := consumers - {c};
        closedConsumers := closedConsumers + {c};
      }
      assert peer.consumers - waiting == peer.consumers;
      rooms := rooms[current[k] := room.(producers := producers, consumers := consumers)];
      peers := peers - {k};
      online := online - {k};
    }

    /** Every consumer of the producer in the room is closed and dropped before the producer is; `told` are
        the sockets the closure goes to. */
    method HandleCloseProducer(k: Id, producer: Id) returns (told: set<Id>)
      requires HasRoom(State(), k)
      modifies this
      ensures State() == CloseProducer(old(State()), k, producer)
      ensures told == if producer in RoomOf(old(State()), k).producers then Others(old(State()), k) else {}
      ensures producer in RoomOf(old(State()), k).producers ==>
                && producer in closedProducers && producer !in rooms[current[k]].producers
                && forall c :: c in RoomOf(old(State()), k).consumers ==>
                     if RoomOf(old(State()), k).consumers[c] == producer
                     then c in closedConsumers && c !in rooms[current[k]].consumers
                     else c in rooms[current[k]].consumers && (c in closedConsumers <==> c in old(closedConsumers))
    {
      var room := rooms[current[k]];
      if producer !in room.producers { return {}; }
      var targets := set c | c in room.consumers && room.consumers[c] == producer;
      var consumers, pending := room.consumers, targets;
      while pending != {}
        invariant pending <= targets && consumers == room.consumers - (targets - pending)
        invariant State() == old(State()).(closedConsumers := old(closedConsumers) + (targets - pending))
        decreases pending
      {
        var c :| c in pending;
        closedConsumers := closedConsumers + {c};
        consumers := consumers - {c};
        pending := pending - {c};
      }
      assert targets - pending == targets;
      closedProducers := closedProducers + {producer};
      rooms := rooms[current[k] := room.(producers := room.producers - {producer}, consumers := consumers)];
      told := Broadcast(k);
    }

    method HandleCloseConsumer(k: Id, consumer: Id)
      requires HasRoom(State(), k)
      modifies this
      ensures State() == CloseConsumer(old(State()), k, consumer)
      ensures k in old(peers) ==>
                && k in peers && consumer !in peers[k].consumers && consumer !in rooms[current[k]].consumers
                && (consumer in closedConsumers <==> consumer in old(closedConsumers) + old(peers)[k].consumers)
    {
      if k !in peers { return; }
      var room, peer := rooms[current[k]], peers[k];
      if consumer in peer.consumers { closedConsumers := closedConsumers + {consumer}; }
      peers := peers[k := peer.(consumers := peer.consumers - {consumer})];
      rooms := rooms[current[k] := room.(consumers := room.consumers - {consumer})];
    }
  }
}
