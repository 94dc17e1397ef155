/** The client's event handlers: each changes the media store and emits requests as the protocol says. */
module SfuClient {
  import opened Common
  import opened SfuProtocol

  class PeerConnectionManager {
    const socket: Id
    const room: Id
    /** Whether the media device is loaded, and the channel it was loaded for. */
    var device: bool
    var channelId: Option<Id>
    var store: Client
    var emitted: multiset<Request>
    /** The consumers the server has been asked to resume, in order. */
    var resumed: seq<Id>

    constructor (socket: Id, userId: Id, room: Id)
      ensures this.socket == socket && this.room == room && emitted == multiset{JoinRoomReq(socket)}
      ensures store == Client(userId, room, true, None, None, {}, map[]) && !device && Valid()
    {
      this.socket, this.room := socket, room;
      device, channelId, resumed := false, None, [];
      store := Client(userId, room, true, None, None, {}, map[]);
      emitted := multiset{JoinRoomReq(socket)};
    }

    /** There is a receive transport only once the device is loaded. */
    ghost predicate Valid()
      reads this
    {
      (store.recv.Some? ==> device) && (device ==> channelId.Some?)
    }

    /** The handler did to the store, and emitted, what the protocol's reaction to the event is. */
    twostate predicate Reacted(ev: Event, pick: Id)
      reads this
    {
      && Valid()
      && store == React(old(store), ev, pick).0
      && emitted == old(emitted) + React(old(store), ev, pick).1
    }

    method OnRoomJoined()
      requires Valid()
      modifies this
      ensures Reacted(RoomJoined(socket), 0) && device && resumed == old(resumed)
      ensures emitted == old(emitted) + multiset{CreateTransportReq(socket, false), CreateTransportReq(socket, true)}
    {
      device, channelId := true, Some(room);
      emitted := emitted + multiset{CreateTransportReq(socket, false)};
      emitted := emitted + multiset{CreateTransportReq(socket, true)};
    }

    /** Transports are asked for once the device is there; without it the answer is ignored. */
    method OnCreateRecvTransport(transport: Id)
      requires Valid()
      modifies this
      ensures device == old(device) && resumed == old(resumed)
      ensures old(device) ==> Reacted(TransportCreated(socket, true, transport), 0)
      ensures old(device) ==>
                store.recv == Some(transport) && emitted == old(emitted) + multiset{GetProducersReq(socket)}
      ensures !old(device) ==> Valid() && store == old(store) && emitted == old(emitted)
    {
      if !device { return; }
      store := store.(recv := Some(transport));
      if channelId.Some? {
        emitted := emitted + multiset{GetProducersReq(socket)};
      }
    }

    method CreateConsumer(producer: Id, userId: Id)
      requires Valid()
      modifies this`emitted
      ensures emitted == old(emitted) + WantConsumers(store, socket, map[producer := userId])
    {
      if !device || store.recv.None? { return; }
      ghost var wanted := set p | p in map[producer := userId] && map[producer := userId][p] != store.userId ::
                            CreateConsumerReq(socket, store.recv.value, p);
      if userId != store.userId {
        assert wanted == {CreateConsumerReq(socket, store.recv.value, producer)};
        emitted := emitted + multiset{CreateConsumerReq(socket, store.recv.value, producer)};
      } else {
        assert wanted == {};
      }
    }

    method OnProducerJoined(producer: Id, userId: Id)
      requires Valid()
      modifies this`emitted
      ensures Reacted(ProducerJoined(socket, producer, userId), 0)
    {
      CreateConsumer(producer, userId);
    }

    /** One `createConsumer` per listed producer. */
    method OnGetChannelProducers(producers: map<Id, Id>)
      requires Valid()
      modifies this`emitted
      ensures Reacted(ProducerList(socket, producers), 0)
    {
      var rest := producers.Keys;
      ghost var asked: map<Id, Id> := map[];
      assert WantConsumers(store, socket, asked) == multiset{};
      while rest != {}
        invariant rest <= producers.Keys && asked == producers - rest
        invariant emitted == old(emitted) + WantConsumers(store, socket, asked)
        decreases rest
      {
        var p :| p in rest;
        rest := rest - {p};
        CreateConsumer(p, producers[p]);
        AskedOneMore(store, socket, asked, p, producers[p]);
        asked := asked[p := producers[p]];
      }
      assert asked == producers;
    }

    /** A consumer that is not of a shared screen is resumed at once. */
    method OnConsumerCreated(consumer: Id, producer: Id, screen: bool)
      requires Valid()
      modifies this
      ensures Reacted(ConsumerCreated(socket, consumer, producer), 0) && device == old(device)
      ensures old(store).recv.Some? ==> consumer in store.consumers && store.consumers[consumer] == producer
      ensures resumed == old(resumed) + if old(store).recv.Some? && !screen then [consumer] else []
    {
      if store.recv.None? { return; }
      if !screen { resumed := resumed + [consumer]; }
      store := store.(consumers := store.consumers[consumer := producer]);
    }

    /** The first consumer found for the closed producer goes; there may be more. */
    method HandleCloseProducer(producer: Id) returns (ghost pick: Id)
      requires Valid()
      modifies this`store, this`emitted
      ensures Reacted(ProducerClosed(socket, producer), pick)
      ensures producer in old(store).consumers.Values ==>
                && pick in old(store).consumers && old(store).consumers[pick] == producer
                && store.consumers == old(store).consumers - {pick}
                && emitted == old(emitted) + multiset{CloseConsumerReq(socket, pick)}
      ensures producer !in old(store).consumers.Values ==> store == old(store) && emitted == old(emitted)
    {
      pick := 0;
      var rest := store.consumers.Keys;
      while rest != {}
        invariant rest <= store.consumers.Keys && store == old(store) && emitted == old(emitted)
        invariant forall c :: c in store.consumers && c !in rest ==> store.consumers[c] != producer
        decreases rest
      {
        var c :| c in rest;
        if store.consumers[c] == producer {
          pick := c;
          store := store.(consumers := store.consumers - {c});
          emitted := emitted + multiset{CloseConsumerReq(socket, c)};
          return;
        }
        rest := rest - {c};
      }
    }
  }

  lemma AskedSets(cl: Client, k: Id, t: Id, asked: map<Id, Id>, p: Id, u: Id)
    requires p !in asked
    ensures var xs := set q | q in asked && asked[q] != cl.userId :: CreateConsumerReq(k, t, q);
            var one := set q | q in map[p := u] && map[p := u][q] != cl.userId :: CreateConsumerReq(k, t, q);
            var ys := set q | q in asked[p := u] && asked[p := u][q] != cl.userId :: CreateConsumerReq(k, t, q);
            ys == xs + one && xs !! one
  {
    var more := asked[p := u];
    var xs := set q | q in asked && asked[q] != cl.userId :: CreateConsumerReq(k, t, q);
    var ys := set q | q in more && more[q] != cl.userId :: CreateConsumerReq(k, t, q);
    var one := set q | q in map[p := u] && map[p := u][q] != cl.userId :: CreateConsumerReq(k, t, q);
    forall r ensures r in ys <==> r in xs || r in one {
      if r in xs { assert r.producer in more && more[r.producer] == asked[r.producer]; }
      if r in one { assert r.producer == p && p in more; }
    }
  }

  /** Asking for the producers of a map one at a time asks for all of them. */
  lemma AskedOneMore(cl: Client, k: Id, asked: map<Id, Id>, p: Id, u: Id)
    requires p !in asked
    ensures WantConsumers(cl, k, asked[p := u]) == WantConsumers(cl, k, asked) + WantConsumers(cl, k, map[p := u])
  {
    if cl.recv.Some? { AskedSets(cl, k, cl.recv.value, asked, p, u); }
  }
}
