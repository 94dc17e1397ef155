/** In every run of the SFU and its clients, no live producer of another user is missed: it is requested,
    announced, being consumed, or consumed; and once nothing is in flight, it is consumed. */
module SfuCoverage {
  import opened Common
  import opened SfuRegistry
  import opened SfuProtocol

  // ---------- consumers stay fed ----------

  /** Nothing new to hold and nothing newly live for the sockets that stay active, and no consumer of a
      live producer cut off. */
  lemma WiredFrame(w: World, w': World)
    requires Wired(w)
    requires forall k, c, p :: Active(w', k) && Holds(w', k, c, p) && LiveIn(w'.server, w'.clients[k].room, p) ==>
               && Active(w, k) && Holds(w, k, c, p) && w.clients[k].room == w'.clients[k].room
               && LiveIn(w.server, w.clients[k].room, p)
               && (Feeds(w.server, k, c) ==> Feeds(w'.server, k, c))
    ensures Wired(w')
  {
  }

  lemma JoinWired(w: World, k: Id)
    requires PeersHaveRooms(w.server) && Wired(w) && k in w.clients && k !in w.server.current
    ensures Wired(ServeJoin(w, k))
  {
    var w' := ServeJoin(w, k);
    assert forall o, c, p :: Holds(w', o, c, p) == Holds(w, o, c, p);
    assert forall r, p :: LiveIn(w'.server, r, p) ==> LiveIn(w.server, r, p);
    WiredFrame(w, w');
  }

  lemma TransportWired(w: World, k: Id, recv: bool)
    requires Wired(w) && HasRoom(w.server, k)
    ensures Wired(ServeTransport(w, k, recv))
  {
    var w' := ServeTransport(w, k, recv);
    assert forall o, c, p :: Holds(w', o, c, p) == Holds(w, o, c, p);
    assert forall r, p :: LiveIn(w'.server, r, p) ==> LiveIn(w.server, r, p);
    WiredFrame(w, w');
  }

  lemma ProduceWired(w: World, k: Id, t: Id)
    requires Issued(w) && ConsumersKnown(w) && Wired(w) && HasRoom(w.server, k)
    ensures Wired(ServeProduce(w, k, t))
  {
    var w' := ServeProduce(w, k, t);
    assert forall o, c, p :: Holds(w', o, c, p) == Holds(w, o, c, p);
    assert forall o, c, p :: Holds(w, o, c, p) ==> For(w, c, p);
    assert forall r, p :: LiveIn(w'.server, r, p) ==> LiveIn(w.server, r, p) || p == w.next;
    WiredFrame(w, w');
  }

  lemma ProducersWired(w: World, k: Id)
    requires Wired(w) && HasRoom(w.server, k)
    ensures Wired(ServeProducers(w, k))
  {
    var w' := ServeProducers(w, k);
    assert forall o, c, p :: Holds(w', o, c, p) == Holds(w, o, c, p);
    WiredFrame(w, w');
  }

  lemma ConsumeWired(w: World, k: Id, t: Id, p: Id)
    requires Issued(w) && Messages(w) && Wired(w) && HasRoom(w.server, k) && k in w.server.peers
    ensures Wired(ServeConsume(w, k, t, p))
  {
    var w' := ServeConsume(w, k, t, p);
    if CanConsume(w.server, k, t, p) {
      forall o, c, q | Active(w', o) && Holds(w', o, c, q) && LiveIn(w'.server, w'.clients[o].room, q)
        ensures Feeds(w'.server, o, c)
      {
        if !(o == k && c == w.next) { assert Holds(w, o, c, q) && LiveIn(w.server, w.clients[o].room, q); }
      }
    }
  }

  lemma CloseProducerWired(w: World, k: Id, p: Id)
    requires Agreement(w.server) && Messages(w) && Wired(w) && HasRoom(w.server, k)
    ensures Wired(ServeCloseProducer(w, k, p))
  {
    var w' := ServeCloseProducer(w, k, p);
    if p in RoomOf(w.server, k).producers {
      LiveProducerHasOneHome(w.server, w.server.current[k], p);
      assert forall o, c, q :: Holds(w', o, c, q) == Holds(w, o, c, q);
      assert forall o, c, q :: Holds(w, o, c, q) ==> For(w, c, q);
      assert forall r, q :: LiveIn(w'.server, r, q) ==> LiveIn(w.server, r, q) && q != p;
      WiredFrame(w, w');
    }
  }

  lemma CloseConsumerWired(w: World, k: Id, c: Id)
    requires Messages(w) && Wired(w) && HasRoom(w.server, k)
    requires c in w.consumed && Dead(w, w.consumed[c])
    ensures Wired(ServeCloseConsumer(w, k, c))
  {
    var w' := ServeCloseConsumer(w, k, c);
    assert forall o, d, q :: Holds(w', o, d, q) == Holds(w, o, d, q);
    assert forall o, d, q :: Holds(w, o, d, q) ==> For(w, d, q);
    assert forall r, q :: LiveIn(w'.server, r, q) ==> LiveIn(w.server, r, q);
    WiredFrame(w, w');
  }

  lemma CloseClientWired(w: World, k: Id)
    requires Agreement(w.server) && Wired(w) && HasRoom(w.server, k) && k in w.clients && !w.clients[k].active
    ensures Wired(ServeCloseClient(w, k))
  {
    var w' := ServeCloseClient(w, k);
    if k in w.server.peers {
      assert forall o, d, q :: Holds(w', o, d, q) == Holds(w, o, d, q);
      assert forall r, q :: LiveIn(w'.server, r, q) ==> LiveIn(w.server, r, q);
      assert forall o, d :: o != k && OwnsConsumer(w.server, o, d) ==> !OwnsConsumer(w.server, k, d);
      WiredFrame(w, w');
    }
  }

  /** Whatever consumer a client holds after an event it held, or was about to hold, before. */
  lemma DeliverHolds(w: World, ev: Event, pick: Id, k: Id, c: Id, p: Id)
    requires PeersHaveRooms(w.server) && Enabled(w, Deliver(ev, pick))
    requires Active(Next(w, Deliver(ev, pick)), k) && Holds(Next(w, Deliver(ev, pick)), k, c, p)
    ensures Active(w, k) && Holds(w, k, c, p) && w.clients[k].room == Next(w, Deliver(ev, pick)).clients[k].room
  {
    if ConsumerCreated(k, c, p) in Next(w, Deliver(ev, pick)).events {
      assert ConsumerCreated(k, c, p) in w.events;
    }
  }

  lemma DeliverWired(w: World, ev: Event, pick: Id)
    requires PeersHaveRooms(w.server) && Wired(w) && Enabled(w, Deliver(ev, pick))
    ensures Wired(Next(w, Deliver(ev, pick)))
  {
    var w' := Next(w, Deliver(ev, pick));
    assert w'.server == w.server;
    forall k, c, p | Active(w', k) && Holds(w', k, c, p) && LiveIn(w'.server, w'.clients[k].room, p)
      ensures Feeds(w'.server, k, c)
    {
      DeliverHolds(w, ev, pick, k, c, p);
    }
  }

  // ---------- nobody is missed ----------

  /** Events that cover a need. */
  predicate Answers(ev: Event) {
    ev.ProducerList? || ev.ProducerJoined? || ev.ConsumerCreated?
  }

  /** What covers socket k's needs in w still does in w'. */
  ghost predicate Keeps(w: World, w': World, k: Id) {
    && k in w.clients && k in w'.clients
    && w'.clients[k].recv == w.clients[k].recv && w'.clients[k].userId == w.clients[k].userId
    && w'.clients[k].consumers == w.clients[k].consumers
    && (forall ev :: ev in w.events && ev.socket == k && Answers(ev) ==> ev in w'.events)
    && (forall req :: req in w.requests && req.socket == k && (req.GetProducersReq? || req.CreateConsumerReq?) ==>
          req in w'.requests)
  }

  lemma CoveredStays(w: World, w': World, k: Id, p: Id)
    requires Keeps(w, w', k) && w.clients[k].recv.Some? && Covered(w, k, p)
    ensures Covered(w', k, p)
  {
    var me := w.clients[k].userId;
    if Told(w, k, p, me) {
      var ev :| ev in w.events && Tells(ev, k, p, me);
      assert ev in w'.events;
    } else if Answered(w, k, p) {
      var c :| ConsumerCreated(k, c, p) in w.events;
      assert ConsumerCreated(k, c, p) in w'.events;
    } else if Consumes(w, k, p) {
      var c :| c in w.clients[k].consumers && w.clients[k].consumers[c] == p;
      assert c in w'.clients[k].consumers;
    }
  }

  lemma ServeCoverage(w: World, req: Request)
    requires PeersHaveRooms(w.server) && Seated(w) && Transports(w) && Coverage(w) && Enabled(w, Serve(req))
    ensures Coverage(Next(w, Serve(req)))
  {
    forall o, p | Needs(Next(w, Serve(req)), o, p) ensures Covered(Next(w, Serve(req)), o, p) {
      ServeCovers(w, req, o, p);
    }
  }

  lemma ServeCovers(w: World, req: Request, o: Id, p: Id)
    requires PeersHaveRooms(w.server) && Seated(w) && Transports(w) && Coverage(w) && Enabled(w, Serve(req))
    requires Needs(Next(w, Serve(req)), o, p)
    ensures Covered(Next(w, Serve(req)), o, p)
  {
    var w1 := w.(requests := w.requests - multiset{req});
    HandledGrows(w1, req);
    if req == GetProducersReq(o) {
      SnapshotCovers(w, o, p);
    } else if req == CreateConsumerReq(o, w.clients[o].recv.value, p) {
      ConsumerCovers(w, o, p);
    } else if req.CreateProducerReq? && p == w.next && !Needs(w, o, p) {
      AnnouncementCovers(w1, req.socket, req.transport, o);
    } else {
      if !Needs(w, o, p) { HandledMakesNoneLive(w1, req, w.clients[o].room, p); }
      assert Covered(w, o, p);
      ServeKeeps(w, Next(w, Serve(req)), req, o, p);
    }
  }

  /** Serving only adds events, and leaves clients and the other requests alone. */
  ghost predicate Grows(w: World, w': World) {
    w'.clients == w.clients && w'.requests == w.requests && w.events <= w'.events
  }

  lemma ProduceGrows(w: World, k: Id, t: Id)
    requires HasRoom(w.server, k)
    ensures Grows(w, ServeProduce(w, k, t))
  {
  }

  lemma CloseProducerGrows(w: World, k: Id, p: Id)
    requires HasRoom(w.server, k)
    ensures Grows(w, ServeCloseProducer(w, k, p))
  {
  }

  lemma CloseClientGrows(w: World, k: Id)
    requires HasRoom(w.server, k)
    ensures Grows(w, ServeCloseClient(w, k))
  {
  }

  lemma HandledGrows(w: World, req: Request)
    requires if req.JoinRoomReq? then req.socket in w.clients
             else HasRoom(w.server, req.socket) && req.socket in w.server.peers
    ensures Grows(w, Handled(w, req))
  {
    match req
    case JoinRoomReq(k) =>
    case CreateTransportReq(k, recv) =>
    case CreateProducerReq(k, t) => ProduceGrows(w, k, t);
    case GetProducersReq(k) =>
    case CreateConsumerReq(k, t, p) =>
    case CloseProducerReq(k, p) => CloseProducerGrows(w, k, p);
    case CloseConsumerReq(k, c) =>
    case CloseClientReq(k) => CloseClientGrows(w, k);
  }

  /** The producer was live before, under the same user. */
  ghost predicate WasLive(s: Server, s': Server, r: Id, p: Id) {
    LiveIn(s', r, p) ==> LiveIn(s, r, p) && s.rooms[r].producers[p] == s'.rooms[r].producers[p]
  }

  lemma JoinMakesNoneLive(s: Server, k: Id, u: Id, r0: Id, r: Id, p: Id)
    ensures WasLive(s, JoinRoom(s, k, u, r0), r, p)
  {
  }

  lemma ProduceMakesOneLive(s: Server, k: Id, t: Id, q: Id, r: Id, p: Id)
    requires HasRoom(s, k) && p != q
    ensures WasLive(s, Produce(s, k, t, q), r, p)
  {
  }

  lemma ConsumeMakesNoneLive(s: Server, k: Id, t: Id, q: Id, c: Id, r: Id, p: Id)
    requires HasRoom(s, k)
    ensures WasLive(s, Consume(s, k, t, q, c), r, p)
  {
  }

  lemma CloseMakesNoneLive(s: Server, k: Id, q: Id, r: Id, p: Id)
    requires HasRoom(s, k)
    ensures WasLive(s, CloseProducer(s, k, q), r, p) && WasLive(s, CloseConsumer(s, k, q), r, p)
    ensures WasLive(s, CloseClient(s, k), r, p) && WasLive(s, CreateTransport(s, k, q), r, p)
  {
  }

  /** Only producing makes a producer live, and users of producers do not change. */
  lemma HandledMakesNoneLive(w: World, req: Request, r: Id, p: Id)
    requires if req.JoinRoomReq? then req.socket in w.clients
             else HasRoom(w.server, req.socket) && req.socket in w.server.peers
    requires !(req.CreateProducerReq? && p == w.next)
    ensures WasLive(w.server, Handled(w, req).server, r, p)
  {
    match req
    case JoinRoomReq(k) => JoinMakesNoneLive(w.server, k, w.clients[k].userId, w.clients[k].room, r, p);
    case CreateTransportReq(k, recv) => CloseMakesNoneLive(w.server, k, w.next, r, p);
    case CreateProducerReq(k, t) => ProduceMakesOneLive(w.server, k, t, w.next, r, p);
    case GetProducersReq(k) =>
    case CreateConsumerReq(k, t, q) => ConsumeMakesNoneLive(w.server, k, t, q, w.next, r, p);
    case CloseProducerReq(k, q) => CloseMakesNoneLive(w.server, k, q, r, p);
    case CloseConsumerReq(k, c) => CloseMakesNoneLive(w.server, k, c, r, p);
    case CloseClientReq(k) => CloseMakesNoneLive(w.server, k, w.next, r, p);
  }

  /** A request other than the two that answer a need leaves what covers it in place. */
  lemma ServeKeeps(w: World, w': World, req: Request, k: Id, p: Id)
    requires k in w.clients && w.clients[k].recv.Some? && Covered(w, k, p)
    requires req !in {GetProducersReq(k), CreateConsumerReq(k, w.clients[k].recv.value, p)}
    requires w'.clients == w.clients && w'.requests == w.requests - multiset{req} && w.events <= w'.events
    ensures Covered(w', k, p)
  {
    var me := w.clients[k].userId;
    if Told(w, k, p, me) {
      var ev :| ev in w.events && Tells(ev, k, p, me);
      assert ev in w'.events;
    } else if Answered(w, k, p) {
      var c :| ConsumerCreated(k, c, p) in w.events;
      assert ConsumerCreated(k, c, p) in w'.events;
    } else if Consumes(w, k, p) {
      var c :| c in w.clients[k].consumers && w.clients[k].consumers[c] == p;
      assert c in w'.clients[k].consumers;
    }
  }

  /** The snapshot lists every producer of the room. */
  lemma SnapshotCovers(w: World, k: Id, p: Id)
    requires PeersHaveRooms(w.server) && Seated(w) && Enabled(w, Serve(GetProducersReq(k)))
    requires Needs(Next(w, Serve(GetProducersReq(k))), k, p)
    ensures Covered(Next(w, Serve(GetProducersReq(k))), k, p)
  {
    var w' := Next(w, Serve(GetProducersReq(k)));
    var ev := ProducerList(k, RoomOf(w.server, k).producers);
    assert ev in w'.events && Tells(ev, k, p, w'.clients[k].userId);
  }

  /** A consume request for a live producer on the client's transport succeeds. */
  lemma ConsumerCovers(w: World, k: Id, p: Id)
    requires PeersHaveRooms(w.server) && Seated(w) && Transports(w) && k in w.clients && w.clients[k].recv.Some?
    requires Enabled(w, Serve(CreateConsumerReq(k, w.clients[k].recv.value, p)))
    requires Needs(Next(w, Serve(CreateConsumerReq(k, w.clients[k].recv.value, p))), k, p)
    ensures Covered(Next(w, Serve(CreateConsumerReq(k, w.clients[k].recv.value, p))), k, p)
  {
    var t := w.clients[k].recv.value;
    var w' := Next(w, Serve(CreateConsumerReq(k, t, p)));
    assert LiveIn(w.server, w.clients[k].room, p);
    assert CanConsume(w.server, k, t, p);
    assert ConsumerCreated(k, w.next, p) in w'.events;
  }

  /** A new producer is announced to everyone else in the room. */
  lemma AnnouncementCovers(w: World, k: Id, t: Id, o: Id)
    requires PeersHaveRooms(w.server) && Seated(w) && Transports(w) && HasRoom(w.server, k) && k in w.server.peers
    requires Needs(ServeProduce(w, k, t), o, w.next) && !Needs(w, o, w.next)
    ensures Covered(ServeProduce(w, k, t), o, w.next)
  {
    var w' := ServeProduce(w, k, t);
    assert o in Others(w.server, k);
    var ev := ProducerJoined(o, w.next, w.server.peers[k].userId);
    assert ev in w'.events && Tells(ev, o, w.next, w'.clients[o].userId);
  }

  lemma DeliverCoverage(w: World, ev: Event, pick: Id)
    requires PeersHaveRooms(w.server) && ClosuresAreDead(w) && ConsumersKnown(w) && Coverage(w)
        && Enabled(w, Deliver(ev, pick))
    ensures Coverage(Next(w, Deliver(ev, pick)))
  {
    var w' := Next(w, Deliver(ev, pick));
    forall k, p | Needs(w', k, p) ensures Covered(w', k, p) {
      if k != ev.socket {
        assert Needs(w, k, p);
        assert Keeps(w, w', k) by { assert forall e :: e in w.events && e != ev ==> e in w'.events; }
        CoveredStays(w, w', k, p);
      } else if ev.TransportCreated? && ev.recv {
        assert GetProducersReq(k) in w'.requests;
      } else {
        assert Needs(w, k, p);
        ReactCovers(w, ev, pick, p);
      }
    }
  }

  /** Being told makes the client ask. */
  lemma ToldClientAsks(cl: Client, ev: Event, pick: Id, p: Id)
    requires cl.recv.Some? && Tells(ev, ev.socket, p, cl.userId)
    ensures CreateConsumerReq(ev.socket, cl.recv.value, p) in React(cl, ev, pick).1
  {
    var told := if ev.ProducerList? then ev.producers else map[ev.producer := ev.userId];
    assert CreateConsumerReq(ev.socket, cl.recv.value, p) in WantConsumers(cl, ev.socket, told);
  }

  /** The client turns being told into a consume request, and an answer into a consumer. */
  lemma ReactCovers(w: World, ev: Event, pick: Id, p: Id)
    requires PeersHaveRooms(w.server) && ClosuresAreDead(w) && ConsumersKnown(w) && Coverage(w)
        && Enabled(w, Deliver(ev, pick))
    requires Needs(w, ev.socket, p) && !(ev.TransportCreated? && ev.recv)
    ensures Covered(Next(w, Deliver(ev, pick)), ev.socket, p)
  {
    var w', k := Next(w, Deliver(ev, pick)), ev.socket;
    var cl := w.clients[k];
    if Tells(ev, k, p, cl.userId) {
      ToldClientAsks(cl, ev, pick, p);
    } else if ev.ConsumerCreated? && ev.producer == p {
      assert ev.consumer in w'.clients[k].consumers && w'.clients[k].consumers[ev.consumer] == p;
    } else {
      assert Covered(w, k, p);
      OtherEventsKeep(w, ev, pick, p);
    }
  }

  lemma OtherEventsKeep(w: World, ev: Event, pick: Id, p: Id)
    requires PeersHaveRooms(w.server) && ClosuresAreDead(w) && ConsumersKnown(w) && Enabled(w, Deliver(ev, pick))
    requires Needs(w, ev.socket, p) && !(ev.TransportCreated? && ev.recv) && Covered(w, ev.socket, p)
    requires !Tells(ev, ev.socket, p, w.clients[ev.socket].userId) && !(ev.ConsumerCreated? && ev.producer == p)
    ensures Covered(Next(w, Deliver(ev, pick)), ev.socket, p)
  {
    var w', k := Next(w, Deliver(ev, pick)), ev.socket;
    var cl := w.clients[k];
    ReactKeepsConsumer(w, ev, pick, p);
    assert w'.requests == w.requests + React(cl, ev, pick).1 && w'.events == w.events - multiset{ev};
    if Told(w, k, p, cl.userId) {
      var e :| e in w.events && Tells(e, k, p, cl.userId);
      assert e in w'.events;
    } else if Answered(w, k, p) {
      var c :| ConsumerCreated(k, c, p) in w.events;
      assert ConsumerCreated(k, c, p) in w'.events;
    }
  }

  /** Handling an event never takes the consumer of a live producer away. */
  lemma ReactKeepsConsumer(w: World, ev: Event, pick: Id, p: Id)
    requires ClosuresAreDead(w) && ConsumersKnown(w) && ev in w.events && Needs(w, ev.socket, p)
    ensures Consumes(w, ev.socket, p) ==>
              exists c :: c in React(w.clients[ev.socket], ev, pick).0.consumers
                          && React(w.clients[ev.socket], ev, pick).0.consumers[c] == p
  {
    var cl := w.clients[ev.socket];
    if Consumes(w, ev.socket, p) {
      var c :| c in cl.consumers && cl.consumers[c] == p;
      if ev.ProducerClosed? { assert Dead(w, ev.producer); }
      if ev.ConsumerCreated? { assert For(w, ev.consumer, ev.producer) && For(w, c, p); }
      var cl' := React(cl, ev, pick).0;
      assert c in cl'.consumers && cl'.consumers[c] == p;
    }
  }

  // ---------- steps that start at a client ----------

  /** Steps that take nothing out of the bags and change no live socket's store. */
  lemma CoverageFrame(w: World, w': World)
    requires Coverage(w)
    requires forall k, p :: Needs(w', k, p) ==> Needs(w, k, p) && Keeps(w, w', k)
    ensures Coverage(w')
  {
    forall k, p | Needs(w', k, p) ensures Covered(w', k, p) {
      assert Needs(w, k, p) && Covered(w, k, p);
      CoveredStays(w, w', k, p);
    }
  }

  lemma ConnectKeepsInv(w: World, u: Id, r: Id)
    requires Inv(w)
    ensures Inv(NewClient(w, u, r))
  {
    var w' := NewClient(w, u, r);
    ConnectRecords(w, u, r);
    ConnectMessages(w, u, r);
    ConnectWired(w, u, r);
    ConnectCoverage(w, u, r);
  }

  lemma ConnectWired(w: World, u: Id, r: Id)
    requires Issued(w) && ConsumersKnown(w) && Wired(w)
    ensures Wired(NewClient(w, u, r))
  {
    var w' := NewClient(w, u, r);
    assert forall k, c, p :: Holds(w', k, c, p) ==> Holds(w, k, c, p) && k in w.clients;
    WiredFrame(w, w');
  }

  lemma ConnectCoverage(w: World, u: Id, r: Id)
    requires Issued(w) && Coverage(w)
    ensures Coverage(NewClient(w, u, r))
  {
    CoverageFrame(w, NewClient(w, u, r));
  }

  /** A client that sends requests and may stop being active. */
  lemma ClientStepKeepsInv(w: World, k: Id, cl: Client, reqs: multiset<Request>)
    requires Inv(w) && k in w.clients
    requires cl == w.clients[k].(active := cl.active, producers := cl.producers) && (cl.active ==> w.clients[k].active)
    requires forall r :: r in reqs ==>
               r.CreateProducerReq? || r.CloseProducerReq? || (r == CloseClientReq(k) && !cl.active)
    ensures Inv(WithClient(w, k, cl, reqs))
  {
    ClientRecords(w, k, cl, reqs);
    ClientMessages(w, k, cl, reqs);
    ClientStepWired(w, k, cl, reqs);
    ClientStepCoverage(w, k, cl, reqs);
  }

  lemma ClientStepWired(w: World, k: Id, cl: Client, reqs: multiset<Request>)
    requires Wired(w) && k in w.clients
    requires cl == w.clients[k].(active := cl.active, producers := cl.producers) && (cl.active ==> w.clients[k].active)
    ensures Wired(WithClient(w, k, cl, reqs))
  {
    WiredFrame(w, WithClient(w, k, cl, reqs));
  }

  lemma ClientStepCoverage(w: World, k: Id, cl: Client, reqs: multiset<Request>)
    requires Coverage(w) && k in w.clients
    requires cl == w.clients[k].(active := cl.active, producers := cl.producers) && (cl.active ==> w.clients[k].active)
    ensures Coverage(WithClient(w, k, cl, reqs))
  {
    CoverageFrame(w, WithClient(w, k, cl, reqs));
  }

  lemma LoseKeepsInv(w: World, k: Id)
    requires Inv(w) && k in w.clients && !w.clients[k].active
    ensures Inv(w.(server := Drop(w.server, k)))
  {
    var w' := w.(server := Drop(w.server, k));
    DropAgrees(w.server, k);
    LoseRecords(w, k);
    LoseMessages(w, k);
    DropWired(w, k);
    DropCoverage(w, k);
  }

  lemma DropCoverage(w: World, k: Id)
    requires Coverage(w)
    ensures Coverage(w.(server := Drop(w.server, k)))
  {
    var w' := w.(server := Drop(w.server, k));
    assert forall o, p :: Needs(w', o, p) ==> Needs(w, o, p);
    CoverageFrame(w, w');
  }

  lemma DropWired(w: World, k: Id)
    requires Wired(w)
    ensures Wired(w.(server := Drop(w.server, k)))
  {
    var w' := w.(server := Drop(w.server, k));
    assert forall r, p :: LiveIn(w'.server, r, p) == LiveIn(w.server, r, p);
    assert forall o, c :: Feeds(w.server, o, c) ==> Feeds(w'.server, o, c);
    WiredFrame(w, w');
  }

  // ---------- serving and delivering ----------

  lemma NextIsFresh(w: World)
    requires Issued(w)
    ensures Fresh(w.server, w.next)
  {
    forall k | k in w.server.peers
      ensures w.next !in w.server.peers[k].producers && w.next !in w.server.peers[k].consumers
    {
      assert w.next in w.server.peers[k].producers ==> OwnsProducer(w.server, k, w.next);
      assert w.next in w.server.peers[k].consumers ==> OwnsConsumer(w.server, k, w.next);
    }
  }

  /** What serving a request takes for granted once the request has left the bag. */
  ghost predicate Servable(w: World, req: Request) {
    && (if req.JoinRoomReq?
        then Active(w, req.socket) && req.socket !in w.server.current && req !in w.requests
        else HasRoom(w.server, req.socket) && req.socket in w.server.peers)
    && (req.CloseConsumerReq? ==> req.consumer in w.consumed && Dead(w, w.consumed[req.consumer]))
    && (req.CloseClientReq? ==> req.socket in w.clients && !w.clients[req.socket].active)
  }

  lemma HandledAgrees(w: World, req: Request)
    requires Servable(w, req) && Agreement(w.server) && Issued(w)
    ensures Agreement(Handled(w, req).server)
  {
    match req
    case JoinRoomReq(k) => JoinRoomAgrees(w.server, k, w.clients[k].userId, w.clients[k].room);
    case CreateTransportReq(k, recv) => CreateTransportAgrees(w.server, k, w.next);
    case CreateProducerReq(k, t) => NextIsFresh(w); ProduceAgrees(w.server, k, t, w.next);
    case GetProducersReq(k) =>
    case CreateConsumerReq(k, t, p) => NextIsFresh(w); ConsumeAgrees(w.server, k, t, p, w.next);
    case CloseProducerReq(k, p) => CloseProducerAgrees(w.server, k, p);
    case CloseConsumerReq(k, c) => CloseConsumerAgrees(w.server, k, c);
    case CloseClientReq(k) => CloseClientAgrees(w.server, k);
  }

  lemma HandledIssued(w: World, req: Request)
    requires Servable(w, req) && PeersHaveRooms(w.server) && Issued(w) && LiveIssued(w)
    ensures Issued(Handled(w, req))
  {
    match req
    case JoinRoomReq(k) => JoinIssued(w, k);
    case CreateTransportReq(k, recv) => TransportIssued(w, k, recv);
    case CreateProducerReq(k, t) => ProduceIssued(w, k, t);
    case GetProducersReq(k) => ProducersIssued(w, k);
    case CreateConsumerReq(k, t, p) => ConsumeIssued(w, k, t, p);
    case CloseProducerReq(k, p) => CloseProducerIssued(w, k, p);
    case CloseConsumerReq(k, c) => CloseConsumerIssued(w, k, c);
    case CloseClientReq(k) => CloseClientIssued(w, k);
  }

  lemma HandledSeated(w: World, req: Request)
    requires Servable(w, req) && PeersHaveRooms(w.server) && Seated(w)
    ensures PeersHaveRooms(Handled(w, req).server) && Seated(Handled(w, req))
  {
    match req
    case JoinRoomReq(k) => JoinSeated(w, k);
    case CreateTransportReq(k, recv) => TransportSeated(w, k, recv);
    case CreateProducerReq(k, t) => ProduceSeated(w, k, t);
    case GetProducersReq(k) => ProducersSeated(w, k);
    case CreateConsumerReq(k, t, p) => ConsumeSeated(w, k, t, p);
    case CloseProducerReq(k, p) => CloseProducerSeated(w, k, p);
    case CloseConsumerReq(k, c) => CloseConsumerSeated(w, k, c);
    case CloseClientReq(k) => CloseClientSeated(w, k);
  }

  lemma HandledJoinsOnce(w: World, req: Request)
    requires Servable(w, req) && JoinsOnce(w)
    ensures JoinsOnce(Handled(w, req))
  {
    match req
    case JoinRoomReq(k) => JoinJoinsOnce(w, k);
    case CreateTransportReq(k, recv) => TransportJoinsOnce(w, k, recv);
    case CreateProducerReq(k, t) => ProduceJoinsOnce(w, k, t);
    case GetProducersReq(k) => ProducersJoinsOnce(w, k);
    case CreateConsumerReq(k, t, p) => ConsumeJoinsOnce(w, k, t, p);
    case CloseProducerReq(k, p) => CloseProducerJoinsOnce(w, k, p);
    case CloseConsumerReq(k, c) => CloseConsumerJoinsOnce(w, k, c);
    case CloseClientReq(k) => CloseClientJoinsOnce(w, k);
  }

  lemma HandledMessages(w: World, req: Request)
    requires Servable(w, req) && Agreement(w.server) && Records(w) && Messages(w)
    ensures Messages(Handled(w, req))
  {
    if req.CloseProducerReq? || req.CloseConsumerReq? || req.CloseClientReq? {
      ClosingMessages(w, req);
    } else {
      OpeningMessages(w, req);
    }
  }

  lemma OpeningMessages(w: World, req: Request)
    requires Servable(w, req) && Agreement(w.server) && Records(w) && Messages(w)
    requires !req.CloseProducerReq? && !req.CloseConsumerReq? && !req.CloseClientReq?
    ensures Messages(Handled(w, req))
  {
    match req
    case JoinRoomReq(k) => JoinMessages(w, k);
    case CreateTransportReq(k, recv) => TransportMessages(w, k, recv);
    case CreateProducerReq(k, t) => ProduceMessages(w, k, t);
    case GetProducersReq(k) => ProducersMessages(w, k);
    case CreateConsumerReq(k, t, p) => ConsumeMessages(w, k, t, p);
  }

  lemma ClosingMessages(w: World, req: Request)
    requires Servable(w, req) && Agreement(w.server) && Records(w) && Messages(w)
    requires req.CloseProducerReq? || req.CloseConsumerReq? || req.CloseClientReq?
    ensures Messages(Handled(w, req))
  {
    match req
    case CloseProducerReq(k, p) => CloseProducerMessages(w, k, p);
    case CloseConsumerReq(k, c) => CloseConsumerMessages(w, k, c);
    case CloseClientReq(k) => CloseClientMessages(w, k);
  }

  lemma HandledWired(w: World, req: Request)
    requires Servable(w, req) && Agreement(w.server) && Records(w) && Messages(w) && Wired(w)
    ensures Wired(Handled(w, req))
  {
    match req
    case JoinRoomReq(k) => JoinWired(w, k);
    case CreateTransportReq(k, recv) => TransportWired(w, k, recv);
    case CreateProducerReq(k, t) => ProduceWired(w, k, t);
    case GetProducersReq(k) => ProducersWired(w, k);
    case CreateConsumerReq(k, t, p) => ConsumeWired(w, k, t, p);
    case CloseProducerReq(k, p) => CloseProducerWired(w, k, p);
    case CloseConsumerReq(k, c) => CloseConsumerWired(w, k, c);
    case CloseClientReq(k) => CloseClientWired(w, k);
  }

  lemma ServeKeepsInv(w: World, req: Request)
    requires Inv(w) && Enabled(w, Serve(req))
    ensures Inv(Next(w, Serve(req)))
  {
    var w1 := w.(requests := w.requests - multiset{req});
    LessRecords(w, req);
    LessMessages(w, w1);
    assert Wired(w1) by {
      assert forall k, c, p :: Holds(w1, k, c, p) == Holds(w, k, c, p);
      WiredFrame(w, w1);
    }
    assert req.CloseConsumerReq? ==> Dead(w, w.consumed[req.consumer]);
    assert Servable(w1, req);
    LiveIdsIssued(w1);
    HandledAgrees(w1, req);
    HandledIssued(w1, req);
    HandledSeated(w1, req);
    HandledJoinsOnce(w1, req);
    HandledMessages(w1, req);
    HandledWired(w1, req);
    ServeCoverage(w, req);
  }

  /** Reacting never joins or leaves, and keeps the client's identity. */
  lemma ReactKeepsIdentity(cl: Client, ev: Event, pick: Id)
    ensures var (cl', reqs) := React(cl, ev, pick);
            && cl'.userId == cl.userId && cl'.room == cl.room && cl'.active == cl.active
            && forall r :: r in reqs ==> !r.JoinRoomReq? && !r.CloseClientReq?
  {
  }

  lemma ReactionRecords(w: World, ev: Event, pick: Id)
    requires Records(w) && ev.socket in w.clients
    ensures Records(Reaction(w, ev, pick))
  {
    var (cl, reqs) := React(w.clients[ev.socket], ev, pick);
    ReactKeepsIdentity(w.clients[ev.socket], ev, pick);
    ClientRecords(w, ev.socket, cl, reqs);
  }

  lemma TakenEventIsSafe(w: World, ev: Event)
    requires Messages(w) && ev in w.events
    ensures Messages(w.(events := w.events - multiset{ev})) && Safe(w.(events := w.events - multiset{ev}), ev)
  {
    LessMessages(w, w.(events := w.events - multiset{ev}));
    assert Safe(w, ev);
  }

  lemma DeliverKeepsInv(w: World, ev: Event, pick: Id)
    requires Inv(w) && Enabled(w, Deliver(ev, pick))
    ensures Inv(Next(w, Deliver(ev, pick)))
  {
    var w1 := w.(events := w.events - multiset{ev});
    TakenEventIsSafe(w, ev);
    assert Records(w1);
    if Active(w, ev.socket) {
      ReactionRecords(w1, ev, pick);
      ReactMessages(w1, ev, pick);
    }
    DeliverWired(w, ev, pick);
    DeliverCoverage(w, ev, pick);
  }

  lemma StepKeepsInv(w: World, a: Action)
    requires Inv(w) && Enabled(w, a)
    ensures Inv(Next(w, a))
  {
    match a
    case Connect(u, r) => ConnectKeepsInv(w, u, r);
    case Serve(req) => ServeKeepsInv(w, req);
    case Deliver(ev, pick) => DeliverKeepsInv(w, ev, pick);
    case ProduceTrack(k) =>
      ClientStepKeepsInv(w, k, w.clients[k], multiset{CreateProducerReq(k, w.clients[k].send.value)});
    case StopTrack(k, p) =>
      var cl := w.clients[k].(producers := w.clients[k].producers - {p});
      ClientStepKeepsInv(w, k, cl, multiset{CloseProducerReq(k, p)});
    case Leave(k) =>
      ClientStepKeepsInv(w, k, w.clients[k].(active := false), multiset{CloseClientReq(k)});
    case Lose(k) =>
      var w1 := WithClient(w, k, w.clients[k].(active := false), multiset{});
      ClientStepKeepsInv(w, k, w.clients[k].(active := false), multiset{});
      LoseKeepsInv(w1, k);
  }

  // ---------- runs ----------

  /** A run: it starts with nobody connected, and each world follows from the one before by a step.
      PeersHaveRooms, which RunInv shows never fails, only makes Next well defined here. */
  ghost predicate IsRun(worlds: seq<World>, actions: seq<Action>) {
    && |worlds| == |actions| + 1 && worlds[0] == EMPTY_WORLD
    && forall i {:trigger actions[i]} :: 0 <= i < |actions| ==>
         && PeersHaveRooms(worlds[i].server) && Enabled(worlds[i], actions[i])
         && worlds[i + 1] == Next(worlds[i], actions[i])
  }

  lemma EmptyWorldInv()
    ensures Inv(EMPTY_WORLD)
  {
    assert Agreement(EMPTY_SERVER);
  }

  lemma {:induction false} RunInv(worlds: seq<World>, actions: seq<Action>, i: nat)
    requires IsRun(worlds, actions) && i < |worlds|
    ensures Inv(worlds[i])
  {
    if i == 0 {
      EmptyWorldInv();
    } else {
      RunInv(worlds, actions, i - 1);
      StepKeepsInv(worlds[i - 1], actions[i - 1]);
    }
  }

  /** The main result, at every moment of every run: a live producer of another user, in the room of a
      connected client with a receive transport, is on its way to that client or already consumed. */
  lemma NoProducerMissed(worlds: seq<World>, actions: seq<Action>, i: nat, k: Id, p: Id)
    requires IsRun(worlds, actions) && i < |worlds| && Needs(worlds[i], k, p)
    ensures Covered(worlds[i], k, p)
  {
    RunInv(worlds, actions, i);
  }

  ghost predicate Quiet(w: World, k: Id) {
    (forall req :: req in w.requests ==> req.socket != k) && (forall ev :: ev in w.events ==> ev.socket != k)
  }

  /** Once nothing is in flight for the client, it has a consumer for the producer, and the server feeds it. */
  lemma QuietClientConsumesAll(worlds: seq<World>, actions: seq<Action>, i: nat, k: Id, p: Id)
    requires IsRun(worlds, actions) && i < |worlds| && Needs(worlds[i], k, p) && Quiet(worlds[i], k)
    ensures exists c :: && c in worlds[i].clients[k].consumers && worlds[i].clients[k].consumers[c] == p
                        && Feeds(worlds[i].server, k, c)
  {
    var w := worlds[i];
    RunInv(worlds, actions, i);
    assert Covered(w, k, p);
    var c :| c in w.clients[k].consumers && w.clients[k].consumers[c] == p;
    assert Holds(w, k, c, p);
  }
}
