/** What passes between the SFU and its clients: which events each request brings about and which requests each
    event prompts, one by one, and where that leads when a producer is closed. */
module SfuExchange {
  import opened Common
  import opened SfuRegistry
  import opened SfuProtocol
  import opened SfuLifecycle
  import opened SfuCoverage

  // ---------- events of the server ----------

  /** Serving the request sends the event. News goes to the others of the room only. */
  predicate Sends(w: World, req: Request, ev: Event)
    requires if req.JoinRoomReq? then req.socket in w.clients
             else HasRoom(w.server, req.socket) && req.socket in w.server.peers
  {
    var k := req.socket;
    match req
    case JoinRoomReq(_) => ev == RoomJoined(k)
    case CreateTransportReq(_, recv) => ev == TransportCreated(k, recv, w.next)
    case CreateProducerReq(_, t) =>
      t in RoomOf(w.server, k).transports
      && (ev == ProducerCreated(k, w.next)
          || (ev.ProducerJoined? && ev.producer == w.next && ev.userId == w.server.peers[k].userId
              && IsOther(w.server, k, ev.socket)))
    case GetProducersReq(_) => ev == ProducerList(k, RoomOf(w.server, k).producers)
    case CreateConsumerReq(_, t, p) =>
      t in RoomOf(w.server, k).transports && p in RoomOf(w.server, k).producers && ev == ConsumerCreated(k, w.next, p)
    case CloseProducerReq(_, p) =>
      p in RoomOf(w.server, k).producers && ev.ProducerClosed? && ev.producer == p && IsOther(w.server, k, ev.socket)
    case CloseConsumerReq(_, _) => false
    case CloseClientReq(_) =>
      ev.ProducerClosed? && OwnsProducer(w.server, k, ev.producer) && IsOther(w.server, k, ev.socket)
  }

  predicate IsOther(s: Server, k: Id, o: Id) {
    o != k && o in s.online && k in s.current && In(s, o, s.current[k])
  }

  lemma ProduceSends(w: World, k: Id, t: Id, ev: Event)
    requires HasRoom(w.server, k) && k in w.server.peers
    ensures ServeProduce(w, k, t).events[ev]
            == w.events[ev] + if Sends(w, CreateProducerReq(k, t), ev) then 1 else 0
  {
  }

  lemma CloseProducerSends(w: World, k: Id, p: Id, ev: Event)
    requires HasRoom(w.server, k) && k in w.server.peers
    ensures ServeCloseProducer(w, k, p).events[ev]
            == w.events[ev] + if Sends(w, CloseProducerReq(k, p), ev) then 1 else 0
  {
  }

  lemma CloseClientSends(w: World, k: Id, ev: Event)
    requires HasRoom(w.server, k) && k in w.server.peers
    ensures ServeCloseClient(w, k).events[ev] == w.events[ev] + if Sends(w, CloseClientReq(k), ev) then 1 else 0
  {
  }

  /** Serving a request sends each event it is to send once, and no other. */
  lemma ServeSends(w: World, req: Request, ev: Event)
    requires if req.JoinRoomReq? then req.socket in w.clients
             else HasRoom(w.server, req.socket) && req.socket in w.server.peers
    ensures Handled(w, req).events[ev] == w.events[ev] + if Sends(w, req, ev) then 1 else 0
  {
    match req
    case CreateProducerReq(k, t) => ProduceSends(w, k, t, ev);
    case CloseProducerReq(k, p) => CloseProducerSends(w, k, p, ev);
    case CloseClientReq(k) => CloseClientSends(w, k, ev);
    case _ =>
  }

  /** The handler a request runs, new ids being the next ones. */
  function CallOf(w: World, req: Request): Call
    requires !req.GetProducersReq? && (req.JoinRoomReq? ==> req.socket in w.clients)
  {
    match req
    case JoinRoomReq(k) => CallJoin(k, w.clients[k].userId, w.clients[k].room)
    case CreateTransportReq(k, _) => CallTransport(k, w.next)
    case CreateProducerReq(k, t) => CallProduce(k, t, w.next)
    case CreateConsumerReq(k, t, p) => CallConsume(k, t, p, w.next)
    case CloseProducerReq(k, p) => CallCloseProducer(k, p)
    case CloseConsumerReq(k, c) => CallCloseConsumer(k, c)
    case CloseClientReq(k) => CallCloseClient(k)
  }

  /** Serving changes the registries as that handler does; a snapshot changes nothing. */
  lemma ServeHandles(w: World, req: Request)
    requires Servable(w, req) && Agreement(w.server) && Issued(w)
    ensures req.GetProducersReq? ==> Handled(w, req).server == w.server
    ensures !req.GetProducersReq? ==>
              Allowed(w.server, CallOf(w, req)) && Handled(w, req).server == Handle(w.server, CallOf(w, req))
  {
    NextIsFresh(w);
  }

  // ---------- requests of the client ----------

  /** The event makes its client send the request. */
  predicate Prompts(cl: Client, ev: Event, pick: Id, req: Request) {
    var k := ev.socket;
    match ev
    case RoomJoined(_) => req.CreateTransportReq? && req.socket == k
    case TransportCreated(_, recv, _) => recv && req == GetProducersReq(k)
    case ProducerCreated(_, _) => false
    case ProducerList(_, producers) =>
      req.CreateConsumerReq? && req.socket == k && cl.recv == Some(req.transport)
      && req.producer in producers && producers[req.producer] != cl.userId
    case ProducerJoined(_, p, u) =>
      req.CreateConsumerReq? && req.socket == k && cl.recv == Some(req.transport) && req.producer == p && u != cl.userId
    case ConsumerCreated(_, _, _) => false
    case ProducerClosed(_, p) => req == CloseConsumerReq(k, pick) && pick in cl.consumers && cl.consumers[pick] == p
  }

  /** An event prompts each of those requests once, and no other. */
  lemma ReactionPrompts(cl: Client, ev: Event, pick: Id, req: Request)
    ensures React(cl, ev, pick).1[req] == if Prompts(cl, ev, pick, req) then 1 else 0
  {
  }

  /** What the client remembers: its transports, its own producers, and a consumer for as long as its producer has
      not been closed on it. */
  lemma ReactionRemembers(cl: Client, ev: Event, pick: Id, p: Id, c: Id)
    ensures var cl' := React(cl, ev, pick).0;
            && cl'.send == (if ev.TransportCreated? && !ev.recv then Some(ev.transport) else cl.send)
            && cl'.recv == (if ev.TransportCreated? && ev.recv then Some(ev.transport) else cl.recv)
            && (p in cl'.producers <==> p in cl.producers || (ev.ProducerCreated? && ev.producer == p))
    ensures var cl' := React(cl, ev, pick).0;
            var gone := ev.ProducerClosed? && pick == c && c in cl.consumers && cl.consumers[c] == ev.producer;
            var new' := ev.ConsumerCreated? && ev.consumer == c && cl.recv.Some?;
            && (c in cl'.consumers <==> new' || (c in cl.consumers && !gone))
            && (c in cl'.consumers ==>
                  cl'.consumers[c] == if new' || c !in cl.consumers then ev.producer else cl.consumers[c])
  {
  }

  // ---------- both bags ----------

  /** The step puts the request on its way. */
  ghost predicate Asks(w: World, a: Action, req: Request) {
    match a
    case Connect(_, _) => req == JoinRoomReq(w.next)
    case Serve(_) => false
    case Deliver(ev, pick) => Active(w, ev.socket) && Prompts(w.clients[ev.socket], ev, pick, req)
    case ProduceTrack(k) =>
      Active(w, k) && w.clients[k].send.Some? && req == CreateProducerReq(k, w.clients[k].send.value)
    case StopTrack(k, p) => req == CloseProducerReq(k, p)
    case Leave(k) => req == CloseClientReq(k)
    case Lose(_) => false
  }

  /** No request appears or disappears but by these steps and by being served. */
  lemma RequestsAreAccountedFor(w: World, a: Action, req: Request)
    requires Inv(w) && Enabled(w, a)
    ensures Next(w, a).requests[req]
            == w.requests[req] + (if Asks(w, a, req) then 1 else 0) - if a == Serve(req) then 1 else 0
  {
    if a.Deliver? && Active(w, a.ev.socket) {
      ReactionPrompts(w.clients[a.ev.socket], a.ev, a.pick, req);
    } else if a.Serve? {
      HandledGrows(w.(requests := w.requests - multiset{a.req}), a.req);
    }
  }

  /** No event appears or disappears but by being sent and by being delivered, to an active client or not. */
  lemma EventsAreAccountedFor(w: World, a: Action, ev: Event)
    requires Inv(w) && Enabled(w, a)
    ensures Next(w, a).events[ev]
            == w.events[ev] + (if a.Serve? && Sends(w, a.req, ev) then 1 else 0)
               - if a.Deliver? && a.ev == ev then 1 else 0
  {
    if a.Serve? {
      var w1 := w.(requests := w.requests - multiset{a.req});
      ServeSends(w1, a.req, ev);
      assert Sends(w1, a.req, ev) <==> Sends(w, a.req, ev);
    }
  }

  // ---------- clients come and go ----------

  /** A client that connects starts with nothing, as the user and in the room it came for. */
  lemma ConnectStarts(w: World, u: Id, r: Id, k: Id)
    requires Inv(w)
    ensures var w' := Next(w, Connect(u, r));
            if k == w.next then
              && k !in w.clients && k in w'.clients && w'.clients[k].active
              && w'.clients[k].userId == u && w'.clients[k].room == r
              && w'.clients[k].recv.None? && w'.clients[k].send.None?
              && w'.clients[k].producers == {} && w'.clients[k].consumers == map[]
            else (k in w'.clients <==> k in w.clients) && (k in w.clients ==> w'.clients[k] == w.clients[k])
  {
  }

  /** What a client does itself, or does about an event. */
  ghost predicate ActsAlone(a: Action, k: Id) {
    match a
    case StopTrack(l, _) => l == k
    case Leave(l) => l == k
    case Lose(l) => l == k
    case Deliver(ev, _) => ev.socket == k
    case _ => false
  }

  /** Nobody else's step changes what a client remembers. */
  lemma OthersAreLeftAlone(w: World, a: Action, k: Id)
    requires Inv(w) && Enabled(w, a) && !a.Connect? && !ActsAlone(a, k)
    ensures k in Next(w, a).clients <==> k in w.clients
    ensures k in w.clients ==> Next(w, a).clients[k] == w.clients[k]
  {
    if a.Serve? { HandledGrows(w.(requests := w.requests - multiset{a.req}), a.req); }
  }

  /** Stopping a track forgets the producer; leaving and dropping make a client inactive, and an inactive client reacts
      to nothing. */
  lemma OwnSteps(w: World, a: Action, k: Id)
    requires Inv(w) && Enabled(w, a) && ActsAlone(a, k) && k in w.clients
    ensures var cl := w.clients[k];
            k in Next(w, a).clients
            && Next(w, a).clients[k] ==
                 match a
                 case StopTrack(_, p) => cl.(producers := cl.producers - {p})
                 case Deliver(ev, pick) => if cl.active then React(cl, ev, pick).0 else cl
                 case _ => cl.(active := false)
  {
  }

  /** The registries change by serving a request only; a socket that drops merely hears nothing more. */
  lemma ServerMoves(w: World, a: Action)
    requires Inv(w) && Enabled(w, a)
    ensures var s' := Next(w, a).server;
            match a
            case Serve(req) =>
              (var w1 := w.(requests := w.requests - multiset{req});
               if req.GetProducersReq? then s' == w.server
               else Allowed(w.server, CallOf(w1, req)) && s' == Handle(w.server, CallOf(w1, req)))
            case Lose(k) =>
              k !in s'.online && s' == w.server.(online := s'.online) && s'.online + {k} == w.server.online + {k}
            case _ => s' == w.server
  {
    if a.Serve? {
      var w1 := w.(requests := w.requests - multiset{a.req});
      LessRecords(w, a.req);
      assert a.req.CloseConsumerReq? ==> Dead(w, w.consumed[a.req.consumer]);
      assert Servable(w1, a.req);
      ServeHandles(w1, a.req);
    }
  }

  /** So the registries in any world are those of a run of the handlers alone, whose calls tell all they hold. */
  lemma {:induction false} ServerIsRun(worlds: seq<World>, actions: seq<Action>, i: nat)
      returns (states: seq<Server>, calls: seq<Call>)
    requires SfuCoverage.IsRun(worlds, actions) && i < |worlds|
    ensures SfuRegistry.IsRun(states, calls) && states[|calls|] == worlds[i].server
  {
    if i == 0 {
      states, calls := [EMPTY_SERVER], [];
    } else {
      var w, a := worlds[i - 1], actions[i - 1];
      states, calls := ServerIsRun(worlds, actions, i - 1);
      RunInv(worlds, actions, i - 1);
      ServerMoves(w, a);
      if a.Lose? {
        RunExtends(states, calls, CallDrop(a.k));
        states, calls := states + [Drop(w.server, a.k)], calls + [CallDrop(a.k)];
      } else if a.Serve? && !a.req.GetProducersReq? {
        var call := CallOf(w.(requests := w.requests - multiset{a.req}), a.req);
        RunExtends(states, calls, call);
        states, calls := states + [worlds[i].server], calls + [call];
      }
    }
  }

  // ---------- a producer is closed ----------

  /** The server closes it and every consumer its room lists for it, and tells everybody else in the room. */
  lemma ClosingIsAnnounced(w: World, k: Id, p: Id, c: Id, o: Id)
    requires Inv(w) && Enabled(w, Serve(CloseProducerReq(k, p))) && HasRoom(w.server, k)
    requires LiveIn(w.server, w.server.current[k], p)
    ensures var w' := Next(w, Serve(CloseProducerReq(k, p)));
            && Dead(w', p) && p in w'.server.closedProducers
            && (ListedFor(w.server, w.server.current[k], c, p) ==>
                  c in w'.server.closedConsumers && !Feeds(w'.server, o, c))
            && (IsOther(w.server, k, o) ==> ProducerClosed(o, p) in w'.events)
  {
    var req := CloseProducerReq(k, p);
    var w1 := w.(requests := w.requests - multiset{req});
    CloseProducerFrames(w1, k, p);
    CloseProducerTakesConsumers(w.server, k, p, c);
    ServeSends(w1, req, ProducerClosed(o, p));
  }

  /** A client that is told gives up the consumer it finds and asks the server to close it; if that was the only one,
      it consumes the producer no more. */
  lemma ClosedProducerIsDropped(w: World, k: Id, p: Id, pick: Id)
    requires Inv(w) && Enabled(w, Deliver(ProducerClosed(k, p), pick)) && Active(w, k) && Consumes(w, k, p)
    ensures var w' := Next(w, Deliver(ProducerClosed(k, p), pick));
            && pick in w.clients[k].consumers && w.clients[k].consumers[pick] == p
            && w'.clients[k].consumers == w.clients[k].consumers - {pick}
            && CloseConsumerReq(k, pick) in w'.requests
            && ((forall c :: c in w.clients[k].consumers && w.clients[k].consumers[c] == p ==> c == pick) ==>
                  !Consumes(w', k, p))
  {
    RequestsAreAccountedFor(w, Deliver(ProducerClosed(k, p), pick), CloseConsumerReq(k, pick));
  }

  /** Serving that request leaves the client without the consumer on the server, too. */
  lemma DroppedConsumerIsClosed(w: World, k: Id, c: Id)
    requires Inv(w) && Enabled(w, Serve(CloseConsumerReq(k, c)))
    ensures var s, s' := w.server, Next(w, Serve(CloseConsumerReq(k, c))).server;
            && !OwnsConsumer(s', k, c) && !Feeds(s', k, c)
            && (OwnsConsumer(s, k, c) ==> c in s'.closedConsumers)
  {
  }
}
