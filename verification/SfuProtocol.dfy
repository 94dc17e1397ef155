/** The SFU and its clients together: requests and events travel in bags, in any order. Clients learn of
    producers from a snapshot and from a stream of announcements; between the two none is missed. */
module SfuProtocol {
  import opened Common
  import opened SfuRegistry

  datatype Request =
    | JoinRoomReq(socket: Id)
    | CreateTransportReq(socket: Id, recv: bool)
    | CreateProducerReq(socket: Id, transport: Id)
    | GetProducersReq(socket: Id)
    | CreateConsumerReq(socket: Id, transport: Id, producer: Id)
    | CloseProducerReq(socket: Id, producer: Id)
    | CloseConsumerReq(socket: Id, consumer: Id)
    | CloseClientReq(socket: Id)

  datatype Event =
    | RoomJoined(socket: Id)
    | TransportCreated(socket: Id, recv: bool, transport: Id)
    | ProducerCreated(socket: Id, producer: Id)
    | ProducerList(socket: Id, producers: map<Id, Id>)
    | ProducerJoined(socket: Id, producer: Id, userId: Id)
    | ConsumerCreated(socket: Id, consumer: Id, producer: Id)
    | ProducerClosed(socket: Id, producer: Id)

  /** The client's media store; `consumers` gives each consumer its producer. */
  datatype Client = Client(userId: Id, room: Id, active: bool, send: Option<Id>, recv: Option<Id>,
                           producers: set<Id>, consumers: map<Id, Id>)

  /** `next` supplies fresh ids; `consumed` records which producer each consumer was created for. */
  datatype World = World(server: Server, clients: map<Id, Client>, requests: multiset<Request>,
                         events: multiset<Event>, next: Id, consumed: map<Id, Id>)

  const EMPTY_WORLD := World(EMPTY_SERVER, map[], multiset{}, multiset{}, 0, map[])

  // ---------- the client half ----------

  /** `createConsumer`: nothing without a receive transport, nothing for the user's own producers. */
  function WantConsumers(cl: Client, k: Id, producers: map<Id, Id>): multiset<Request> {
    if cl.recv.None? then multiset{}
    else multiset(set p | p in producers && producers[p] != cl.userId :: CreateConsumerReq(k, cl.recv.value, p))
  }

  /** `pick` is the consumer that `find` comes upon first when a producer has been closed. */
  function React(cl: Client, ev: Event, pick: Id): (Client, multiset<Request>) {
    match ev
    case RoomJoined(k) => (cl, multiset{CreateTransportReq(k, false), CreateTransportReq(k, true)})
    case TransportCreated(k, recv, t) =>
      if recv then (cl.(recv := Some(t)), multiset{GetProducersReq(k)}) else (cl.(send := Some(t)), multiset{})
    case ProducerCreated(_, p) => (cl.(producers := cl.producers + {p}), multiset{})
    case ProducerList(k, producers) => (cl, WantConsumers(cl, k, producers))
    case ProducerJoined(k, p, u) => (cl, WantConsumers(cl, k, map[p := u]))
    case ConsumerCreated(_, c, p) =>
      (if cl.recv.Some? then cl.(consumers := cl.consumers[c := p]) else cl, multiset{})
    case ProducerClosed(k, p) =>
      if pick in cl.consumers && cl.consumers[pick] == p
      then (cl.(consumers := cl.consumers - {pick}), multiset{CloseConsumerReq(k, pick)})
      else (cl, multiset{})
  }

  // ---------- steps ----------

  datatype Action =
    | Connect(userId: Id, room: Id)
    | Serve(req: Request)
    | Deliver(ev: Event, pick: Id)
    | ProduceTrack(k: Id)
    | StopTrack(k: Id, producer: Id)
    | Leave(k: Id)
    | Lose(k: Id)

  ghost predicate Active(w: World, k: Id) {
    k in w.clients && w.clients[k].active
  }

  /** The server hears only sockets it has not disconnected, and a join only from a live one. */
  ghost predicate Enabled(w: World, a: Action) {
    match a
    case Connect(_, _) => true
    case Serve(req) =>
      req in w.requests && if req.JoinRoomReq? then Active(w, req.socket) else req.socket in w.server.online
    case Deliver(ev, pick) =>
      && ev in w.events
      && (ev.ProducerClosed? && ev.socket in w.clients && ev.producer in w.clients[ev.socket].consumers.Values ==>
            pick in w.clients[ev.socket].consumers && w.clients[ev.socket].consumers[pick] == ev.producer)
    case ProduceTrack(k) => Active(w, k) && w.clients[k].send.Some?
    case StopTrack(k, p) => Active(w, k) && p in w.clients[k].producers
    case Leave(k) => Active(w, k)
    case Lose(k) => k in w.clients
  }

  // The server's half of a step, after the request has left the bag.

  function ServeJoin(w: World, k: Id): World
    requires k in w.clients
  {
    w.(server := JoinRoom(w.server, k, w.clients[k].userId, w.clients[k].room),
       events := w.events + multiset{RoomJoined(k)})
  }

  function ServeTransport(w: World, k: Id, recv: bool): World
    requires HasRoom(w.server, k)
  {
    w.(server := CreateTransport(w.server, k, w.next), next := w.next + 1,
       events := w.events + multiset{TransportCreated(k, recv, w.next)})
  }

  function ServeProduce(w: World, k: Id, t: Id): World
    requires HasRoom(w.server, k)
  {
    if !CanProduce(w.server, k, t) then w
    else
      var p, u := w.next, w.server.peers[k].userId;
      w.(server := Produce(w.server, k, t, p), next := w.next + 1,
         events := w.events + multiset{ProducerCreated(k, p)}
                   + multiset(set o | o in Others(w.server, k) :: ProducerJoined(o, p, u)))
  }

  function ServeProducers(w: World, k: Id): World
    requires HasRoom(w.server, k)
  {
    w.(events := w.events + multiset{ProducerList(k, RoomOf(w.server, k).producers)})
  }

  function ServeConsume(w: World, k: Id, t: Id, p: Id): World
    requires HasRoom(w.server, k) && k in w.server.peers
  {
    if !CanConsume(w.server, k, t, p) then w
    else w.(server := Consume(w.server, k, t, p, w.next), next := w.next + 1, consumed := w.consumed[w.next := p],
            events := w.events + multiset{ConsumerCreated(k, w.next, p)})
  }

  function Announced(s: Server, k: Id, producers: set<Id>): multiset<Event>
    requires k in s.current
  {
    multiset(set o, p | o in Others(s, k) && p in producers :: ProducerClosed(o, p))
  }

  function ServeCloseProducer(w: World, k: Id, p: Id): World
    requires HasRoom(w.server, k)
  {
    if p !in RoomOf(w.server, k).producers then w
    else w.(server := CloseProducer(w.server, k, p), events := w.events + Announced(w.server, k, {p}))
  }

  function ServeCloseConsumer(w: World, k: Id, c: Id): World
    requires HasRoom(w.server, k)
  {
    w.(server := CloseConsumer(w.server, k, c))
  }

  function ServeCloseClient(w: World, k: Id): World
    requires HasRoom(w.server, k)
  {
    if k !in w.server.peers then w
    else w.(server := CloseClient(w.server, k),
            events := w.events + Announced(w.server, k, w.server.peers[k].producers))
  }

  function Handled(w: World, req: Request): World
    requires if req.JoinRoomReq? then req.socket in w.clients
             else HasRoom(w.server, req.socket) && req.socket in w.server.peers
  {
    match req
    case JoinRoomReq(k) => ServeJoin(w, k)
    case CreateTransportReq(k, recv) => ServeTransport(w, k, recv)
    case CreateProducerReq(k, t) => ServeProduce(w, k, t)
    case GetProducersReq(k) => ServeProducers(w, k)
    case CreateConsumerReq(k, t, p) => ServeConsume(w, k, t, p)
    case CloseProducerReq(k, p) => ServeCloseProducer(w, k, p)
    case CloseConsumerReq(k, c) => ServeCloseConsumer(w, k, c)
    case CloseClientReq(k) => ServeCloseClient(w, k)
  }

  function NewClient(w: World, u: Id, r: Id): World {
    w.(clients := w.clients[w.next := Client(u, r, true, None, None, {}, map[])],
       requests := w.requests + multiset{JoinRoomReq(w.next)}, next := w.next + 1)
  }

  function Reaction(w: World, ev: Event, pick: Id): World
    requires ev.socket in w.clients
  {
    var (cl, reqs) := React(w.clients[ev.socket], ev, pick);
    w.(clients := w.clients[ev.socket := cl], requests := w.requests + reqs)
  }

  function WithClient(w: World, k: Id, cl: Client, reqs: multiset<Request>): World {
    w.(clients := w.clients[k := cl], requests := w.requests + reqs)
  }

  ghost function Next(w: World, a: Action): World
    requires PeersHaveRooms(w.server) && Enabled(w, a)
  {
    match a
    case Connect(u, r) => NewClient(w, u, r)
    case Serve(req) => Handled(w.(requests := w.requests - multiset{req}), req)
    case Deliver(ev, pick) =>
      var w' := w.(events := w.events - multiset{ev});
      if Active(w, ev.socket) then Reaction(w', ev, pick) else w'
    case ProduceTrack(k) => WithClient(w, k, w.clients[k], multiset{CreateProducerReq(k, w.clients[k].send.value)})
    case StopTrack(k, p) =>
      WithClient(w, k, w.clients[k].(producers := w.clients[k].producers - {p}), multiset{CloseProducerReq(k, p)})
    case Leave(k) => WithClient(w, k, w.clients[k].(active := false), multiset{CloseClientReq(k)})
    case Lose(k) => WithClient(w, k, w.clients[k].(active := false), multiset{}).(server := Drop(w.server, k))
  }

  // ---------- coverage ----------

  /** A producer of another user, live in the room of a client that can receive. */
  ghost predicate Needs(w: World, k: Id, p: Id) {
    && Active(w, k) && w.clients[k].recv.Some?
    && LiveIn(w.server, w.clients[k].room, p)
    && w.server.rooms[w.clients[k].room].producers[p] != w.clients[k].userId
  }

  /** A message in flight tells the client about the producer, as another user's. */
  ghost predicate Tells(ev: Event, k: Id, p: Id, me: Id) {
    || (ev.ProducerList? && ev.socket == k && p in ev.producers && ev.producers[p] != me)
    || (ev.ProducerJoined? && ev.socket == k && ev.producer == p && ev.userId != me)
  }

  ghost predicate Told(w: World, k: Id, p: Id, me: Id) {
    exists ev :: ev in w.events && Tells(ev, k, p, me)
  }

  ghost predicate Answered(w: World, k: Id, p: Id) {
    exists c :: ConsumerCreated(k, c, p) in w.events
  }

  ghost predicate Consumes(w: World, k: Id, p: Id) {
    exists c :: k in w.clients && c in w.clients[k].consumers && w.clients[k].consumers[c] == p
  }

  ghost predicate Covered(w: World, k: Id, p: Id)
    requires k in w.clients && w.clients[k].recv.Some?
  {
    || GetProducersReq(k) in w.requests
    || Told(w, k, p, w.clients[k].userId)
    || CreateConsumerReq(k, w.clients[k].recv.value, p) in w.requests
    || Answered(w, k, p)
    || Consumes(w, k, p)
  }

  ghost predicate Coverage(w: World) {
    forall k, p :: Needs(w, k, p) ==> Covered(w, k, p)
  }

  // ---------- the rest of the invariant ----------

  ghost predicate Dead(w: World, p: Id) {
    p < w.next && forall r :: !LiveIn(w.server, r, p)
  }

  /** Every id in use has been issued. */
  ghost predicate Issued(w: World) {
    && (forall k :: k in w.clients ==> k < w.next)
    && (forall k :: k in w.server.current ==> k in w.clients)
    && (forall k: Id, p: Id :: OwnsProducer(w.server, k, p) ==> p < w.next)
    && (forall k: Id, c: Id :: OwnsConsumer(w.server, k, c) ==> c < w.next)
    && (forall p :: p in w.server.closedProducers ==> p < w.next)
    && (forall c :: c in w.server.closedConsumers ==> c < w.next)
    && (forall c :: c in w.consumed ==> c < w.next && w.consumed[c] < w.next)
  }

  ghost predicate JoinsOnce(w: World) {
    forall k :: JoinRoomReq(k) in w.requests ==>
      k in w.clients && k !in w.server.current && w.requests[JoinRoomReq(k)] == 1
  }

  /** Client and server agree on who sits where. */
  ghost predicate Seated(w: World) {
    && (forall k :: Active(w, k) && k in w.server.current ==>
          k in w.server.online && In(w.server, k, w.clients[k].room) && k in w.server.peers
          && w.server.peers[k].userId == w.clients[k].userId)
    && (forall k :: CloseClientReq(k) in w.requests ==> k in w.clients && !w.clients[k].active)
  }

  ghost predicate HasTransport(w: World, k: Id, t: Id) {
    HasRoom(w.server, k) && t in RoomOf(w.server, k).transports
  }

  ghost predicate Transports(w: World) {
    && (forall k :: k in w.clients && w.clients[k].recv.Some? ==> HasTransport(w, k, w.clients[k].recv.value))
    && (forall k, recv, t :: TransportCreated(k, recv, t) in w.events ==> HasTransport(w, k, t))
  }

  /** Announced closures and requested consumer closures are about dead producers only. */
  ghost predicate ClosuresAreDead(w: World) {
    && (forall k, p :: ProducerClosed(k, p) in w.events ==> Dead(w, p))
    && (forall k, c :: CloseConsumerReq(k, c) in w.requests ==> c in w.consumed && Dead(w, w.consumed[c]))
  }

  ghost predicate For(w: World, c: Id, p: Id) {
    c in w.consumed && w.consumed[c] == p
  }

  ghost predicate ConsumersKnown(w: World) {
    && (forall k, c, p :: ConsumerCreated(k, c, p) in w.events ==> For(w, c, p) && k in w.clients)
    && (forall k, c :: k in w.clients && c in w.clients[k].consumers ==> For(w, c, w.clients[k].consumers[c]))
    && (forall r, c :: r in w.server.rooms && c in w.server.rooms[r].consumers ==>
         For(w, c, w.server.rooms[r].consumers[c]))
  }

  ghost predicate Records(w: World) {
    PeersHaveRooms(w.server) && Issued(w) && JoinsOnce(w) && Seated(w)
  }

  ghost predicate Messages(w: World) {
    Transports(w) && ClosuresAreDead(w) && ConsumersKnown(w)
  }

  /** The client has, or is about to have, consumer c for producer p. */
  ghost predicate Holds(w: World, k: Id, c: Id, p: Id) {
    || ConsumerCreated(k, c, p) in w.events
    || (k in w.clients && c in w.clients[k].consumers && w.clients[k].consumers[c] == p)
  }

  /** The server still feeds consumer c to socket k. */
  ghost predicate Feeds(s: Server, k: Id, c: Id) {
    HasRoom(s, k) && c in RoomOf(s, k).consumers && OwnsConsumer(s, k, c)
  }

  /** A client's consumer of a live producer is still open on the server. */
  ghost predicate Wired(w: World) {
    forall k, c, p :: Active(w, k) && Holds(w, k, c, p) && LiveIn(w.server, w.clients[k].room, p) ==>
        Feeds(w.server, k, c)
  }

  ghost predicate Inv(w: World) {
    Agreement(w.server) && Records(w) && Messages(w) && Wired(w) && Coverage(w)
  }

  /** Nothing dead comes back to life. */
  ghost predicate StaysDead(w: World, w': World) {
    forall p :: Dead(w, p) ==> Dead(w', p)
  }

  // ---------- what each step does to the records ----------

  lemma ConnectRecords(w: World, u: Id, r: Id)
    requires Records(w)
    ensures Records(NewClient(w, u, r))
  {
  }

  lemma LessRecords(w: World, req: Request)
    requires Records(w) && req in w.requests
    ensures Records(w.(requests := w.requests - multiset{req}))
    ensures req.JoinRoomReq? ==> req !in w.requests - multiset{req}
  {
    var w' := w.(requests := w.requests - multiset{req});
    assert forall r :: r in w'.requests ==> r in w.requests && w'.requests[r] <= w.requests[r];
  }

  /** Ids of what lives in a room have been issued. */
  ghost predicate LiveIssued(w: World) {
    && (forall r: Id, p: Id :: LiveIn(w.server, r, p) ==> p < w.next)
    && (forall r: Id, c: Id :: r in w.server.rooms && c in w.server.rooms[r].consumers ==> c < w.next)
  }

  /** What lives in a room belongs to a peer, so its id has been issued. */
  lemma LiveIdsIssued(w: World)
    requires Agreement(w.server) && Issued(w)
    ensures LiveIssued(w)
  {
    var s := w.server;
    forall r: Id, p: Id | LiveIn(s, r, p) ensures p < w.next {
      var k :| OwnsProducer(s, k, p) && In(s, k, r);
    }
    forall r: Id, c: Id | r in s.rooms && c in s.rooms[r].consumers ensures c < w.next {
      var k :| OwnsConsumer(s, k, c) && In(s, k, r);
    }
  }

  lemma JoinIssued(w: World, k: Id)
    requires Issued(w) && k in w.clients && k !in w.server.peers
    ensures Issued(ServeJoin(w, k))
  {
    var w' := ServeJoin(w, k);
    assert forall o, q :: OwnsProducer(w'.server, o, q) ==> OwnsProducer(w.server, o, q);
    assert forall o, c :: OwnsConsumer(w'.server, o, c) ==> OwnsConsumer(w.server, o, c);
  }

  lemma JoinSeated(w: World, k: Id)
    requires PeersHaveRooms(w.server) && Seated(w) && Active(w, k)
    ensures PeersHaveRooms(ServeJoin(w, k).server) && Seated(ServeJoin(w, k))
  {
  }

  lemma JoinJoinsOnce(w: World, k: Id)
    requires JoinsOnce(w) && k in w.clients && JoinRoomReq(k) !in w.requests
    ensures JoinsOnce(ServeJoin(w, k))
  {
  }

  lemma TransportIssued(w: World, k: Id, recv: bool)
    requires Issued(w) && HasRoom(w.server, k)
    ensures Issued(ServeTransport(w, k, recv))
  {
    var w' := ServeTransport(w, k, recv);
    assert forall o, q :: OwnsProducer(w'.server, o, q) ==> OwnsProducer(w.server, o, q);
    assert forall o, c :: OwnsConsumer(w'.server, o, c) ==> OwnsConsumer(w.server, o, c);
  }

  lemma TransportSeated(w: World, k: Id, recv: bool)
    requires PeersHaveRooms(w.server) && Seated(w) && HasRoom(w.server, k)
    ensures PeersHaveRooms(ServeTransport(w, k, recv).server) && Seated(ServeTransport(w, k, recv))
  {
  }

  lemma TransportJoinsOnce(w: World, k: Id, recv: bool)
    requires JoinsOnce(w) && HasRoom(w.server, k)
    ensures JoinsOnce(ServeTransport(w, k, recv))
  {
  }

  lemma ProduceIssued(w: World, k: Id, t: Id)
    requires Issued(w) && HasRoom(w.server, k)
    ensures Issued(ServeProduce(w, k, t))
  {
    var w' := ServeProduce(w, k, t);
    assert forall o, q :: OwnsProducer(w'.server, o, q) ==> OwnsProducer(w.server, o, q) || q == w.next;
    assert forall o, c :: OwnsConsumer(w'.server, o, c) ==> OwnsConsumer(w.server, o, c);
  }

  lemma ProduceSeated(w: World, k: Id, t: Id)
    requires PeersHaveRooms(w.server) && Seated(w) && HasRoom(w.server, k)
    ensures PeersHaveRooms(ServeProduce(w, k, t).server) && Seated(ServeProduce(w, k, t))
  {
  }

  lemma ProduceJoinsOnce(w: World, k: Id, t: Id)
    requires JoinsOnce(w) && HasRoom(w.server, k)
    ensures JoinsOnce(ServeProduce(w, k, t))
  {
  }

  lemma ProducersIssued(w: World, k: Id)
    requires Issued(w) && HasRoom(w.server, k)
    ensures Issued(ServeProducers(w, k))
  {
  }

  lemma ProducersSeated(w: World, k: Id)
    requires PeersHaveRooms(w.server) && Seated(w) && HasRoom(w.server, k)
    ensures PeersHaveRooms(ServeProducers(w, k).server) && Seated(ServeProducers(w, k))
  {
  }

  lemma ProducersJoinsOnce(w: World, k: Id)
    requires JoinsOnce(w) && HasRoom(w.server, k)
    ensures JoinsOnce(ServeProducers(w, k))
  {
  }

  lemma ConsumeIssued(w: World, k: Id, t: Id, p: Id)
    requires Issued(w) && LiveIssued(w) && HasRoom(w.server, k) && k in w.server.peers
    ensures Issued(ServeConsume(w, k, t, p))
  {
    var w' := ServeConsume(w, k, t, p);
    assert forall o, q :: OwnsProducer(w'.server, o, q) ==> OwnsProducer(w.server, o, q);
    assert forall o, c :: OwnsConsumer(w'.server, o, c) ==> OwnsConsumer(w.server, o, c) || c == w.next;
    assert p in RoomOf(w.server, k).producers ==> LiveIn(w.server, w.server.current[k], p);
  }

  lemma ConsumeSeated(w: World, k: Id, t: Id, p: Id)
    requires PeersHaveRooms(w.server) && Seated(w) && HasRoom(w.server, k) && k in w.server.peers
    ensures PeersHaveRooms(ServeConsume(w, k, t, p).server) && Seated(ServeConsume(w, k, t, p))
  {
  }

  lemma ConsumeJoinsOnce(w: World, k: Id, t: Id, p: Id)
    requires JoinsOnce(w) && HasRoom(w.server, k) && k in w.server.peers
    ensures JoinsOnce(ServeConsume(w, k, t, p))
  {
  }

  lemma CloseProducerIssued(w: World, k: Id, p: Id)
    requires Issued(w) && LiveIssued(w) && HasRoom(w.server, k)
    ensures Issued(ServeCloseProducer(w, k, p))
  {
    var w', s := ServeCloseProducer(w, k, p), w.server;
    assert forall o, q :: OwnsProducer(w'.server, o, q) ==> OwnsProducer(s, o, q);
    assert forall o, c :: OwnsConsumer(w'.server, o, c) ==> OwnsConsumer(s, o, c);
    assert p in RoomOf(s, k).producers ==> LiveIn(s, s.current[k], p);
    assert forall c :: c in RoomOf(s, k).consumers ==> c < w.next;
  }

  lemma CloseProducerSeated(w: World, k: Id, p: Id)
    requires PeersHaveRooms(w.server) && Seated(w) && HasRoom(w.server, k)
    ensures PeersHaveRooms(ServeCloseProducer(w, k, p).server) && Seated(ServeCloseProducer(w, k, p))
  {
  }

  lemma CloseProducerJoinsOnce(w: World, k: Id, p: Id)
    requires JoinsOnce(w) && HasRoom(w.server, k)
    ensures JoinsOnce(ServeCloseProducer(w, k, p))
  {
  }

  lemma CloseConsumerIssued(w: World, k: Id, c: Id)
    requires Issued(w) && HasRoom(w.server, k)
    ensures Issued(ServeCloseConsumer(w, k, c))
  {
    var w' := ServeCloseConsumer(w, k, c);
    assert k in w.server.peers && c in w.server.peers[k].consumers ==> OwnsConsumer(w.server, k, c);
    assert forall o, q :: OwnsProducer(w'.server, o, q) ==> OwnsProducer(w.server, o, q);
    assert forall o, d :: OwnsConsumer(w'.server, o, d) ==> OwnsConsumer(w.server, o, d);
  }

  lemma CloseConsumerSeated(w: World, k: Id, c: Id)
    requires PeersHaveRooms(w.server) && Seated(w) && HasRoom(w.server, k)
    ensures PeersHaveRooms(ServeCloseConsumer(w, k, c).server) && Seated(ServeCloseConsumer(w, k, c))
  {
  }

  lemma CloseConsumerJoinsOnce(w: World, k: Id, c: Id)
    requires JoinsOnce(w) && HasRoom(w.server, k)
    ensures JoinsOnce(ServeCloseConsumer(w, k, c))
  {
  }

  lemma CloseClientIssued(w: World, k: Id)
    requires Issued(w) && HasRoom(w.server, k)
    ensures Issued(ServeCloseClient(w, k))
  {
    var w', s := ServeCloseClient(w, k), w.server;
    assert forall p :: p in w'.server.closedProducers ==> p in s.closedProducers || OwnsProducer(s, k, p);
    assert forall c :: c in w'.server.closedConsumers ==> c in s.closedConsumers || OwnsConsumer(s, k, c);
    assert forall o, q :: OwnsProducer(w'.server, o, q) ==> OwnsProducer(s, o, q);
    assert forall o, c :: OwnsConsumer(w'.server, o, c) ==> OwnsConsumer(s, o, c);
  }

  lemma CloseClientSeated(w: World, k: Id)
    requires PeersHaveRooms(w.server) && Seated(w) && HasRoom(w.server, k) && k in w.clients && !w.clients[k].active
    ensures PeersHaveRooms(ServeCloseClient(w, k).server) && Seated(ServeCloseClient(w, k))
  {
  }

  lemma CloseClientJoinsOnce(w: World, k: Id)
    requires JoinsOnce(w) && HasRoom(w.server, k)
    ensures JoinsOnce(ServeCloseClient(w, k))
  {
  }

  /** A client that changes its own store and sends requests other than a join. */
  lemma ClientRecords(w: World, k: Id, cl: Client, reqs: multiset<Request>)
    requires Records(w) && k in w.clients
    requires cl.userId == w.clients[k].userId && cl.room == w.clients[k].room && (cl.active ==> w.clients[k].active)
    requires forall r :: r in reqs ==> !r.JoinRoomReq? && (r.CloseClientReq? ==> r.socket == k && !cl.active)
    ensures Records(WithClient(w, k, cl, reqs))
  {
    var w' := WithClient(w, k, cl, reqs);
    assert forall r :: r in w'.requests ==> r in w.requests || r in reqs;
    assert forall o :: w'.requests[JoinRoomReq(o)] == w.requests[JoinRoomReq(o)];
  }

  lemma LoseRecords(w: World, k: Id)
    requires Records(w) && k in w.clients && !w.clients[k].active
    ensures Records(w.(server := Drop(w.server, k)))
  {
    var w' := w.(server := Drop(w.server, k));
    assert forall o, q :: OwnsProducer(w'.server, o, q) ==> OwnsProducer(w.server, o, q);
    assert forall o, d :: OwnsConsumer(w'.server, o, d) ==> OwnsConsumer(w.server, o, d);
  }

  // ---------- what each step does to the messages ----------

  lemma ConnectMessages(w: World, u: Id, r: Id)
    requires Records(w) && Messages(w)
    ensures Messages(NewClient(w, u, r))
  {
    assert StaysDead(w, NewClient(w, u, r));
  }

  /** Taking messages out of the bags. */
  lemma LessMessages(w: World, w': World)
    requires Messages(w) && w'.requests <= w.requests && w'.events <= w.events
    requires w' == w.(requests := w'.requests, events := w'.events)
    ensures Messages(w')
  {
    assert StaysDead(w, w');
    assert forall r :: r in w'.requests ==> r in w.requests;
    assert forall e :: e in w'.events ==> e in w.events;
  }

  ghost predicate Safe(w: World, ev: Event) {
    && (ev.TransportCreated? ==> HasTransport(w, ev.socket, ev.transport))
    && (ev.ProducerClosed? ==> Dead(w, ev.producer))
    && (ev.ConsumerCreated? ==> For(w, ev.consumer, ev.producer) && ev.socket in w.clients)
  }

  ghost predicate RoomConsumersKnown(w: World) {
    forall r, c :: r in w.server.rooms && c in w.server.rooms[r].consumers ==> For(w, c, w.server.rooms[r].consumers[c])
  }

  /** A step of the server that loses no transport, revives nothing and sends only safe events. */
  lemma ServerMessages(w: World, w': World)
    requires Messages(w) && w'.clients == w.clients && w'.requests == w.requests
    requires StaysDead(w, w') && RoomConsumersKnown(w')
    requires forall o, t :: HasTransport(w, o, t) ==> HasTransport(w', o, t)
    requires forall c, p :: For(w, c, p) ==> For(w', c, p)
    requires forall ev :: ev in w'.events ==> ev in w.events || Safe(w', ev)
    ensures Messages(w')
  {
    assert forall c :: c in w.consumed ==> For(w, c, w.consumed[c]);
  }

  /** Joining neither makes nor closes anything. */
  lemma JoinFrames(w: World, k: Id)
    requires Records(w) && k in w.clients && k !in w.server.current
    ensures StaysDead(w, ServeJoin(w, k))
    ensures forall o, t :: HasTransport(w, o, t) ==> HasTransport(ServeJoin(w, k), o, t)
  {
    var w' := ServeJoin(w, k);
    assert forall r, p :: LiveIn(w'.server, r, p) ==> LiveIn(w.server, r, p);
  }

  lemma JoinMessages(w: World, k: Id)
    requires Records(w) && Messages(w) && k in w.clients && k !in w.server.current
    ensures Messages(ServeJoin(w, k))
  {
    JoinFrames(w, k);
    ServerMessages(w, ServeJoin(w, k));
  }

  lemma TransportMessages(w: World, k: Id, recv: bool)
    requires Messages(w) && HasRoom(w.server, k)
    ensures Messages(ServeTransport(w, k, recv))
  {
    var w' := ServeTransport(w, k, recv);
    assert forall r, p :: LiveIn(w'.server, r, p) ==> LiveIn(w.server, r, p);
    assert StaysDead(w, w');
    assert forall o, t :: HasTransport(w, o, t) ==> HasTransport(w', o, t);
    ServerMessages(w, w');
  }

  lemma ProduceFrames(w: World, k: Id, t: Id)
    requires HasRoom(w.server, k)
    ensures StaysDead(w, ServeProduce(w, k, t))
    ensures forall o, t' :: HasTransport(w, o, t') ==> HasTransport(ServeProduce(w, k, t), o, t')
  {
    var w' := ServeProduce(w, k, t);
    assert forall r, q :: LiveIn(w'.server, r, q) ==> LiveIn(w.server, r, q) || q == w.next;
  }

  lemma ProduceMessages(w: World, k: Id, t: Id)
    requires Messages(w) && HasRoom(w.server, k)
    ensures Messages(ServeProduce(w, k, t))
  {
    ProduceFrames(w, k, t);
    ServerMessages(w, ServeProduce(w, k, t));
  }

  lemma ProducersMessages(w: World, k: Id)
    requires Messages(w) && HasRoom(w.server, k)
    ensures Messages(ServeProducers(w, k))
  {
    assert StaysDead(w, ServeProducers(w, k));
  }

  lemma ConsumeFrames(w: World, k: Id, t: Id, p: Id)
    requires HasRoom(w.server, k) && k in w.server.peers
    ensures StaysDead(w, ServeConsume(w, k, t, p))
    ensures forall o, t' :: HasTransport(w, o, t') ==> HasTransport(ServeConsume(w, k, t, p), o, t')
  {
    var w' := ServeConsume(w, k, t, p);
    assert forall r, q :: LiveIn(w'.server, r, q) ==> LiveIn(w.server, r, q);
  }

  lemma ConsumeMessages(w: World, k: Id, t: Id, p: Id)
    requires Issued(w) && Messages(w) && HasRoom(w.server, k) && k in w.server.peers
    ensures Messages(ServeConsume(w, k, t, p))
  {
    var w' := ServeConsume(w, k, t, p);
    ConsumeFrames(w, k, t, p);
    assert forall c, q :: For(w, c, q) ==> For(w', c, q);
    ServerMessages(w, w');
  }

  /** A closed producer is dead everywhere, and nothing else changes its state. */
  lemma CloseProducerFrames(w: World, k: Id, p: Id)
    requires Agreement(w.server) && Issued(w) && HasRoom(w.server, k) && p in RoomOf(w.server, k).producers
    ensures StaysDead(w, ServeCloseProducer(w, k, p)) && Dead(ServeCloseProducer(w, k, p), p)
    ensures forall o, t :: HasTransport(w, o, t) ==> HasTransport(ServeCloseProducer(w, k, p), o, t)
  {
    var w' := ServeCloseProducer(w, k, p);
    assert LiveIn(w.server, w.server.current[k], p);
    LiveProducerHasOneHome(w.server, w.server.current[k], p);
    LiveIdsIssued(w);
    assert forall r, q :: LiveIn(w'.server, r, q) ==> LiveIn(w.server, r, q);
    assert forall r :: !LiveIn(w'.server, r, p);
  }

  lemma CloseProducerMessages(w: World, k: Id, p: Id)
    requires Agreement(w.server) && Issued(w) && Messages(w) && HasRoom(w.server, k)
    ensures Messages(ServeCloseProducer(w, k, p))
  {
    if p in RoomOf(w.server, k).producers {
      CloseProducerFrames(w, k, p);
      ServerMessages(w, ServeCloseProducer(w, k, p));
    }
  }

  lemma CloseConsumerMessages(w: World, k: Id, c: Id)
    requires Messages(w) && HasRoom(w.server, k)
    ensures Messages(ServeCloseConsumer(w, k, c))
  {
    var w' := ServeCloseConsumer(w, k, c);
    assert forall r, p :: LiveIn(w'.server, r, p) ==> LiveIn(w.server, r, p);
    assert StaysDead(w, w');
    assert forall o, t :: HasTransport(w, o, t) ==> HasTransport(w', o, t);
    ServerMessages(w, w');
  }

  lemma CloseClientFrames(w: World, k: Id)
    requires Agreement(w.server) && Issued(w) && HasRoom(w.server, k) && k in w.server.peers
    ensures StaysDead(w, ServeCloseClient(w, k))
    ensures forall p :: p in w.server.peers[k].producers ==> Dead(ServeCloseClient(w, k), p)
    ensures forall o, t :: HasTransport(w, o, t) ==> HasTransport(ServeCloseClient(w, k), o, t)
  {
    var w' := ServeCloseClient(w, k);
    CloseClientLeavesNothing(w.server, k);
    assert forall r, q :: LiveIn(w'.server, r, q) ==> LiveIn(w.server, r, q);
    forall p | p in w.server.peers[k].producers ensures Dead(w', p) { assert OwnsProducer(w.server, k, p); }
  }

  lemma CloseClientMessages(w: World, k: Id)
    requires Agreement(w.server) && Issued(w) && Messages(w) && HasRoom(w.server, k)
    ensures Messages(ServeCloseClient(w, k))
  {
    if k in w.server.peers {
      CloseClientFrames(w, k);
      ServerMessages(w, ServeCloseClient(w, k));
    }
  }

  /** A client that changes its own store and sends requests. */
  lemma ClientMessages(w: World, k: Id, cl: Client, reqs: multiset<Request>)
    requires Messages(w)
    requires cl.recv.Some? ==> HasTransport(w, k, cl.recv.value)
    requires forall c :: c in cl.consumers ==> For(w, c, cl.consumers[c])
    requires forall r :: r in reqs && r.CloseConsumerReq? ==>
               r.consumer in w.consumed && Dead(w, w.consumed[r.consumer])
    ensures Messages(WithClient(w, k, cl, reqs))
  {
    var w' := WithClient(w, k, cl, reqs);
    assert StaysDead(w, w');
    assert forall o, t :: HasTransport(w, o, t) ==> HasTransport(w', o, t);
    assert forall r :: r in w'.requests ==> r in w.requests || r in reqs;
  }

  /** What the client does with a safe event, which has already left the bag. */
  lemma ReactMessages(w: World, ev: Event, pick: Id)
    requires Messages(w) && ev.socket in w.clients && Safe(w, ev)
    ensures Messages(Reaction(w, ev, pick))
  {
    var (cl, reqs) := React(w.clients[ev.socket], ev, pick);
    assert ev.ProducerClosed? && pick in w.clients[ev.socket].consumers ==>
        For(w, pick, w.clients[ev.socket].consumers[pick]);
    ClientMessages(w, ev.socket, cl, reqs);
  }


  lemma LoseMessages(w: World, k: Id)
    requires Messages(w)
    ensures Messages(w.(server := Drop(w.server, k)))
  {
    var w' := w.(server := Drop(w.server, k));
    assert forall r, p :: LiveIn(w'.server, r, p) ==> LiveIn(w.server, r, p);
    assert StaysDead(w, w');
    assert forall o, t :: HasTransport(w, o, t) ==> HasTransport(w', o, t);
    ServerMessages(w, w');
  }
}
