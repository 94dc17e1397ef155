/** The life of transports, producers and consumers on the SFU, told from the calls of a run alone: whatever the
    registries hold, and whatever has been closed, is there because of those calls and no others. */
module SfuLifecycle {
  import opened Common
  import opened SfuRegistry

  // ---------- what the first i calls say, without looking at the registries ----------

  /** The room a socket joined. */
  function Seat(calls: seq<Call>, i: nat, k: Id): Option<Id>
    requires i <= |calls|
  {
    if i == 0 then None
    else
      match calls[i - 1]
      case CallJoin(l, _, r) => if l == k then Some(r) else Seat(calls, i - 1, k)
      case _ => Seat(calls, i - 1, k)
  }

  /** The user a socket joined as, if its client has not been closed since. */
  function Guest(calls: seq<Call>, i: nat, k: Id): Option<Id>
    requires i <= |calls|
  {
    if i == 0 then None
    else
      match calls[i - 1]
      case CallJoin(l, u, _) => if l == k then Some(u) else Guest(calls, i - 1, k)
      case CallCloseClient(l) => if l == k then None else Guest(calls, i - 1, k)
      case _ => Guest(calls, i - 1, k)
  }

  /** A socket that has joined, and has been neither closed nor dropped since. */
  predicate Hears(calls: seq<Call>, i: nat, k: Id)
    requires i <= |calls|
  {
    i > 0 &&
    match calls[i - 1]
    case CallJoin(l, _, _) => l == k || Hears(calls, i - 1, k)
    case CallCloseClient(l) => Hears(calls, i - 1, k) && !(l == k && Guest(calls, i - 1, k).Some?)
    case CallDrop(l) => l != k && Hears(calls, i - 1, k)
    case _ => Hears(calls, i - 1, k)
  }

  /** Somebody in the room opened the transport; nothing ever takes it away. */
  predicate Opened(calls: seq<Call>, i: nat, r: Id, t: Id)
    requires i <= |calls|
  {
    i > 0 &&
    (Opened(calls, i - 1, r, t)
     || (calls[i - 1].CallTransport? && calls[i - 1].transport == t && Seat(calls, i - 1, calls[i - 1].k) == Some(r)))
  }

  /** The call makes socket k a producer of room r: it is a guest there, over a transport of the room. */
  predicate Makes(calls: seq<Call>, i: nat, k: Id, r: Id, p: Id)
    requires i < |calls|
  {
    && calls[i].CallProduce? && calls[i].k == k && calls[i].producer == p
    && Seat(calls, i, k) == Some(r) && Guest(calls, i, k).Some? && Opened(calls, i, r, calls[i].transport)
  }

  /** Socket k made the producer, in whichever room, and has not been closed since. */
  predicate Made(calls: seq<Call>, i: nat, k: Id, p: Id)
    requires i <= |calls|
  {
    i > 0 &&
    match calls[i - 1]
    case CallProduce(_, _, _) =>
      || Made(calls, i - 1, k, p)
      || (Seat(calls, i - 1, k).Some? && Makes(calls, i - 1, k, Seat(calls, i - 1, k).value, p))
    case CallCloseClient(l) => l != k && Made(calls, i - 1, k, p)
    case _ => Made(calls, i - 1, k, p)
  }

  /** Somebody in the room closes the producer, or its maker is closed. */
  predicate Unmakes(calls: seq<Call>, i: nat, r: Id, p: Id)
    requires i < |calls|
  {
    match calls[i]
    case CallCloseProducer(k, q) => q == p && Seat(calls, i, k) == Some(r)
    case CallCloseClient(k) => Seat(calls, i, k) == Some(r) && Made(calls, i, k, p)
    case _ => false
  }

  /** The producer was made in the room and has not been closed since. */
  predicate Live(calls: seq<Call>, i: nat, r: Id, p: Id)
    requires i <= |calls|
  {
    i > 0 &&
    ((calls[i - 1].CallProduce? && Makes(calls, i - 1, calls[i - 1].k, r, p))
     || (Live(calls, i - 1, r, p) && !Unmakes(calls, i - 1, r, p)))
  }

  /** The call gives socket k a consumer of a live producer of its room. */
  predicate Gets(calls: seq<Call>, i: nat, k: Id, r: Id, c: Id, p: Id)
    requires i < |calls|
  {
    && calls[i].CallConsume? && calls[i].k == k && calls[i].consumer == c && calls[i].producer == p
    && Seat(calls, i, k) == Some(r) && Opened(calls, i, r, calls[i].transport) && Live(calls, i, r, p)
  }

  /** The consumer is in socket k's own map. */
  predicate Got(calls: seq<Call>, i: nat, k: Id, c: Id)
    requires i <= |calls|
  {
    i > 0 &&
    match calls[i - 1]
    case CallConsume(_, _, p, _) =>
      || Got(calls, i - 1, k, c)
      || (Seat(calls, i - 1, k).Some? && Gets(calls, i - 1, k, Seat(calls, i - 1, k).value, c, p))
    case CallCloseConsumer(l, d) => !(l == k && d == c) && Got(calls, i - 1, k, c)
    case CallCloseClient(l) => l != k && Got(calls, i - 1, k, c)
    case _ => Got(calls, i - 1, k, c)
  }

  /** The room drops the consumer of p: the live p is closed, its owner is closed, or any guest of the room asks
      to close it. */
  predicate Drops(calls: seq<Call>, i: nat, r: Id, c: Id, p: Id)
    requires i < |calls|
  {
    match calls[i]
    case CallCloseProducer(k, q) => q == p && Seat(calls, i, k) == Some(r) && Live(calls, i, r, p)
    case CallCloseConsumer(k, d) => d == c && Seat(calls, i, k) == Some(r) && Guest(calls, i, k).Some?
    case CallCloseClient(k) => Seat(calls, i, k) == Some(r) && Got(calls, i, k, c)
    case _ => false
  }

  /** The room lists the consumer, of producer p. */
  predicate Listed(calls: seq<Call>, i: nat, r: Id, c: Id, p: Id)
    requires i <= |calls|
  {
    i > 0 &&
    ((calls[i - 1].CallConsume? && Gets(calls, i - 1, calls[i - 1].k, r, c, p))
     || (Listed(calls, i - 1, r, c, p) && !Drops(calls, i - 1, r, c, p)))
  }

  /** The call closes the consumer: its owner asks for it or is closed, or its live producer is closed in the room
      that lists it. */
  predicate Closes(calls: seq<Call>, i: nat, c: Id)
    requires i < |calls|
  {
    match calls[i]
    case CallCloseProducer(k, p) =>
      Seat(calls, i, k).Some? && Live(calls, i, Seat(calls, i, k).value, p)
      && Listed(calls, i, Seat(calls, i, k).value, c, p)
    case CallCloseConsumer(k, d) => d == c && Got(calls, i, k, c)
    case CallCloseClient(k) => Got(calls, i, k, c)
    case _ => false
  }

  predicate Closed(calls: seq<Call>, i: nat, c: Id)
    requires i <= |calls|
  {
    i > 0 && (Closed(calls, i - 1, c) || Closes(calls, i - 1, c))
  }

  // ---------- the registries say the same ----------

  predicate ListedFor(s: Server, r: Id, c: Id, p: Id) {
    r in s.rooms && c in s.rooms[r].consumers && s.rooms[r].consumers[c] == p
  }

  predicate HasTransportIn(s: Server, r: Id, t: Id) {
    r in s.rooms && t in s.rooms[r].transports
  }

  ghost predicate SeatsTold(s: Server, calls: seq<Call>, i: nat)
    requires i <= |calls|
  {
    && (forall k: Id, r: Id :: Seat(calls, i, k) == Some(r) <==> In(s, k, r))
    && (forall k: Id, u: Id :: Guest(calls, i, k) == Some(u) <==> k in s.peers && s.peers[k].userId == u)
    && (forall k: Id :: Hears(calls, i, k) <==> k in s.online)
    && (forall r: Id, t: Id :: Opened(calls, i, r, t) <==> HasTransportIn(s, r, t))
  }

  ghost predicate ProducersTold(s: Server, calls: seq<Call>, i: nat)
    requires i <= |calls|
  {
    && (forall k: Id, p: Id :: Made(calls, i, k, p) <==> OwnsProducer(s, k, p))
    && (forall r: Id, p: Id :: Live(calls, i, r, p) <==> LiveIn(s, r, p))
  }

  ghost predicate ConsumersTold(s: Server, calls: seq<Call>, i: nat)
    requires i <= |calls|
  {
    && (forall k: Id, c: Id :: Got(calls, i, k, c) <==> OwnsConsumer(s, k, c))
    && (forall r: Id, c: Id, p: Id :: Listed(calls, i, r, c, p) <==> ListedFor(s, r, c, p))
    && (forall c: Id :: Closed(calls, i, c) <==> c in s.closedConsumers)
  }

  lemma SeatTold(s: Server, calls: seq<Call>, i: nat, k: Id, r: Id)
    requires i < |calls| && Agreement(s) && Allowed(s, calls[i]) && SeatsTold(s, calls, i)
    ensures Seat(calls, i + 1, k) == Some(r) <==> In(Handle(s, calls[i]), k, r)
  {
  }

  lemma GuestTold(s: Server, calls: seq<Call>, i: nat, k: Id, u: Id)
    requires i < |calls| && Agreement(s) && Allowed(s, calls[i]) && SeatsTold(s, calls, i)
    ensures var s' := Handle(s, calls[i]);
            Guest(calls, i + 1, k) == Some(u) <==> k in s'.peers && s'.peers[k].userId == u
  {
  }

  lemma HearsTold(s: Server, calls: seq<Call>, i: nat, k: Id)
    requires i < |calls| && Agreement(s) && Allowed(s, calls[i]) && SeatsTold(s, calls, i)
    ensures Hears(calls, i + 1, k) <==> k in Handle(s, calls[i]).online
  {
    assert k in s.peers ==> Guest(calls, i, k) == Some(s.peers[k].userId);
  }

  lemma OpenedTold(s: Server, calls: seq<Call>, i: nat, r: Id, t: Id)
    requires i < |calls| && Agreement(s) && Allowed(s, calls[i]) && SeatsTold(s, calls, i)
    ensures Opened(calls, i + 1, r, t) <==> HasTransportIn(Handle(s, calls[i]), r, t)
  {
    assert Opened(calls, i, r, t) <==> HasTransportIn(s, r, t);
    assert calls[i].CallTransport? ==> (Seat(calls, i, calls[i].k) == Some(r) <==> In(s, calls[i].k, r));
  }

  lemma MadeTold(s: Server, calls: seq<Call>, i: nat, k: Id, p: Id)
    requires i < |calls| && Agreement(s) && Allowed(s, calls[i]) && SeatsTold(s, calls, i) && ProducersTold(s, calls, i)
    ensures Made(calls, i + 1, k, p) <==> OwnsProducer(Handle(s, calls[i]), k, p)
  {
    assert Made(calls, i, k, p) <==> OwnsProducer(s, k, p);
    if k in s.peers { assert Guest(calls, i, k) == Some(s.peers[k].userId); }
    if k in s.current { assert Seat(calls, i, k) == Some(s.current[k]); }
  }

  lemma LiveTold(s: Server, calls: seq<Call>, i: nat, r: Id, p: Id)
    requires i < |calls| && Agreement(s) && Allowed(s, calls[i]) && SeatsTold(s, calls, i) && ProducersTold(s, calls, i)
    ensures Live(calls, i + 1, r, p) <==> LiveIn(Handle(s, calls[i]), r, p)
  {
    var k := calls[i].k;
    assert Live(calls, i, r, p) <==> LiveIn(s, r, p);
    assert Made(calls, i, k, p) <==> OwnsProducer(s, k, p);
    if k in s.peers { assert Guest(calls, i, k) == Some(s.peers[k].userId); }
    assert Seat(calls, i, k) == Some(r) <==> In(s, k, r);
  }

  lemma GotTold(s: Server, calls: seq<Call>, i: nat, k: Id, c: Id)
    requires i < |calls| && Agreement(s) && Allowed(s, calls[i])
    requires SeatsTold(s, calls, i) && ProducersTold(s, calls, i) && ConsumersTold(s, calls, i)
    ensures Got(calls, i + 1, k, c) <==> OwnsConsumer(Handle(s, calls[i]), k, c)
  {
    assert Got(calls, i, k, c) <==> OwnsConsumer(s, k, c);
    if k in s.current { assert Seat(calls, i, k) == Some(s.current[k]); }
  }

  lemma ListedTold(s: Server, calls: seq<Call>, i: nat, r: Id, c: Id, p: Id)
    requires i < |calls| && Agreement(s) && Allowed(s, calls[i])
    requires SeatsTold(s, calls, i) && ProducersTold(s, calls, i) && ConsumersTold(s, calls, i)
    ensures Listed(calls, i + 1, r, c, p) <==> ListedFor(Handle(s, calls[i]), r, c, p)
  {
    assert Listed(calls, i, r, c, p) <==> ListedFor(s, r, c, p);
    if calls[i].CallConsume? { GetsTold(s, calls, i, r, c, p); } else { DropsTold(s, calls, i, r, c, p); }
  }

  lemma GetsTold(s: Server, calls: seq<Call>, i: nat, r: Id, c: Id, p: Id)
    requires i < |calls| && Agreement(s) && Allowed(s, calls[i]) && calls[i].CallConsume?
    requires SeatsTold(s, calls, i) && ProducersTold(s, calls, i)
    ensures ListedFor(Handle(s, calls[i]), r, c, p) <==> Gets(calls, i, calls[i].k, r, c, p) || ListedFor(s, r, c, p)
  {
    var k := calls[i].k;
    assert Seat(calls, i, k) == Some(r) <==> In(s, k, r);
    assert Opened(calls, i, r, calls[i].transport) <==> HasTransportIn(s, r, calls[i].transport);
    assert Live(calls, i, r, p) <==> LiveIn(s, r, p);
  }

  lemma DropsTold(s: Server, calls: seq<Call>, i: nat, r: Id, c: Id, p: Id)
    requires i < |calls| && Agreement(s) && Allowed(s, calls[i]) && !calls[i].CallConsume?
    requires SeatsTold(s, calls, i) && ProducersTold(s, calls, i) && ConsumersTold(s, calls, i)
    ensures ListedFor(Handle(s, calls[i]), r, c, p) <==> ListedFor(s, r, c, p) && !Drops(calls, i, r, c, p)
  {
    var k := calls[i].k;
    assert Got(calls, i, k, c) <==> OwnsConsumer(s, k, c);
    assert Seat(calls, i, k) == Some(r) <==> In(s, k, r);
    assert Live(calls, i, r, p) <==> LiveIn(s, r, p);
    if k in s.peers { assert Guest(calls, i, k) == Some(s.peers[k].userId); }
  }

  lemma ClosedTold(s: Server, calls: seq<Call>, i: nat, c: Id)
    requires i < |calls| && Agreement(s) && Allowed(s, calls[i])
    requires SeatsTold(s, calls, i) && ProducersTold(s, calls, i) && ConsumersTold(s, calls, i)
    ensures Closed(calls, i + 1, c) <==> c in Handle(s, calls[i]).closedConsumers
  {
    var k := calls[i].k;
    assert Closed(calls, i, c) <==> c in s.closedConsumers;
    assert Got(calls, i, k, c) <==> OwnsConsumer(s, k, c);
    if k in s.current { assert Seat(calls, i, k) == Some(s.current[k]); }
  }

  lemma SeatsStayTold(s: Server, calls: seq<Call>, i: nat)
    requires i < |calls| && Agreement(s) && Allowed(s, calls[i]) && SeatsTold(s, calls, i)
    ensures SeatsTold(Handle(s, calls[i]), calls, i + 1)
  {
    var s' := Handle(s, calls[i]);
    forall k: Id, r: Id ensures Seat(calls, i + 1, k) == Some(r) <==> In(s', k, r) { SeatTold(s, calls, i, k, r); }
    forall k: Id, u: Id ensures Guest(calls, i + 1, k) == Some(u) <==> k in s'.peers && s'.peers[k].userId == u {
      GuestTold(s, calls, i, k, u);
    }
    forall k: Id ensures Hears(calls, i + 1, k) <==> k in s'.online { HearsTold(s, calls, i, k); }
    forall r: Id, t: Id ensures Opened(calls, i + 1, r, t) <==> HasTransportIn(s', r, t) {
      OpenedTold(s, calls, i, r, t);
    }
  }

  lemma ProducersStayTold(s: Server, calls: seq<Call>, i: nat)
    requires i < |calls| && Agreement(s) && Allowed(s, calls[i]) && SeatsTold(s, calls, i) && ProducersTold(s, calls, i)
    ensures ProducersTold(Handle(s, calls[i]), calls, i + 1)
  {
    var s' := Handle(s, calls[i]);
    forall k: Id, p: Id ensures Made(calls, i + 1, k, p) <==> OwnsProducer(s', k, p) { MadeTold(s, calls, i, k, p); }
    forall r: Id, p: Id ensures Live(calls, i + 1, r, p) <==> LiveIn(s', r, p) { LiveTold(s, calls, i, r, p); }
  }

  lemma ConsumersStayTold(s: Server, calls: seq<Call>, i: nat)
    requires i < |calls| && Agreement(s) && Allowed(s, calls[i])
    requires SeatsTold(s, calls, i) && ProducersTold(s, calls, i) && ConsumersTold(s, calls, i)
    ensures ConsumersTold(Handle(s, calls[i]), calls, i + 1)
  {
    var s' := Handle(s, calls[i]);
    forall k: Id, c: Id ensures Got(calls, i + 1, k, c) <==> OwnsConsumer(s', k, c) { GotTold(s, calls, i, k, c); }
    forall r: Id, c: Id, p: Id ensures Listed(calls, i + 1, r, c, p) <==> ListedFor(s', r, c, p) {
      ListedTold(s, calls, i, r, c, p);
    }
    forall c: Id ensures Closed(calls, i + 1, c) <==> c in s'.closedConsumers { ClosedTold(s, calls, i, c); }
  }

  /** In every run the seats, transports, producers and consumers of the registries, and the closed consumers, are
      exactly those the calls tell of. */
  lemma {:induction false} HistoryTells(states: seq<Server>, calls: seq<Call>, i: nat)
    requires IsRun(states, calls) && i < |states|
    ensures SeatsTold(states[i], calls, i) && ProducersTold(states[i], calls, i) && ConsumersTold(states[i], calls, i)
  {
    if i > 0 {
      HistoryTells(states, calls, i - 1);
      RunAgrees(states, calls, i - 1);
      SeatsStayTold(states[i - 1], calls, i - 1);
      ProducersStayTold(states[i - 1], calls, i - 1);
      ConsumersStayTold(states[i - 1], calls, i - 1);
    }
  }

  // ---------- closing a producer ----------

  /** Closing a producer closes every consumer the room lists for it, and no room lists one of them any more. Every
      other consumer stays as it was. */
  lemma CloseProducerTakesConsumers(s: Server, k: Id, p: Id, c: Id)
    requires Agreement(s) && HasRoom(s, k) && LiveIn(s, s.current[k], p)
    ensures var s' := CloseProducer(s, k, p);
            && (ListedFor(s, s.current[k], c, p) ==>
                  c in s'.closedConsumers && forall r: Id :: r in s'.rooms ==> c !in s'.rooms[r].consumers)
            && (!ListedFor(s, s.current[k], c, p) ==>
                  && (c in s'.closedConsumers <==> c in s.closedConsumers)
                  && forall r: Id, q: Id :: ListedFor(s', r, c, q) <==> ListedFor(s, r, c, q))
  {
    if ListedFor(s, s.current[k], c, p) {
      forall r: Id | r in s.rooms && c in s.rooms[r].consumers ensures r == s.current[k] {
        ConsumerHasOneRoom(s, r, s.current[k], c);
      }
    }
  }

  lemma ConsumerHasOneRoom(s: Server, q: Id, r: Id, c: Id)
    requires Agreement(s) && q in s.rooms && c in s.rooms[q].consumers && r in s.rooms && c in s.rooms[r].consumers
    ensures q == r
  {
    var k :| OwnsConsumer(s, k, c) && In(s, k, q);
    var l :| OwnsConsumer(s, l, c) && In(s, l, r);
    assert k == l;
  }

  /** A consumer still listed in the room although its producer is gone. */
  predicate Orphan(s: Server, r: Id, c: Id, p: Id) {
    ListedFor(s, r, c, p) && !LiveIn(s, r, p)
  }

  /** Some other peer consumes a producer of this one. */
  ghost predicate ConsumedByOthers(s: Server, k: Id) {
    exists r: Id, c: Id, p: Id ::
      In(s, k, r) && OwnsProducer(s, k, p) && ListedFor(s, r, c, p) && !OwnsConsumer(s, k, c)
  }

  ghost predicate NoOrphans(s: Server) {
    forall r: Id, c: Id, p: Id :: !Orphan(s, r, c, p)
  }

  lemma CloseClientKeepsNoOrphansIff(s: Server, k: Id)
    requires Agreement(s) && NoOrphans(s) && HasRoom(s, k)
    ensures NoOrphans(CloseClient(s, k)) <==> !ConsumedByOthers(s, k)
  {
    var s' := CloseClient(s, k);
    if ConsumedByOthers(s, k) {
      var r: Id, c: Id, p: Id :|
        In(s, k, r) && OwnsProducer(s, k, p) && ListedFor(s, r, c, p) && !OwnsConsumer(s, k, c);
      assert Orphan(s', r, c, p);
    } else {
      forall r: Id, c: Id, p: Id ensures !Orphan(s', r, c, p) {
        if Orphan(s', r, c, p) {
          assert !Orphan(s, r, c, p);
          assert In(s, k, r) && OwnsProducer(s, k, p) && ListedFor(s, r, c, p) && !OwnsConsumer(s, k, c);
          assert false;
        }
      }
    }
  }

  lemma OtherCallsMakeNoOrphan(s: Server, call: Call, r: Id, c: Id, p: Id)
    requires Agreement(s) && !Orphan(s, r, c, p) && Allowed(s, call) && !call.CallCloseClient?
    ensures !Orphan(Handle(s, call), r, c, p)
  {
    assert ListedFor(s, r, c, p) ==> LiveIn(s, r, p);
  }

  /** Of all calls only closing a client leaves consumers of dead producers in the room, exactly when others consume
      what it produced. */
  lemma HandleKeepsNoOrphansIff(s: Server, call: Call)
    requires Agreement(s) && NoOrphans(s) && Allowed(s, call)
    ensures NoOrphans(Handle(s, call)) <==> !(call.CallCloseClient? && ConsumedByOthers(s, call.k))
  {
    if call.CallCloseClient? {
      CloseClientKeepsNoOrphansIff(s, call.k);
    } else {
      forall r: Id, c: Id, p: Id ensures !Orphan(Handle(s, call), r, c, p) {
        OtherCallsMakeNoOrphan(s, call, r, c, p);
      }
    }
  }

  /** Over runs: as long as no client is closed, whatever a room lists consumes a live producer. */
  lemma {:induction false} NoOrphansBeforeAnyLeave(states: seq<Server>, calls: seq<Call>, i: nat)
    requires IsRun(states, calls) && i < |states| && forall j :: 0 <= j < i ==> !calls[j].CallCloseClient?
    ensures NoOrphans(states[i])
  {
    if i > 0 {
      NoOrphansBeforeAnyLeave(states, calls, i - 1);
      RunAgrees(states, calls, i - 1);
      HandleKeepsNoOrphansIff(states[i - 1], calls[i - 1]);
    }
  }

  /** It does happen: 1 leaves, and the consumer 2 has of its producer stays open and listed. */
  lemma LeavingOrphans()
    ensures exists states: seq<Server>, calls: seq<Call>, r: Id, c: Id, p: Id ::
              IsRun(states, calls) && Orphan(states[|calls|], r, c, p) && c !in states[|calls|].closedConsumers
  {
    var states, calls := ConsumingIsReached();
    var call, s := CallCloseClient(1), CloseClient(SAMPLE_CONSUMING, 1);
    RunExtends(states, calls, call);
    assert Orphan(s, 5, 40, 30) && 40 !in s.closedConsumers;
    assert (states + [s])[|calls + [call]|] == s;
  }

  // ---------- who hears ----------

  /** A broadcast of a socket goes to everybody else of its room who has neither left nor dropped, and to nobody
      else. */
  lemma OthersAreTheRestOfTheRoom(states: seq<Server>, calls: seq<Call>, i: nat, k: Id, o: Id)
    requires IsRun(states, calls) && i < |states| && k in states[i].current
    ensures o in Others(states[i], k) <==> o != k && Hears(calls, i, o) && Seat(calls, i, o) == Seat(calls, i, k)
  {
    var s := states[i];
    HistoryTells(states, calls, i);
    RunAgrees(states, calls, i);
    assert Seat(calls, i, k) == Some(s.current[k]) <==> In(s, k, s.current[k]);
    if o in s.current { assert Seat(calls, i, o) == Some(s.current[o]) <==> In(s, o, s.current[o]); }
  }
}
