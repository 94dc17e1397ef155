/** The websocket gateway: which sockets an event is emitted to, over connections that come and go and
    subscriber sets that only grow. */
module Gateway {
  import opened Common

  /** An event and the id of what it is about. */
  type Topic = (string, Id)

  /** The Redis keys all gateway nodes share. */
  datatype Store = Store(userSockets: map<Id, set<Id>>, socketNode: map<Id, Id>, subscribers: map<Topic, set<Id>>)

  /** A socket without a user header is turned away, but its disconnection still arrives. */
  datatype Action =
    | Connect(userId: Option<Id>, socketId: Id, nodeId: Id)
    | Disconnect(userId: Option<Id>, socketId: Id)
    | Subscribe(socketId: Id, subscriptions: seq<Topic>)

  function AddSubscriptions(subscribers: map<Topic, set<Id>>, s: Id, topics: seq<Topic>): map<Topic, set<Id>>
    decreases |topics|
  {
    if topics == [] then subscribers
    else AddSubscriptions(subscribers[topics[0] := SMembers(subscribers, topics[0]) + {s}], s, topics[1..])
  }

  function Step(st: Store, a: Action): Store {
    match a
    case Connect(u, s, n) =>
      if u.None? then st
      else st.(userSockets := st.userSockets[u.value := SMembers(st.userSockets, u.value) + {s}],
               socketNode := st.socketNode[s := n])
    case Disconnect(u, s) =>
      var sets := if u.None? then st.userSockets
                  else st.userSockets[u.value := SMembers(st.userSockets, u.value) - {s}];
      st.(userSockets := sets, socketNode := st.socketNode - {s})
    case Subscribe(s, topics) => st.(subscribers := AddSubscriptions(st.subscribers, s, topics))
  }

  function Exec(actions: seq<Action>): Store {
    if actions == [] then Store(map[], map[], map[])
    else Step(Exec(actions[..|actions| - 1]), actions[|actions| - 1])
  }

  // ---------- fan-out ----------

  /** `sockets` that live on this node. */
  function OnNode(st: Store, node: Id, sockets: set<Id>): set<Id> {
    set s | s in sockets && s in st.socketNode && st.socketNode[s] == node
  }

  /** The sockets an event for these users is emitted to, with how often. */
  function ToUsers(st: Store, node: Id, recipients: seq<Id>): multiset<Id> {
    if recipients == [] then multiset{}
    else multiset(OnNode(st, node, SMembers(st.userSockets, recipients[0]))) + ToUsers(st, node, recipients[1..])
  }

  /** The same for the subscribers of an event about each target. */
  function ToSubscribers(st: Store, node: Id, event: string, targets: seq<Id>): multiset<Id> {
    if targets == [] then multiset{}
    else
      multiset(OnNode(st, node, SMembers(st.subscribers, (event, targets[0]))))
      + ToSubscribers(st, node, event, targets[1..])
  }

  // ---------- what a run says, without looking at Redis ----------

  datatype Session = Gone | Live(userId: Id, nodeId: Id)

  /** The socket's session, if it is connected. */
  function SessionOf(actions: seq<Action>, s: Id): Session {
    if actions == [] then Gone
    else
      var earlier := SessionOf(actions[..|actions| - 1], s);
      match actions[|actions| - 1]
      case Connect(u, s', n) => if s' == s && u.Some? then Live(u.value, n) else earlier
      case Disconnect(_, s') => if s' == s then Gone else earlier
      case Subscribe(_, _) => earlier
  }

  predicate Used(actions: seq<Action>, s: Id) {
    exists i :: 0 <= i < |actions| && actions[i].Connect? && actions[i].socketId == s
  }

  predicate Subscribed(actions: seq<Action>, s: Id, topic: Topic) {
    exists i :: 0 <= i < |actions| && actions[i].Subscribe? && actions[i].socketId == s
        && topic in actions[i].subscriptions
  }

  /** Socket ids are fresh, and a socket disconnects under the user it connected with. */
  predicate IsRun(actions: seq<Action>) {
    actions == [] ||
    (var earlier, a := actions[..|actions| - 1], actions[|actions| - 1];
     && IsRun(earlier)
     && match a
        case Connect(_, s, _) => !Used(earlier, s)
        case Disconnect(u, s) =>
          if u.Some? then SessionOf(earlier, s).Live? && SessionOf(earlier, s).userId == u.value
          else SessionOf(earlier, s).Gone?
        case Subscribe(_, _) => true)
  }

  /** Redis says of every socket what the run says. */
  ghost predicate Mirrors(st: Store, s: Id, session: Session) {
    && (forall u: Id :: s in SMembers(st.userSockets, u) <==> session.Live? && session.userId == u)
    && (s in st.socketNode <==> session.Live?)
    && (session.Live? ==> s in st.socketNode && st.socketNode[s] == session.nodeId)
  }

  lemma {:induction false} UsedOnceLive(actions: seq<Action>, s: Id)
    ensures SessionOf(actions, s).Live? ==> Used(actions, s)
  {
    if actions != [] && SessionOf(actions, s).Live? {
      var earlier, a := actions[..|actions| - 1], actions[|actions| - 1];
      if a.Connect? && a.socketId == s {
        assert actions[|actions| - 1].Connect?;
      } else {
        UsedOnceLive(earlier, s);
        var i :| 0 <= i < |earlier| && earlier[i].Connect? && earlier[i].socketId == s;
        assert actions[i] == earlier[i];
      }
    }
  }

  lemma ConnectMirrors(st: Store, q: Id, session: Session, u: Id, s: Id, n: Id)
    requires Mirrors(st, q, session) && (q == s ==> session.Gone?)
    ensures Mirrors(Step(st, Connect(Some(u), s, n)), q, if q == s then Live(u, n) else session)
  {
    var st' := Step(st, Connect(Some(u), s, n));
    forall v: Id | v != u ensures SMembers(st'.userSockets, v) == SMembers(st.userSockets, v) {
    }
  }

  lemma DisconnectMirrors(st: Store, q: Id, session: Session, u: Option<Id>, s: Id)
    requires Mirrors(st, q, session)
    requires q == s ==> if u.Some? then session.Live? && session.userId == u.value else session.Gone?
    ensures Mirrors(Step(st, Disconnect(u, s)), q, if q == s then Gone else session)
  {
    var st' := Step(st, Disconnect(u, s));
    forall v: Id | u != Some(v) ensures SMembers(st'.userSockets, v) == SMembers(st.userSockets, v) {
    }
  }

  lemma {:induction false} RunMirrors(actions: seq<Action>, s: Id)
    requires IsRun(actions)
    ensures Mirrors(Exec(actions), s, SessionOf(actions, s))
  {
    if actions != [] {
      var earlier := actions[..|actions| - 1];
      RunMirrors(earlier, s);
      UsedOnceLive(earlier, s);
      match actions[|actions| - 1]
      case Connect(u, q, n) => if u.Some? { ConnectMirrors(Exec(earlier), s, SessionOf(earlier, s), u.value, q, n); }
      case Disconnect(u, q) => DisconnectMirrors(Exec(earlier), s, SessionOf(earlier, s), u, q);
      case Subscribe(_, _) =>
    }
  }

  lemma {:induction false} AddSubscriptionsSpec(subscribers: map<Topic, set<Id>>, s: Id, topics: seq<Topic>, q: Id,
    topic: Topic)
    ensures q in SMembers(AddSubscriptions(subscribers, s, topics), topic)
            <==> q in SMembers(subscribers, topic) || (q == s && topic in topics)
    decreases |topics|
  {
    if topics != [] {
      assert topics == [topics[0]] + topics[1..];
      AddSubscriptionsSpec(subscribers[topics[0] := SMembers(subscribers, topics[0]) + {s}], s, topics[1..], q, topic);
    }
  }

  /** Subscriber sets hold every socket that ever subscribed, whether or not it is still there. */
  lemma {:induction false} SubscribersOnlyGrow(actions: seq<Action>, s: Id, topic: Topic)
    ensures s in SMembers(Exec(actions).subscribers, topic) <==> Subscribed(actions, s, topic)
  {
    if actions != [] {
      var earlier, a := actions[..|actions| - 1], actions[|actions| - 1];
      SubscribersOnlyGrow(earlier, s, topic);
      if a.Subscribe? { AddSubscriptionsSpec(Exec(earlier).subscribers, a.socketId, a.subscriptions, s, topic); }
      if Subscribed(earlier, s, topic) {
        var i :| 0 <= i < |earlier| && earlier[i].Subscribe? && earlier[i].socketId == s
            && topic in earlier[i].subscriptions;
        assert actions[i] == earlier[i];
      }
      if Subscribed(actions, s, topic) {
        var i :| 0 <= i < |actions| && actions[i].Subscribe? && actions[i].socketId == s
            && topic in actions[i].subscriptions;
        if i < |earlier| { assert earlier[i] == actions[i]; }
      }
    }
  }

  // ---------- results ----------

  function Count(xs: seq<Id>, x: Id): nat {
    if xs == [] then 0 else (if xs[0] == x then 1 else 0) + Count(xs[1..], x)
  }

  lemma {:induction false} CountInDistinct(xs: seq<Id>, x: Id)
    requires Distinct(xs)
    ensures Count(xs, x) == if x in xs then 1 else 0
  {
    if xs != [] {
      assert xs == [xs[0]] + xs[1..];
      CountInDistinct(xs[1..], x);
      assert xs[0] !in xs[1..];
    }
  }

  lemma {:induction false} ToUsersSpec(st: Store, node: Id, recipients: seq<Id>, s: Id, session: Session)
    requires Mirrors(st, s, session)
    ensures ToUsers(st, node, recipients)[s]
            == if session.Live? && session.nodeId == node then Count(recipients, session.userId) else 0
  {
    if recipients != [] { ToUsersSpec(st, node, recipients[1..], s, session); }
  }

  /** Fan-out to users: in every run a socket gets the event once for each time its user is named if it is
      connected to this node, and otherwise never. */
  lemma UserFanOutIsExact(actions: seq<Action>, node: Id, recipients: seq<Id>, s: Id)
    requires IsRun(actions) && Distinct(recipients)
    ensures var session := SessionOf(actions, s);
            ToUsers(Exec(actions), node, recipients)[s]
            == if session.Live? && session.nodeId == node && session.userId in recipients then 1 else 0
  {
    var session := SessionOf(actions, s);
    RunMirrors(actions, s);
    ToUsersSpec(Exec(actions), node, recipients, s, session);
    if session.Live? { CountInDistinct(recipients, session.userId); }
  }

  /** How many of the targets the socket has subscribed to. */
  function Subscriptions(actions: seq<Action>, s: Id, event: string, targets: seq<Id>): nat {
    if targets == [] then 0
    else (if Subscribed(actions, s, (event, targets[0])) then 1 else 0) + Subscriptions(actions, s, event, targets[1..])
  }

  /** Fan-out to subscribers: a socket connected to this node gets the event once for each target it has
      subscribed to; every other socket, subscribed or not, gets nothing. */
  lemma {:induction false} SubscriberFanOutIsExact(actions: seq<Action>, node: Id, event: string, targets: seq<Id>,
    s: Id)
    requires IsRun(actions)
    ensures var session := SessionOf(actions, s);
            ToSubscribers(Exec(actions), node, event, targets)[s]
            == if session.Live? && session.nodeId == node then Subscriptions(actions, s, event, targets) else 0
  {
    if targets != [] {
      RunMirrors(actions, s);
      SubscribersOnlyGrow(actions, s, (event, targets[0]));
      SubscriberFanOutIsExact(actions, node, event, targets[1..], s);
    }
  }

  lemma {:induction false} GoneForGood(actions: seq<Action>, i: nat, s: Id)
    requires IsRun(actions) && i < |actions| && Used(actions[..i], s) && actions[i].Disconnect?
        && actions[i].socketId == s
    ensures SessionOf(actions, s).Gone?
    decreases |actions|
  {
    var earlier := actions[..|actions| - 1];
    if i < |earlier| {
      assert earlier[..i] == actions[..i];
      GoneForGood(earlier, i, s);
      StaysUsed(earlier, i, s);
    }
  }

  lemma StaysUsed(actions: seq<Action>, i: nat, s: Id)
    requires i <= |actions| && Used(actions[..i], s)
    ensures Used(actions, s)
  {
    var k :| 0 <= k < i && actions[..i][k].Connect? && actions[..i][k].socketId == s;
    assert actions[k].Connect?;
  }

  /** A removed socket is never chosen again by any node, whoever is addressed and whatever it subscribed to. */
  lemma RemovedNeverChosen(actions: seq<Action>, i: nat, s: Id, node: Id, recipients: seq<Id>, event: string,
    targets: seq<Id>)
    requires IsRun(actions) && i < |actions| && Used(actions[..i], s) && actions[i].Disconnect?
        && actions[i].socketId == s
    ensures s !in ToUsers(Exec(actions), node, recipients)
    ensures s !in ToSubscribers(Exec(actions), node, event, targets)
  {
    GoneForGood(actions, i, s);
    RunMirrors(actions, s);
    ToUsersSpec(Exec(actions), node, recipients, s, Gone);
    SubscriberFanOutIsExact(actions, node, event, targets, s);
  }

  lemma {:induction false} ToUsersAppend(st: Store, node: Id, us: seq<Id>, u: Id)
    ensures ToUsers(st, node, us + [u]) == ToUsers(st, node, us)
        + multiset(OnNode(st, node, SMembers(st.userSockets, u)))
  {
    if us == [] {
      assert [u][1..] == [];
    } else {
      assert (us + [u])[1..] == us[1..] + [u];
      ToUsersAppend(st, node, us[1..], u);
    }
  }

  lemma {:induction false} ToSubscribersAppend(st: Store, node: Id, event: string, ts: seq<Id>, t: Id)
    ensures ToSubscribers(st, node, event, ts + [t])
            == ToSubscribers(st, node, event, ts) + multiset(OnNode(st, node, SMembers(st.subscribers, (event, t))))
  {
    if ts == [] {
      assert [t][1..] == [];
    } else {
      assert (ts + [t])[1..] == ts[1..] + [t];
      ToSubscribersAppend(st, node, event, ts[1..], t);
    }
  }

  lemma {:induction false} AddSubscriptionsAppend(subscribers: map<Topic, set<Id>>, s: Id, topics: seq<Topic>,
    topic: Topic)
    ensures var before := AddSubscriptions(subscribers, s, topics);
            AddSubscriptions(subscribers, s, topics + [topic]) == before[topic := SMembers(before, topic) + {s}]
    decreases |topics|
  {
    if topics == [] {
      assert [topic][1..] == [];
    } else {
      assert (topics + [topic])[1..] == topics[1..] + [topic];
      AddSubscriptionsAppend(subscribers[topics[0] := SMembers(subscribers, topics[0]) + {s}], s, topics[1..], topic);
    }
  }

  lemma Regroup(a: multiset<Id>, b: multiset<Id>, c: multiset<Id>)
    ensures a + b + c == a + (b + c)
  {
  }

  // ---------- the gateway ----------

  class Node {
    const gatewayNodeId: Id
    var userSockets: map<Id, set<Id>>
    var socketNode: map<Id, Id>
    var subscribers: map<Topic, set<Id>>
    /** The sockets emitted to, in order. */
    var emitted: seq<Id>

    constructor (nodeId: Id)
      ensures gatewayNodeId == nodeId && Redis() == Exec([]) && emitted == []
    {
      gatewayNodeId := nodeId;
      userSockets, socketNode, subscribers, emitted := map[], map[], map[], [];
    }

    ghost function Redis(): Store
      reads this
    {
      Store(userSockets, socketNode, subscribers)
    }

    method HandleConnection(userId: Option<Id>, socketId: Id)
      modifies this
      ensures Redis() == Step(old(Redis()), Connect(userId, socketId, gatewayNodeId)) && emitted == old(emitted)
    {
      if userId.None? { return; }
      userSockets := userSockets[userId.value := SMembers(userSockets, userId.value) + {socketId}];
      socketNode := socketNode[socketId := gatewayNodeId];
    }

    method HandleDisconnect(userId: Option<Id>, socketId: Id)
      modifies this
      ensures Redis() == Step(old(Redis()), Disconnect(userId, socketId)) && emitted == old(emitted)
    {
      if userId.Some? {
        userSockets := userSockets[userId.value := SMembers(userSockets, userId.value) - {socketId}];
      }
      socketNode := socketNode - {socketId};
    }

    method SubscribeEvents(socketId: Id, subscriptions: seq<Topic>)
      modifies this
      ensures Redis() == Step(old(Redis()), Subscribe(socketId, subscriptions)) && emitted == old(emitted)
    {
      for i := 0 to |subscriptions|
        invariant subscribers == AddSubscriptions(old(subscribers), socketId, subscriptions[..i])
        invariant userSockets == old(userSockets) && socketNode == old(socketNode) && emitted == old(emitted)
      {
        assert subscriptions[..i + 1] == subscriptions[..i] + [subscriptions[i]];
        AddSubscriptionsAppend(old(subscribers), socketId, subscriptions[..i], subscriptions[i]);
        subscribers := subscribers[subscriptions[i] := SMembers(subscribers, subscriptions[i]) + {socketId}];
      }
      assert subscriptions[..|subscriptions|] == subscriptions;
    }

    /** The inner loop: each socket's node is looked up, and only this node's are emitted to. */
    method EmitTo(socketIds: set<Id>)
      modifies this`emitted
      ensures multiset(emitted) == multiset(old(emitted)) + multiset(OnNode(Redis(), gatewayNodeId, socketIds))
    {
      var rest := socketIds;
      while rest != {}
        invariant rest <= socketIds
        invariant multiset(emitted) == multiset(old(emitted))
            + multiset(OnNode(Redis(), gatewayNodeId, socketIds - rest))
        decreases |rest|
      {
        var socketId :| socketId in rest;
        ghost var done := OnNode(Redis(), gatewayNodeId, socketIds - rest);
        rest := rest - {socketId};
        assert socketIds - rest == socketIds - (rest + {socketId}) + {socketId};
        if socketId in socketNode && socketNode[socketId] == gatewayNodeId {
          emitted := emitted + [socketId];
          assert OnNode(Redis(), gatewayNodeId, socketIds - rest) == done + {socketId};
        } else {
          assert OnNode(Redis(), gatewayNodeId, socketIds - rest) == done;
        }
      }
      assert socketIds - {} == socketIds;
    }

    /** Messages, guild updates, rings, voice states, friend events: all fan out to recipients like this. */
    method HandleMessageReceived(recipients: seq<Id>)
      modifies this`emitted
      ensures multiset(emitted) == multiset(old(emitted)) + ToUsers(Redis(), gatewayNodeId, recipients)
    {
      ghost var st, before, reached := Redis(), multiset(emitted), multiset{};
      for i := 0 to |recipients|
        invariant Redis() == st && reached == ToUsers(st, gatewayNodeId, recipients[..i])
        invariant multiset(emitted) == before + reached
      {
        assert recipients[..i + 1] == recipients[..i] + [recipients[i]];
        ToUsersAppend(st, gatewayNodeId, recipients[..i], recipients[i]);
        ghost var more := multiset(OnNode(st, gatewayNodeId, SMembers(userSockets, recipients[i])));
        EmitTo(SMembers(userSockets, recipients[i]));
        Regroup(before, reached, more);
        reached := reached + more;
      }
      assert recipients[..|recipients|] == recipients;
    }

    /** Presence and profile updates fan out to the subscribers of each target. */
    method HandleBroadcast(event: string, targetIds: seq<Id>)
      modifies this`emitted
      ensures multiset(emitted) == multiset(old(emitted)) + ToSubscribers(Redis(), gatewayNodeId, event, targetIds)
    {
      ghost var st, before, reached := Redis(), multiset(emitted), multiset{};
      for i := 0 to |targetIds|
        invariant Redis() == st && reached == ToSubscribers(st, gatewayNodeId, event, targetIds[..i])
        invariant multiset(emitted) == before + reached
      {
        assert targetIds[..i + 1] == targetIds[..i] + [targetIds[i]];
        ToSubscribersAppend(st, gatewayNodeId, event, targetIds[..i], targetIds[i]);
        ghost var more := multiset(OnNode(st, gatewayNodeId, SMembers(subscribers, (event, targetIds[i]))));
        EmitTo(SMembers(subscribers, (event, targetIds[i])));
        Regroup(before, reached, more);
        reached := reached + more;
      }
      assert targetIds[..|targetIds|] == targetIds;
    }
  }
}
