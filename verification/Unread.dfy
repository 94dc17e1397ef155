/** Unread counters in Redis: bumped for each recipient of a message, zeroed by an acknowledgement. */
module Unread {
  import opened Common

  datatype Channel = Channel(isDM: bool, recipients: seq<Id>)

  type Channels = map<Id, Channel>

  /** User and channel. */
  type Key = (Id, Id)

  /** `unread` are the Redis counters, `readStates` the database's last-read rows. */
  datatype Store = Store(unread: map<Key, nat>, readStates: map<Key, Id>)

  /** `viewers` are the members a guild channel's bulk permission query returns, None if it throws, and
      `canView` is the permission check on a guild channel, both at the time of the step. */
  datatype Action =
    | MessageCreated(channelId: Id, senderId: Id, viewers: Option<seq<Id>>)
    | Acknowledge(userId: Id, channelId: Id, messageId: Id, canView: bool)

  /** `filter(userId => userId !== senderId)` */
  function WithoutSender(users: seq<Id>, senderId: Id): seq<Id> {
    if users == [] then []
    else (if users[0] != senderId then [users[0]] else []) + WithoutSender(users[1..], senderId)
  }

  /** Who the message is for. A query that throws leaves it for nobody. */
  function Audience(chs: Channels, a: Action): seq<Id>
    requires a.MessageCreated?
  {
    if a.channelId !in chs then []
    else if chs[a.channelId].isDM then chs[a.channelId].recipients
    else if a.viewers.Some? then a.viewers.value
    else []
  }

  function Value(unread: map<Key, nat>, k: Key): nat {
    if k in unread then unread[k] else 0
  }

  function Bump(unread: map<Key, nat>, recipients: seq<Id>, c: Id): map<Key, nat>
    decreases |recipients|
  {
    if recipients == [] then unread
    else Bump(unread[(recipients[0], c) := Value(unread, (recipients[0], c)) + 1], recipients[1..], c)
  }

  function AcknowledgeError(chs: Channels, a: Action): Option<Status>
    requires a.Acknowledge?
  {
    if a.channelId !in chs then Some(BadRequest)
    else if !chs[a.channelId].isDM && !a.canView then Some(Forbidden)
    else None
  }

  function Step(chs: Channels, s: Store, a: Action): Store {
    match a
    case MessageCreated(c, sender, _) => s.(unread := Bump(s.unread, WithoutSender(Audience(chs, a), sender), c))
    case Acknowledge(u, c, m, _) =>
      if AcknowledgeError(chs, a).Some? then s
      else Store(s.unread[(u, c) := 0], s.readStates[(u, c) := m])
  }

  function Exec(chs: Channels, actions: seq<Action>): Store {
    if actions == [] then Store(map[], map[])
    else Step(chs, Exec(chs, actions[..|actions| - 1]), actions[|actions| - 1])
  }

  /** A user is a recipient of a channel, or a member of its guild, once. */
  ghost predicate AudiencesDistinct(chs: Channels, actions: seq<Action>) {
    forall i :: 0 <= i < |actions| && actions[i].MessageCreated? ==> Distinct(Audience(chs, actions[i]))
  }

  // ---------- what the run says, without looking at the counters ----------

  /** A message by somebody else that reaches u in c. */
  predicate Reaches(chs: Channels, a: Action, u: Id, c: Id) {
    a.MessageCreated? && a.channelId == c && a.senderId != u && u in Audience(chs, a)
  }

  predicate Clears(chs: Channels, a: Action, u: Id, c: Id) {
    a.Acknowledge? && a.userId == u && a.channelId == c && AcknowledgeError(chs, a).None?
  }

  /** How many messages have reached u in c since u's last acknowledgement. */
  function Waiting(chs: Channels, actions: seq<Action>, u: Id, c: Id): nat {
    if actions == [] then 0
    else
      var earlier, a := actions[..|actions| - 1], actions[|actions| - 1];
      if Clears(chs, a, u, c) then 0
      else Waiting(chs, earlier, u, c) + if Reaches(chs, a, u, c) then 1 else 0
  }

  /** The message of u's last acknowledgement in c that was let through. */
  function LastRead(chs: Channels, actions: seq<Action>, u: Id, c: Id): Option<Id> {
    if actions == [] then None
    else
      var earlier, a := actions[..|actions| - 1], actions[|actions| - 1];
      match a
      case Acknowledge(v, d, m, canView) =>
        if v == u && d == c && c in chs && (chs[c].isDM || canView) then Some(m) else LastRead(chs, earlier, u, c)
      case MessageCreated(_, _, _) => LastRead(chs, earlier, u, c)
  }

  // ---------- results ----------

  /** The last-read row is the last message the user acknowledged while allowed to. */
  lemma {:induction false} RowIsLastRead(chs: Channels, actions: seq<Action>, u: Id, c: Id)
    ensures var rows := Exec(chs, actions).readStates;
            LastRead(chs, actions, u, c) == if (u, c) in rows then Some(rows[(u, c)]) else None
  {
    if actions != [] { RowIsLastRead(chs, actions[..|actions| - 1], u, c); }
  }

  /** An acknowledgement is a bad request without the channel, forbidden to whoever may not view it, and otherwise
      accepted. */
  lemma AcknowledgeAnswers(chs: Channels, u: Id, c: Id, m: Id, canView: bool)
    ensures var error := AcknowledgeError(chs, Acknowledge(u, c, m, canView));
            && (error == Some(BadRequest) <==> c !in chs)
            && (error == Some(Forbidden) <==> c in chs && !chs[c].isDM && !canView)
            && (error == None <==> c in chs && (chs[c].isDM || canView))
  {
  }

  lemma {:induction false} WithoutSenderSpec(users: seq<Id>, sender: Id)
    requires Distinct(users)
    ensures Distinct(WithoutSender(users, sender))
    ensures forall u :: u in WithoutSender(users, sender) <==> u in users && u != sender
  {
    if users != [] {
      assert users == [users[0]] + users[1..];
      WithoutSenderSpec(users[1..], sender);
      assert users[0] !in users[1..];
    }
  }

  /** Each recipient's counter goes up by one, no other counter moves. */
  lemma {:induction false} BumpSpec(unread: map<Key, nat>, recipients: seq<Id>, c: Id, k: Key)
    requires Distinct(recipients)
    ensures var bumped := k.1 == c && k.0 in recipients;
            && Value(Bump(unread, recipients, c), k) == Value(unread, k) + (if bumped then 1 else 0)
            && (k in Bump(unread, recipients, c) <==> k in unread || bumped)
    decreases |recipients|
  {
    if recipients != [] {
      assert recipients == [recipients[0]] + recipients[1..];
      assert recipients[0] !in recipients[1..];
      BumpSpec(unread[(recipients[0], c) := Value(unread, (recipients[0], c)) + 1], recipients[1..], c, k);
    }
  }

  /** The counter is a trace count: it holds exactly the messages by others that have reached the user since
      the last acknowledgement. */
  lemma {:induction false} CounterIsTraceCount(chs: Channels, actions: seq<Action>, u: Id, c: Id)
    requires AudiencesDistinct(chs, actions)
    ensures Value(Exec(chs, actions).unread, (u, c)) == Waiting(chs, actions, u, c)
  {
    if actions != [] {
      var earlier, a := actions[..|actions| - 1], actions[|actions| - 1];
      assert forall i :: 0 <= i < |earlier| ==> earlier[i] == actions[i];
      CounterIsTraceCount(chs, earlier, u, c);
      if a.MessageCreated? {
        WithoutSenderSpec(Audience(chs, a), a.senderId);
        BumpSpec(Exec(chs, earlier).unread, WithoutSender(Audience(chs, a), a.senderId), a.channelId, (u, c));
      }
    }
  }

  /** A sender's own messages never count: with no message by anyone else there is nothing unread. */
  lemma {:induction false} OwnMessagesNeverCount(chs: Channels, actions: seq<Action>, u: Id, c: Id)
    requires AudiencesDistinct(chs, actions)
    requires forall i :: 0 <= i < |actions| && actions[i].MessageCreated? && actions[i].channelId == c ==>
        actions[i].senderId == u
    ensures Value(Exec(chs, actions).unread, (u, c)) == 0
  {
    CounterIsTraceCount(chs, actions, u, c);
    NothingWaiting(chs, actions, u, c);
  }

  lemma {:induction false} NothingWaiting(chs: Channels, actions: seq<Action>, u: Id, c: Id)
    requires forall i :: 0 <= i < |actions| ==> !Reaches(chs, actions[i], u, c)
    ensures Waiting(chs, actions, u, c) == 0
  {
    if actions != [] { NothingWaiting(chs, actions[..|actions| - 1], u, c); }
  }

  /** A user with a last-read row always has a counter, so the fallback that would count through the message
      service is never taken. */
  lemma {:induction false} RowsHaveCounters(chs: Channels, actions: seq<Action>)
    requires AudiencesDistinct(chs, actions)
    ensures forall k: Key :: k in Exec(chs, actions).readStates ==> k in Exec(chs, actions).unread
  {
    if actions != [] {
      var earlier, a := actions[..|actions| - 1], actions[|actions| - 1];
      assert forall i :: 0 <= i < |earlier| ==> earlier[i] == actions[i];
      RowsHaveCounters(chs, earlier);
      if a.MessageCreated? {
        WithoutSenderSpec(Audience(chs, a), a.senderId);
        forall k: Key | k in Exec(chs, earlier).unread ensures k in Exec(chs, actions).unread {
          BumpSpec(Exec(chs, earlier).unread, WithoutSender(Audience(chs, a), a.senderId), a.channelId, k);
        }
      }
    }
  }

  lemma {:induction false} BumpAppend(unread: map<Key, nat>, us: seq<Id>, u: Id, c: Id)
    ensures var before := Bump(unread, us, c);
            Bump(unread, us + [u], c) == before[(u, c) := Value(before, (u, c)) + 1]
    decreases |us|
  {
    if us == [] {
      assert [u][1..] == [];
    } else {
      assert (us + [u])[1..] == us[1..] + [u];
      BumpAppend(unread[(us[0], c) := Value(unread, (us[0], c)) + 1], us[1..], u, c);
    }
  }

  lemma {:induction false} WithoutSenderAppend(us: seq<Id>, u: Id, sender: Id)
    ensures WithoutSender(us + [u], sender) == WithoutSender(us, sender) + if u != sender then [u] else []
  {
    if us == [] {
      assert us + [u] == [u] && [u][1..] == [] && WithoutSender([], sender) == [];
    } else {
      var first, last := if us[0] != sender then [us[0]] else [], if u != sender then [u] else [];
      assert (us + [u])[0] == us[0] && (us + [u])[1..] == us[1..] + [u];
      WithoutSenderAppend(us[1..], u, sender);
      assert first + (WithoutSender(us[1..], sender) + last) == first + WithoutSender(us[1..], sender) + last;
    }
  }

  // ---------- the service ----------

  class Service {
    const channels: Channels
    var unread: map<Key, nat>
    var readStates: map<Key, Id>

    constructor (channels: Channels)
      ensures this.channels == channels && Contents() == Exec(channels, []) && Valid()
    {
      this.channels := channels;
      unread, readStates := map[], map[];
    }

    ghost function Contents(): Store
      reads this
    {
      Store(unread, readStates)
    }

    /** As long as Redis loses nothing, whoever has a last-read row has a counter. */
    ghost predicate Valid()
      reads this
    {
      forall k: Key :: k in readStates ==> k in unread
    }

    /** Returns who is then told about the message; `throws` when the bulk query did, and nobody is. */
    method OnMessageCreated(channelId: Id, senderId: Id, viewers: Option<seq<Id>>)
      returns (recipients: seq<Id>, throws: bool)
      requires Valid()
      modifies this`unread
      ensures Valid()
      ensures Contents() == Step(channels, old(Contents()), MessageCreated(channelId, senderId, viewers))
      ensures recipients == WithoutSender(Audience(channels, MessageCreated(channelId, senderId, viewers)), senderId)
      ensures throws == (channelId in channels && !channels[channelId].isDM && viewers.None?)
    {
      recipients := [];
      if channelId !in channels { return [], false; }
      if !channels[channelId].isDM && viewers.None? { return [], true; }
      var users := if channels[channelId].isDM then channels[channelId].recipients else viewers.value;
      for i := 0 to |users|
        invariant recipients == WithoutSender(users[..i], senderId)
        invariant Contents() == old(Contents())
      {
        assert users[..i + 1] == users[..i] + [users[i]];
        WithoutSenderAppend(users[..i], users[i], senderId);
        if users[i] != senderId { recipients := recipients + [users[i]]; }
      }
      assert users[..|users|] == users;
      for i := 0 to |recipients|
        invariant unread == Bump(old(unread), recipients[..i], channelId)
        invariant Valid()
      {
        assert recipients[..i + 1] == recipients[..i] + [recipients[i]];
        BumpAppend(old(unread), recipients[..i], recipients[i], channelId);
        var key := (recipients[i], channelId);
        var unreadCount := 1;
        if key in unread { unreadCount := unreadCount + unread[key]; }
        unread := unread[key := unreadCount];
      }
      assert recipients[..|recipients|] == recipients;
      throws := false;
    }

    method AcknowledgeMessage(userId: Id, channelId: Id, messageId: Id, canView: bool) returns (error: Option<Status>)
      requires Valid()
      modifies this
      ensures Valid()
      ensures var a := Acknowledge(userId, channelId, messageId, canView);
              Contents() == Step(channels, old(Contents()), a) && error == AcknowledgeError(channels, a)
    {
      if channelId !in channels {
        return Some(BadRequest);
      }
      if !channels[channelId].isDM && !canView {
        return Some(Forbidden);
      }
      readStates := readStates[(userId, channelId) := messageId];
      unread := unread[(userId, channelId) := 0];
      error := None;
    }

    /** The count a client is shown. */
    method GetUserChannelState(userId: Id, channelId: Id) returns (unreadCount: nat)
      requires Valid()
      ensures unreadCount == Value(unread, (userId, channelId))
    {
      var key := (userId, channelId);
      if key !in unread {
        if key in readStates {
          assert false;
        } else {
          unreadCount := 0;
        }
      } else {
        unreadCount := unread[key];
      }
    }
  }
}
