/** Who is typing: entries under joined keys, each with a timer that is cleared and armed again. */
module Typing {

  const TYPING_TIMEOUT: nat := 10000

  /** A uuid as text. The joined key is only unambiguous when channel ids all have the same length. */
  const ID_LENGTH: nat := 36

  type TimeoutId = nat

  datatype TypingUser = TypingUser(userId: string, channelId: string, timeoutId: TimeoutId)

  /** A pending timeout and the arguments its callback will pass to `handleTypingStop`. */
  datatype Timeout = Timeout(due: nat, channelId: string, userId: string)

  datatype State = State(typingUsers: map<string, TypingUser>, timeouts: map<TimeoutId, Timeout>,
                         next: TimeoutId, now: nat)

  function ToMapKey(channelId: string, userId: string): string {
    channelId + "-" + userId
  }

  lemma KeyIsInjective(c: string, u: string, d: string, v: string)
    requires |c| == |d| && ToMapKey(c, u) == ToMapKey(d, v)
    ensures c == d && u == v
  {
    var k := ToMapKey(c, u);
    assert k[..|c|] == c && k[|c| + 1..] == u;
    assert ToMapKey(d, v)[..|d|] == d && ToMapKey(d, v)[|d| + 1..] == v;
  }

  /** Without a fixed length two users can share a key. */
  lemma KeyIsNotInjectiveInGeneral()
    ensures ToMapKey("a-b", "c") == ToMapKey("a", "b-c")
  {
    assert "a-b" + "-" + "c" == "a" + "-" + "b-c";
  }

  function Start(s: State, c: string, u: string): State {
    var key := ToMapKey(c, u);
    var cleared := if key in s.typingUsers then s.timeouts - {s.typingUsers[key].timeoutId} else s.timeouts;
    s.(typingUsers := s.typingUsers[key := TypingUser(u, c, s.next)],
       timeouts := cleared[s.next := Timeout(s.now + TYPING_TIMEOUT, c, u)],
       next := s.next + 1)
  }

  function Stop(s: State, c: string, u: string): State {
    var key := ToMapKey(c, u);
    if key !in s.typingUsers then s
    else s.(typingUsers := s.typingUsers - {key}, timeouts := s.timeouts - {s.typingUsers[key].timeoutId})
  }

  /** `Message` is a message arriving, which ends its sender's typing. */
  datatype Action =
    | Typed(channelId: string, userId: string)
    | Message(channelId: string, userId: string)
    | Wait(ms: nat)
    | Fire(timeoutId: TimeoutId)

  predicate Enabled(s: State, a: Action) {
    match a
    case Typed(c, _) => |c| == ID_LENGTH
    case Message(c, _) => |c| == ID_LENGTH
    case Wait(_) => true
    case Fire(t) => t in s.timeouts && s.timeouts[t].due <= s.now
  }

  function Step(s: State, a: Action): State {
    match a
    case Typed(c, u) => Start(s, c, u)
    case Message(c, u) => Stop(s, c, u)
    case Wait(ms) => s.(now := s.now + ms)
    case Fire(t) =>
      if t !in s.timeouts then s
      else Stop(s.(timeouts := s.timeouts - {t}), s.timeouts[t].channelId, s.timeouts[t].userId)
  }

  function Exec(actions: seq<Action>): State {
    if actions == [] then State(map[], map[], 0, 0)
    else Step(Exec(actions[..|actions| - 1]), actions[|actions| - 1])
  }

  predicate IsRun(actions: seq<Action>) {
    actions == [] ||
    (IsRun(actions[..|actions| - 1]) && Enabled(Exec(actions[..|actions| - 1]), actions[|actions| - 1]))
  }

  // ---------- what the run says, without looking at the store ----------

  function Elapsed(actions: seq<Action>): nat {
    if actions == [] then 0
    else Elapsed(actions[..|actions| - 1]) + if actions[|actions| - 1].Wait? then actions[|actions| - 1].ms else 0
  }

  datatype Moment = Never | At(time: nat)

  /** When u last started typing in c, if no message from u has arrived there since. */
  function LastStart(actions: seq<Action>, c: string, u: string): Moment {
    if actions == [] then Never
    else
      var earlier := actions[..|actions| - 1];
      match actions[|actions| - 1]
      case Typed(d, v) => if d == c && v == u then At(Elapsed(earlier)) else LastStart(earlier, c, u)
      case Message(d, v) => if d == c && v == u then Never else LastStart(earlier, c, u)
      case _ => LastStart(earlier, c, u)
  }

  predicate IsUserTyping(s: State, c: string, u: string) {
    ToMapKey(c, u) in s.typingUsers
  }

  // ---------- invariants ----------

  /** Pending timers and entries are in bijection. */
  ghost predicate Paired(s: State) {
    && (forall k :: k in s.typingUsers ==>
          var e := s.typingUsers[k];
          && k == ToMapKey(e.channelId, e.userId) && |e.channelId| == ID_LENGTH
          && e.timeoutId in s.timeouts
          && s.timeouts[e.timeoutId].channelId == e.channelId && s.timeouts[e.timeoutId].userId == e.userId)
    && (forall t :: t in s.timeouts ==>
          var key := ToMapKey(s.timeouts[t].channelId, s.timeouts[t].userId);
          t < s.next && key in s.typingUsers && s.typingUsers[key].timeoutId == t)
  }

  lemma StartPaired(s: State, c: string, u: string)
    requires Paired(s) && |c| == ID_LENGTH
    ensures Paired(Start(s, c, u))
  {
    var s' := Start(s, c, u);
    var key := ToMapKey(c, u);
    forall t | t in s'.timeouts && t != s.next
      ensures ToMapKey(s.timeouts[t].channelId, s.timeouts[t].userId) != key
    {
    }
  }

  lemma StopPaired(s: State, c: string, u: string)
    requires Paired(s)
    ensures Paired(Stop(s, c, u))
  {
    var s' := Stop(s, c, u);
    forall k | k in s'.typingUsers
      ensures s.typingUsers[k].timeoutId in s'.timeouts
    {
    }
  }

  /** A timer that fires finds its own entry, never one a later start refreshed. */
  lemma FireIsStop(s: State, t: TimeoutId)
    requires Paired(s) && t in s.timeouts
    ensures Step(s, Fire(t)) == Stop(s, s.timeouts[t].channelId, s.timeouts[t].userId)
    ensures s.typingUsers[ToMapKey(s.timeouts[t].channelId, s.timeouts[t].userId)].timeoutId == t
    ensures s.timeouts.Keys - Step(s, Fire(t)).timeouts.Keys == {t}
  {
    assert s.timeouts - {t} - {t} == s.timeouts - {t};
  }

  lemma StartKeepsPairs(s: State, c: string, u: string)
    ensures Paired(s) && |c| == ID_LENGTH ==> Paired(Start(s, c, u))
  {
    if Paired(s) && |c| == ID_LENGTH { StartPaired(s, c, u); }
  }

  lemma StopKeepsPairs(s: State, c: string, u: string)
    ensures Paired(s) ==> Paired(Stop(s, c, u))
  {
    if Paired(s) { StopPaired(s, c, u); }
  }

  lemma FireKeepsPairs(s: State, t: TimeoutId)
    requires t in s.timeouts
    ensures Paired(s) ==> Paired(Step(s, Fire(t)))
  {
    if Paired(s) {
      FireIsStop(s, t);
      StopPaired(s, s.timeouts[t].channelId, s.timeouts[t].userId);
    }
  }

  lemma {:induction false} RunPaired(actions: seq<Action>)
    requires IsRun(actions)
    ensures Paired(Exec(actions))
  {
    if actions != [] {
      var s := Exec(actions[..|actions| - 1]);
      RunPaired(actions[..|actions| - 1]);
      match actions[|actions| - 1]
      case Typed(c, u) => StartPaired(s, c, u);
      case Message(c, u) => StopPaired(s, c, u);
      case Wait(_) =>
      case Fire(t) => FireIsStop(s, t); StopPaired(s, s.timeouts[t].channelId, s.timeouts[t].userId);
    }
  }

  lemma {:induction false} ClockIsElapsed(actions: seq<Action>)
    ensures Exec(actions).now == Elapsed(actions)
  {
    if actions != [] { ClockIsElapsed(actions[..|actions| - 1]); }
  }

  /** The store's view of one user in one channel: an entry due a timeout after the last start, or no
      entry and a last start, if any, at least a timeout old. */
  ghost predicate Reflects(s: State, c: string, u: string, last: Moment) {
    var key := ToMapKey(c, u);
    if key in s.typingUsers then
      && last.At? && s.typingUsers[key].timeoutId in s.timeouts
      && s.timeouts[s.typingUsers[key].timeoutId].due == last.time + TYPING_TIMEOUT
    else
      last.At? ==> last.time + TYPING_TIMEOUT <= s.now
  }

  lemma StartReflects(s: State, d: string, v: string, c: string, u: string, last: Moment)
    requires Paired(s) && |c| == ID_LENGTH && |d| == ID_LENGTH && Reflects(s, c, u, last)
    ensures Reflects(Start(s, d, v), c, u, if d == c && v == u then At(s.now) else last)
  {
    if ToMapKey(d, v) == ToMapKey(c, u) {
      KeyIsInjective(d, v, c, u);
    } else if ToMapKey(c, u) in s.typingUsers {
      var t := s.typingUsers[ToMapKey(c, u)].timeoutId;
      assert s.typingUsers[ToMapKey(s.timeouts[t].channelId, s.timeouts[t].userId)].timeoutId == t;
    }
  }

  lemma StopReflects(s: State, d: string, v: string, c: string, u: string, last: Moment)
    requires Paired(s) && |c| == ID_LENGTH && |d| == ID_LENGTH && Reflects(s, c, u, last)
    ensures Reflects(Stop(s, d, v), c, u, if d == c && v == u then Never else last)
  {
    if ToMapKey(d, v) == ToMapKey(c, u) { KeyIsInjective(d, v, c, u); }
  }

  lemma FireReflects(s: State, t: TimeoutId, c: string, u: string, last: Moment)
    requires Paired(s) && |c| == ID_LENGTH && t in s.timeouts && s.timeouts[t].due <= s.now && Reflects(s, c, u, last)
    ensures Reflects(Step(s, Fire(t)), c, u, last)
  {
    FireIsStop(s, t);
    var d, v := s.timeouts[t].channelId, s.timeouts[t].userId;
    if ToMapKey(d, v) == ToMapKey(c, u) {
    } else {
      StopReflects(s, d, v, c, u, last);
    }
  }

  lemma {:induction false} RunReflects(actions: seq<Action>, c: string, u: string)
    requires IsRun(actions) && |c| == ID_LENGTH
    ensures Reflects(Exec(actions), c, u, LastStart(actions, c, u))
  {
    if actions != [] {
      var earlier := actions[..|actions| - 1];
      var s, last := Exec(earlier), LastStart(earlier, c, u);
      RunReflects(earlier, c, u);
      RunPaired(earlier);
      ClockIsElapsed(earlier);
      match actions[|actions| - 1]
      case Typed(d, v) => StartReflects(s, d, v, c, u, last);
      case Message(d, v) => StopReflects(s, d, v, c, u, last);
      case Wait(_) =>
      case Fire(t) => FireReflects(s, t, c, u, last);
    }
  }

  // ---------- results ----------

  /** Every due timer has fired. */
  ghost predicate Settled(s: State) {
    forall t :: t in s.timeouts ==> s.timeouts[t].due > s.now
  }

  /** In every run, once the due timers have fired, u shows as typing in c exactly when its last start is
      less than the timeout old and no message has ended it. */
  lemma TypingIsTheRecentPast(actions: seq<Action>, c: string, u: string)
    requires IsRun(actions) && |c| == ID_LENGTH && Settled(Exec(actions))
    ensures IsUserTyping(Exec(actions), c, u)
            <==> (var last := LastStart(actions, c, u); last.At? && Elapsed(actions) < last.time + TYPING_TIMEOUT)
  {
    RunReflects(actions, c, u);
    ClockIsElapsed(actions);
  }

  /** Even with timers that fire late, nobody who started typing less than the timeout ago is dropped, and
      nobody shows whose timer is not pending. */
  lemma LateTimersOnlyLinger(actions: seq<Action>, c: string, u: string)
    requires IsRun(actions) && |c| == ID_LENGTH
    ensures var s, last := Exec(actions), LastStart(actions, c, u);
            IsUserTyping(s, c, u) <==>
              last.At? && (Elapsed(actions) < last.time + TYPING_TIMEOUT
                           || exists t :: t in s.timeouts && s.timeouts[t] == Timeout(last.time + TYPING_TIMEOUT, c, u))
  {
    var s, last := Exec(actions), LastStart(actions, c, u);
    RunReflects(actions, c, u);
    RunPaired(actions);
    ClockIsElapsed(actions);
    if IsUserTyping(s, c, u) {
      var e := s.typingUsers[ToMapKey(c, u)];
      KeyIsInjective(e.channelId, e.userId, c, u);
      assert s.timeouts[e.timeoutId] == Timeout(last.time + TYPING_TIMEOUT, c, u);
    }
  }

  // ---------- listing a channel ----------

  /** The filter over the entries, in whatever order the Map yields them. */
  method Filter(ghost s: State, entries: map<string, TypingUser>, channelId: string) returns (users: seq<TypingUser>)
    requires Paired(s) && entries == s.typingUsers
    ensures Lists(entries, entries.Keys, channelId, users)
  {
    users := [];
    var rest := entries.Keys;
    while rest != {}
      invariant rest <= entries.Keys
      invariant Lists(entries, entries.Keys - rest, channelId, users)
      decreases |rest|
    {
      var k :| k in rest;
      ListOneMore(s, entries.Keys - rest, channelId, users, k);
      assert entries.Keys - (rest - {k}) == entries.Keys - rest + {k};
      if entries[k].channelId == channelId {
        users := users + [entries[k]];
      }
      rest := rest - {k};
    }
    assert entries.Keys - {} == entries.Keys;
  }

  ghost predicate InChannel(entries: map<string, TypingUser>, keys: set<string>, c: string, e: TypingUser) {
    e.channelId == c && exists k :: k in keys && k in entries && entries[k] == e
  }

  /** `users` are the entries under `keys` that belong to the channel, no user twice. */
  ghost predicate Lists(entries: map<string, TypingUser>, keys: set<string>, c: string, users: seq<TypingUser>) {
    && (forall e :: e in users <==> InChannel(entries, keys, c, e))
    && (forall i, j :: 0 <= i < j < |users| ==> users[i].userId != users[j].userId)
  }

  lemma ListOneMore(s: State, keys: set<string>, c: string, users: seq<TypingUser>, k: string)
    requires Paired(s) && Lists(s.typingUsers, keys, c, users) && k in s.typingUsers && k !in keys
    ensures var e := s.typingUsers[k];
            Lists(s.typingUsers, keys + {k}, c, if e.channelId == c then users + [e] else users)
  {
    var e := s.typingUsers[k];
    var users' := if e.channelId == c then users + [e] else users;
    forall x ensures x in users' <==> InChannel(s.typingUsers, keys + {k}, c, x) {
      if InChannel(s.typingUsers, keys + {k}, c, x) && !InChannel(s.typingUsers, keys, c, x) {
        assert x == e;
      }
    }
    forall x | x in users && e.channelId == c ensures x.userId != e.userId {
      assert InChannel(s.typingUsers, keys, c, x);
    }
  }

  lemma ListedAreTyping(s: State, c: string, users: seq<TypingUser>)
    requires Paired(s) && |c| == ID_LENGTH && Lists(s.typingUsers, s.typingUsers.Keys, c, users)
    ensures forall u :: (exists e :: e in users && e.userId == u) <==> IsUserTyping(s, c, u)
  {
    forall u ensures (exists e :: e in users && e.userId == u) <==> IsUserTyping(s, c, u) {
      if IsUserTyping(s, c, u) {
        var e := s.typingUsers[ToMapKey(c, u)];
        KeyIsInjective(e.channelId, e.userId, c, u);
        assert InChannel(s.typingUsers, s.typingUsers.Keys, c, e);
      }
      if e :| e in users && e.userId == u {
        assert InChannel(s.typingUsers, s.typingUsers.Keys, c, e);
      }
    }
  }

  // ---------- the store ----------

  class UserTypingStore {
    var typingUsers: map<string, TypingUser>
    var timeouts: map<TimeoutId, Timeout>
    var next: TimeoutId
    var now: nat

    constructor ()
      ensures Contents() == Exec([]) && Valid()
    {
      typingUsers, timeouts, next, now := map[], map[], 0, 0;
    }

    ghost predicate Valid()
      reads this
    {
      Paired(Contents())
    }

    ghost function Contents(): State
      reads this
    {
      State(typingUsers, timeouts, next, now)
    }

    method SetTimeout(channelId: string, userId: string) returns (id: TimeoutId)
      modifies this`timeouts, this`next
      ensures id == old(next) && next == id + 1
      ensures timeouts == old(timeouts)[id := Timeout(now + TYPING_TIMEOUT, channelId, userId)]
    {
      id := next;
      next := next + 1;
      timeouts := timeouts[id := Timeout(now + TYPING_TIMEOUT, channelId, userId)];
    }

    method HandleTypingStart(channelId: string, userId: string)
      modifies this
      ensures Contents() == Start(old(Contents()), channelId, userId)
      ensures old(Valid()) && |channelId| == ID_LENGTH ==> Valid()
    {
      ghost var before := Contents();
      var key := ToMapKey(channelId, userId);
      if key in typingUsers {
        timeouts := timeouts - {typingUsers[key].timeoutId};
      }
      var id := SetTimeout(channelId, userId);
      typingUsers := typingUsers[key := TypingUser(userId, channelId, id)];
      StartKeepsPairs(before, channelId, userId);
    }

    method HandleTypingStop(channelId: string, userId: string)
      modifies this
      ensures Contents() == Stop(old(Contents()), channelId, userId)
      ensures old(Valid()) ==> Valid()
    {
      ghost var before := Contents();
      var key := ToMapKey(channelId, userId);
      if key in typingUsers {
        timeouts := timeouts - {typingUsers[key].timeoutId};
        typingUsers := typingUsers - {key};
      }
      StopKeepsPairs(before, channelId, userId);
    }

    /** The timeout is spent, and its callback stops the typing it was armed for. */
    method FireTimeout(id: TimeoutId)
      requires id in timeouts
      modifies this
      ensures Contents() == Step(old(Contents()), Fire(id))
      ensures old(Valid()) ==> Valid()
    {
      ghost var before := Contents();
      var t := timeouts[id];
      timeouts := timeouts - {id};
      HandleTypingStop(t.channelId, t.userId);
      FireKeepsPairs(before, id);
    }

    /** The users listed under a channel are exactly those that `isUserTyping` answers for, each once. */
    method GetTypingUsersForChannel(channelId: string) returns (users: seq<TypingUser>)
      requires Valid() && |channelId| == ID_LENGTH
      ensures forall u :: (exists e :: e in users && e.userId == u) <==> IsUserTyping(Contents(), channelId, u)
      ensures forall i, j :: 0 <= i < j < |users| ==> users[i].userId != users[j].userId
    {
      users := Filter(Contents(), typingUsers, channelId);
      ListedAreTyping(Contents(), channelId, users);
    }
  }
}
