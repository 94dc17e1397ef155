/** Voice states and rings in Redis: keyed records beside index sets, and timers that are never cancelled. */
module Voice {
  import opened Common

  const VOICE_RING_TIMEOUT: nat := 30000

  /** `recipients` are a direct-message channel's; a guild channel has none and reaches its members. */
  datatype Channel = Channel(isDM: bool, recipients: seq<Id>, members: seq<Id>)

  type Channels = map<Id, Channel>

  /** The flags of a voice state; a flag the client left out is not stored. */
  datatype Flags = Flags(isMuted: Option<bool>, isDeafened: Option<bool>)

  datatype Ring = Ring(initiatorId: Id, channelId: Id, recipientId: Id)

  datatype Timer = Timer(due: nat, channelId: Id, userId: Id)

  /** A record's key: channel and user. */
  type Key = (Id, Id)

  /** `rungAt` is when each ring key was last set, which the service does not store. */
  datatype Redis = Redis(voiceStates: map<Key, Flags>, voiceSets: map<Id, set<Id>>,
                         rings: map<Key, Ring>, ringSets: map<Id, set<Id>>,
                         timers: multiset<Timer>, now: nat, rungAt: map<Key, nat>)

  /** Redis when the service starts. */
  const UNUSED := Redis(map[], map[], map[], map[], multiset{}, 0, map[])

  datatype Event =
    | RingStarted(rings: seq<Ring>)
    | RingDismissed(ring: Ring)
    | RingSnapshot(rings: seq<Ring>)
    | VoiceChanged(channelId: Id, userId: Id, flags: Flags)
    | VoiceLeft(channelId: Id, userId: Id)
    | VoiceSnapshot(states: seq<(Key, Flags)>)

  datatype Emission = Emission(recipients: seq<Id>, event: Event)

  // ---------- Redis sets ----------

  function SAdd(sets: map<Id, set<Id>>, c: Id, u: Id): map<Id, set<Id>> {
    sets[c := SMembers(sets, c) + {u}]
  }

  function SRem(sets: map<Id, set<Id>>, c: Id, u: Id): map<Id, set<Id>> {
    sets[c := SMembers(sets, c) - {u}]
  }

  // ---------- the service's methods, each one step ----------

  /** `recipients.filter(uid => uid !== userId).map(...)` */
  function Payloads(userId: Id, c: Id, recipients: seq<Id>): seq<Ring> {
    if recipients == [] then []
    else
      (if recipients[0] != userId then [Ring(userId, c, recipients[0])] else [])
      + Payloads(userId, c, recipients[1..])
  }

  /** Set the key, add to the index, arm a timer. */
  function StartRing(s: Redis, r: Ring): Redis {
    var k := (r.channelId, r.recipientId);
    s.(rings := s.rings[k := r], ringSets := SAdd(s.ringSets, r.channelId, r.recipientId),
       timers := s.timers + multiset{Timer(s.now + VOICE_RING_TIMEOUT, r.channelId, r.recipientId)},
       rungAt := s.rungAt[k := s.now])
  }

  function StartRings(s: Redis, rs: seq<Ring>): Redis
    decreases |rs|
  {
    if rs == [] then s else StartRings(StartRing(s, rs[0]), rs[1..])
  }

  /** Only channels with recipients are found; only a group channel turns strangers away. */
  predicate CanRing(chs: Channels, userId: Id, c: Id) {
    c in chs && chs[c].recipients != [] && (userId in chs[c].recipients || chs[c].isDM)
  }

  function RingChannel(chs: Channels, s: Redis, userId: Id, c: Id): (Redis, seq<Emission>) {
    if !CanRing(chs, userId, c) then (s, [])
    else
      var payloads := Payloads(userId, c, chs[c].recipients);
      (StartRings(s, payloads), [Emission(chs[c].recipients, RingStarted(payloads))])
  }

  function Dismiss(s: Redis, userId: Id, c: Id): (Redis, seq<Emission>) {
    if (c, userId) !in s.rings then (s, [])
    else
      var r := s.rings[(c, userId)];
      (s.(rings := s.rings - {(c, userId)}, ringSets := SRem(s.ringSets, c, userId)),
       [Emission([r.initiatorId, r.recipientId], RingDismissed(r))])
  }

  /** Who hears about a channel's voice events. */
  function Audience(chs: Channels, c: Id): seq<Id> {
    if c !in chs then [] else if chs[c].isDM then chs[c].recipients else chs[c].members
  }

  function Join(chs: Channels, s: Redis, userId: Id, c: Id, flags: Flags): (Redis, seq<Emission>) {
    if userId !in Audience(chs, c) then (s, [])
    else
      var s1 := s.(voiceStates := s.voiceStates[(c, userId) := flags], voiceSets := SAdd(s.voiceSets, c, userId));
      var (s2, dismissed) := Dismiss(s1, userId, c);
      (s2, dismissed + [Emission(Audience(chs, c), VoiceChanged(c, userId, flags))])
  }

  /** The rings of a channel that its index leads to. */
  ghost predicate IndexedIn(s: Redis, c: Id, r: Ring) {
    exists u :: u in SMembers(s.ringSets, c) && (c, u) in s.rings && s.rings[(c, u)] == r
  }

  /** `cleared` lists those rings in the order Redis returns the set's members. */
  ghost predicate ListsChannelRings(s: Redis, c: Id, cleared: seq<Ring>) {
    forall r :: r in cleared <==> IndexedIn(s, c, r)
  }

  function Dismissals(rings: seq<Ring>): seq<Emission> {
    seq(|rings|, i requires 0 <= i < |rings| =>
      Emission([rings[i].recipientId, rings[i].initiatorId], RingDismissed(rings[i])))
  }

  /** Clearing a channel drops the index set but leaves the ring keys behind. */
  function ClearRings(s: Redis, c: Id, cleared: seq<Ring>): (Redis, seq<Emission>) {
    (s.(ringSets := s.ringSets - {c}), Dismissals(cleared))
  }

  /** `cleared` matters when the last user leaves. */
  function Leave(chs: Channels, s: Redis, userId: Id, c: Id, cleared: seq<Ring>): (Redis, seq<Emission>) {
    if userId !in Audience(chs, c) then (s, [])
    else
      var s1 := s.(voiceStates := s.voiceStates - {(c, userId)}, voiceSets := SRem(s.voiceSets, c, userId));
      var (s2, dismissed) := if SMembers(s1.voiceSets, c) == {} then ClearRings(s1, c, cleared) else (s1, []);
      (s2, dismissed + [Emission(Audience(chs, c), VoiceLeft(c, userId))])
  }

  function Overlay(old': Option<bool>, new': Option<bool>): Option<bool> {
    if new'.Some? then new' else old'
  }

  /** `{ ...oldState, ...data }` */
  function Overlaid(old': Flags, new': Flags): Flags {
    Flags(Overlay(old'.isMuted, new'.isMuted), Overlay(old'.isDeafened, new'.isDeafened))
  }

  /** The record is updated before the channel is looked at; only recipients are told. */
  function Update(chs: Channels, s: Redis, userId: Id, c: Id, flags: Flags): (Redis, seq<Emission>) {
    if (c, userId) !in s.voiceStates then (s, [])
    else
      var merged := Overlaid(s.voiceStates[(c, userId)], flags);
      (s.(voiceStates := s.voiceStates[(c, userId) := merged]),
       if c in chs && userId in chs[c].recipients
       then [Emission(chs[c].recipients, VoiceChanged(c, userId, merged))]
       else [])
  }

  /** The voice states a user's snapshot must list: in channels the user is a recipient of, those of the
      index's members that have a record. */
  ghost predicate ListsVoiceStates(chs: Channels, s: Redis, me: Id, states: seq<(Key, Flags)>) {
    forall k: Key, f :: (k, f) in states <==>
      k.0 in chs && me in chs[k.0].recipients && k.1 in SMembers(s.voiceSets, k.0) && k in s.voiceStates
          && s.voiceStates[k] == f
  }

  ghost predicate ListsRings(chs: Channels, s: Redis, me: Id, rings: seq<Ring>) {
    forall r :: r in rings <==> exists c :: c in chs && me in chs[c].recipients && IndexedIn(s, c, r)
  }

  // ---------- runs ----------

  datatype Action =
    | DoRing(userId: Id, channelId: Id)
    | DoDismiss(userId: Id, channelId: Id)
    | DoJoin(userId: Id, channelId: Id, flags: Flags)
    | DoLeave(userId: Id, channelId: Id, cleared: seq<Ring>)
    | DoUpdate(userId: Id, channelId: Id, flags: Flags)
    | DoGetStates(userId: Id, states: seq<(Key, Flags)>)
    | DoGetRings(userId: Id, rings: seq<Ring>)
    | Wait(ms: nat)
    | Fire(timer: Timer)

  /** Timers fire on time: the clock never passes a pending one. */
  ghost predicate Enabled(chs: Channels, s: Redis, a: Action) {
    match a
    case DoLeave(_, c, cleared) => ListsChannelRings(s, c, cleared)
    case DoGetStates(me, states) => ListsVoiceStates(chs, s, me, states)
    case DoGetRings(me, rings) => ListsRings(chs, s, me, rings)
    case Wait(ms) => forall t :: t in s.timers ==> t.due >= s.now + ms
    case Fire(t) => t in s.timers && t.due <= s.now
    case _ => true
  }

  function Step(chs: Channels, s: Redis, a: Action): (Redis, seq<Emission>) {
    match a
    case DoRing(u, c) => RingChannel(chs, s, u, c)
    case DoDismiss(u, c) => Dismiss(s, u, c)
    case DoJoin(u, c, flags) => Join(chs, s, u, c, flags)
    case DoLeave(u, c, cleared) => Leave(chs, s, u, c, cleared)
    case DoUpdate(u, c, flags) => Update(chs, s, u, c, flags)
    case DoGetStates(me, states) => (s, [Emission([me], VoiceSnapshot(states))])
    case DoGetRings(me, rings) => (s, [Emission([me], RingSnapshot(rings))])
    case Wait(ms) => (s.(now := s.now + ms), [])
    case Fire(t) => Dismiss(s.(timers := s.timers - multiset{t}), t.userId, t.channelId)
  }

  /** `states` is a run of the service. */
  ghost predicate IsRun(chs: Channels, states: seq<Redis>, actions: seq<Action>) {
    && |states| == |actions| + 1 && states[0] == UNUSED
    && forall i {:trigger actions[i]} :: 0 <= i < |actions| ==>
         Enabled(chs, states[i], actions[i]) && states[i + 1] == Step(chs, states[i], actions[i]).0
  }

  // ---------- invariants ----------

  /** A user is in a channel's voice set if and only if the keyed state exists. */
  ghost predicate VoiceIndexExact(sets: map<Id, set<Id>>, states: map<Key, Flags>) {
    forall c: Id, u: Id :: u in SMembers(sets, c) <==> (c, u) in states
  }

  /** Only users the channel reaches have a voice state. */
  ghost predicate VoiceInAudience(chs: Channels, states: map<Key, Flags>) {
    forall c: Id, u: Id :: (c, u) in states ==> u in Audience(chs, c)
  }

  /** The index of rings is contained in the keys. */
  ghost predicate RingIndexInKeys(sets: map<Id, set<Id>>, rings: map<Key, Ring>) {
    forall c: Id, u: Id :: u in SMembers(sets, c) ==> (c, u) in rings
  }

  /** A ring sits under its own key and is for a recipient of its channel. */
  ghost predicate RingsFiled(chs: Channels, rings: map<Key, Ring>) {
    forall k: Key :: k in rings ==>
      rings[k].channelId == k.0 && rings[k].recipientId == k.1 && k.0 in chs && k.1 in chs[k.0].recipients
  }

  /** Every ring key has a pending timer, due a timeout after the key was last set. */
  ghost predicate RingsTimed(rings: map<Key, Ring>, rungAt: map<Key, nat>, timers: multiset<Timer>, now: nat) {
    && (forall k: Key :: k in rings ==>
          k in rungAt && rungAt[k] <= now && Timer(rungAt[k] + VOICE_RING_TIMEOUT, k.0, k.1) in timers)
    && (forall t :: t in timers ==> t.due >= now)
  }

  ghost predicate VoiceInv(chs: Channels, s: Redis) {
    VoiceIndexExact(s.voiceSets, s.voiceStates) && VoiceInAudience(chs, s.voiceStates)
  }

  ghost predicate RingInv(chs: Channels, s: Redis) {
    RingIndexInKeys(s.ringSets, s.rings) && RingsFiled(chs, s.rings)
  }

  ghost predicate Timed(s: Redis) {
    RingsTimed(s.rings, s.rungAt, s.timers, s.now)
  }

  ghost predicate Inv(chs: Channels, s: Redis) {
    VoiceInv(chs, s) && RingInv(chs, s) && Timed(s)
  }

  lemma {:induction false} PayloadsSpec(userId: Id, c: Id, recipients: seq<Id>)
    ensures forall r :: r in Payloads(userId, c, recipients) <==>
              r.initiatorId == userId && r.channelId == c && r.recipientId in recipients && r.recipientId != userId
  {
    if recipients != [] {
      PayloadsSpec(userId, c, recipients[1..]);
      assert recipients == [recipients[0]] + recipients[1..];
    }
  }

  lemma StartRingInv(chs: Channels, s: Redis, r: Ring)
    requires RingInv(chs, s) && r.channelId in chs && r.recipientId in chs[r.channelId].recipients
    ensures RingInv(chs, StartRing(s, r))
  {
  }

  lemma StartRingTimed(s: Redis, r: Ring)
    requires Timed(s)
    ensures Timed(StartRing(s, r))
  {
    var s' := StartRing(s, r);
    assert forall t :: t in s.timers ==> t in s'.timers;
    assert Timer(s.now + VOICE_RING_TIMEOUT, r.channelId, r.recipientId) in s'.timers;
    assert forall t :: t in s'.timers ==> t in s.timers || t.due == s.now + VOICE_RING_TIMEOUT;
  }

  lemma {:induction false} StartRingsInv(chs: Channels, s: Redis, rs: seq<Ring>)
    requires RingInv(chs, s) && Timed(s)
    requires forall r :: r in rs ==> r.channelId in chs && r.recipientId in chs[r.channelId].recipients
    ensures RingInv(chs, StartRings(s, rs)) && Timed(StartRings(s, rs))
    ensures StartRings(s, rs).voiceStates == s.voiceStates && StartRings(s, rs).voiceSets == s.voiceSets
    decreases |rs|
  {
    if rs != [] {
      assert rs == [rs[0]] + rs[1..];
      StartRingInv(chs, s, rs[0]);
      StartRingTimed(s, rs[0]);
      StartRingsInv(chs, StartRing(s, rs[0]), rs[1..]);
    }
  }

  lemma RingChannelInv(chs: Channels, s: Redis, userId: Id, c: Id)
    requires Inv(chs, s)
    ensures Inv(chs, RingChannel(chs, s, userId, c).0)
  {
    if CanRing(chs, userId, c) {
      PayloadsSpec(userId, c, chs[c].recipients);
      StartRingsInv(chs, s, Payloads(userId, c, chs[c].recipients));
    }
  }

  /** Dismissing touches the one ring, and no timer. */
  lemma DismissInv(chs: Channels, s: Redis, userId: Id, c: Id)
    requires RingInv(chs, s)
    ensures RingInv(chs, Dismiss(s, userId, c).0)
    ensures (c, userId) !in Dismiss(s, userId, c).0.rings
  {
  }

  lemma DismissTimed(s: Redis, userId: Id, c: Id)
    requires Timed(s)
    ensures Timed(Dismiss(s, userId, c).0)
  {
    var s' := Dismiss(s, userId, c).0;
    assert forall k: Key :: k in s'.rings ==> k in s.rings;
  }

  lemma JoinInv(chs: Channels, s: Redis, userId: Id, c: Id, flags: Flags)
    requires Inv(chs, s)
    ensures Inv(chs, Join(chs, s, userId, c, flags).0)
  {
    if userId in Audience(chs, c) {
      var s1 := s.(voiceStates := s.voiceStates[(c, userId) := flags], voiceSets := SAdd(s.voiceSets, c, userId));
      assert VoiceInv(chs, s1);
      DismissInv(chs, s1, userId, c);
      DismissTimed(s1, userId, c);
    }
  }

  lemma LeaveVoiceInv(chs: Channels, s: Redis, userId: Id, c: Id, cleared: seq<Ring>)
    requires VoiceInv(chs, s)
    ensures VoiceInv(chs, Leave(chs, s, userId, c, cleared).0)
  {
  }

  lemma LeaveRingInv(chs: Channels, s: Redis, userId: Id, c: Id, cleared: seq<Ring>)
    requires RingInv(chs, s)
    ensures RingInv(chs, Leave(chs, s, userId, c, cleared).0)
  {
    var s' := Leave(chs, s, userId, c, cleared).0;
    assert forall d :: SMembers(s'.ringSets, d) <= SMembers(s.ringSets, d);
  }

  lemma LeaveTimed(chs: Channels, s: Redis, userId: Id, c: Id, cleared: seq<Ring>)
    requires Timed(s)
    ensures Timed(Leave(chs, s, userId, c, cleared).0)
  {
  }

  lemma LeaveInv(chs: Channels, s: Redis, userId: Id, c: Id, cleared: seq<Ring>)
    requires Inv(chs, s)
    ensures Inv(chs, Leave(chs, s, userId, c, cleared).0)
  {
    LeaveVoiceInv(chs, s, userId, c, cleared);
    LeaveRingInv(chs, s, userId, c, cleared);
    LeaveTimed(chs, s, userId, c, cleared);
  }

  lemma UpdateInv(chs: Channels, s: Redis, userId: Id, c: Id, flags: Flags)
    requires Inv(chs, s)
    ensures Inv(chs, Update(chs, s, userId, c, flags).0)
  {
    var s' := Update(chs, s, userId, c, flags).0;
    assert s'.voiceStates.Keys == s.voiceStates.Keys;
  }

  /** A timer that fires takes its ring with it, so the rings that stay keep their timers. */
  lemma FireTimed(s: Redis, t: Timer)
    requires Timed(s) && t in s.timers
    ensures Timed(Dismiss(s.(timers := s.timers - multiset{t}), t.userId, t.channelId).0)
  {
    var s' := Dismiss(s.(timers := s.timers - multiset{t}), t.userId, t.channelId).0;
    assert forall u :: u in s'.timers ==> u in s.timers;
    forall k: Key | k in s'.rings
      ensures k in s'.rungAt && s'.rungAt[k] <= s'.now
          && Timer(s'.rungAt[k] + VOICE_RING_TIMEOUT, k.0, k.1) in s'.timers
    {
      assert k in s.rings && k != (t.channelId, t.userId);
      assert Timer(s.rungAt[k] + VOICE_RING_TIMEOUT, k.0, k.1) != t;
    }
  }

  lemma FireInv(chs: Channels, s: Redis, t: Timer)
    requires Inv(chs, s) && t in s.timers
    ensures Inv(chs, Dismiss(s.(timers := s.timers - multiset{t}), t.userId, t.channelId).0)
  {
    FireTimed(s, t);
    DismissInv(chs, s.(timers := s.timers - multiset{t}), t.userId, t.channelId);
  }

  /** Time passes up to the next timer and no further. */
  lemma WaitTimed(s: Redis, ms: nat)
    requires Timed(s) && forall t :: t in s.timers ==> t.due >= s.now + ms
    ensures Timed(s.(now := s.now + ms))
  {
  }

  lemma HandDismissInv(chs: Channels, s: Redis, userId: Id, c: Id)
    requires Inv(chs, s)
    ensures Inv(chs, Dismiss(s, userId, c).0)
  {
    DismissInv(chs, s, userId, c);
    DismissTimed(s, userId, c);
  }

  lemma StepInv(chs: Channels, s: Redis, a: Action)
    requires Inv(chs, s) && Enabled(chs, s, a)
    ensures Inv(chs, Step(chs, s, a).0)
  {
    match a
    case DoRing(u, c) => RingChannelInv(chs, s, u, c);
    case DoDismiss(u, c) => HandDismissInv(chs, s, u, c);
    case DoJoin(u, c, flags) => JoinInv(chs, s, u, c, flags);
    case DoLeave(u, c, cleared) => LeaveInv(chs, s, u, c, cleared);
    case DoUpdate(u, c, flags) => UpdateInv(chs, s, u, c, flags);
    case Fire(t) => FireInv(chs, s, t);
    case Wait(ms) => WaitTimed(s, ms);
    case _ =>
  }

  lemma {:induction false} RunInv(chs: Channels, states: seq<Redis>, actions: seq<Action>, i: nat)
    requires IsRun(chs, states, actions) && i < |states|
    ensures Inv(chs, states[i])
  {
    if i > 0 {
      RunInv(chs, states, actions, i - 1);
      StepInv(chs, states[i - 1], actions[i - 1]);
    }
  }

  // ---------- how long a ring lives ----------

  /** No ring key is older than the timeout. */
  lemma RingsAreRecent(chs: Channels, states: seq<Redis>, actions: seq<Action>, i: nat, k: Key)
    requires IsRun(chs, states, actions) && i < |states| && k in states[i].rings
    ensures k in states[i].rungAt && states[i].rungAt[k] <= states[i].now <= states[i].rungAt[k] + VOICE_RING_TIMEOUT
  {
    RunInv(chs, states, actions, i);
  }

  /** Rings that were there before, with the ages they had. */
  ghost predicate NothingRung(s: Redis, s': Redis) {
    s'.rings.Keys <= s.rings.Keys && s'.rungAt == s.rungAt
  }

  lemma DismissRingsNothing(s: Redis, userId: Id, c: Id)
    ensures NothingRung(s, Dismiss(s, userId, c).0)
  {
  }

  lemma JoinRingsNothing(chs: Channels, s: Redis, userId: Id, c: Id, flags: Flags)
    ensures NothingRung(s, Join(chs, s, userId, c, flags).0)
  {
  }

  lemma LeaveRingsNothing(chs: Channels, s: Redis, userId: Id, c: Id, cleared: seq<Ring>)
    ensures NothingRung(s, Leave(chs, s, userId, c, cleared).0)
  {
  }

  /** A step that is no ring leaves every surviving key's age alone. */
  lemma OnlyRingsRefresh(chs: Channels, s: Redis, a: Action)
    requires !a.DoRing?
    ensures NothingRung(s, Step(chs, s, a).0)
  {
    match a
    case DoDismiss(u, c) => DismissRingsNothing(s, u, c);
    case DoJoin(u, c, flags) => JoinRingsNothing(chs, s, u, c, flags);
    case DoLeave(u, c, cleared) => LeaveRingsNothing(chs, s, u, c, cleared);
    case Fire(t) => DismissRingsNothing(s.(timers := s.timers - multiset{t}), t.userId, t.channelId);
    case _ =>
  }

  lemma {:induction false} OldRingsStayOld(chs: Channels, states: seq<Redis>, actions: seq<Action>, i: nat, j: nat,
    k: Key)
    requires IsRun(chs, states, actions) && i <= j < |states| && k in states[j].rings
    requires forall n :: i <= n < j ==> !actions[n].DoRing?
    ensures k in states[i].rings && k in states[j].rungAt && states[j].rungAt[k] <= states[i].now
    decreases j
  {
    if i < j {
      OnlyRingsRefresh(chs, states[j - 1], actions[j - 1]);
      OldRingsStayOld(chs, states, actions, i, j - 1, k);
    } else {
      RingsAreRecent(chs, states, actions, i, k);
    }
  }

  /** After longer than the timeout with no new ring, no ring key and no member of a ring set is left,
      not even keys whose index was cleared. */
  lemma RingsDieOut(chs: Channels, states: seq<Redis>, actions: seq<Action>, i: nat, j: nat)
    requires IsRun(chs, states, actions) && i <= j < |states|
    requires forall n :: i <= n < j ==> !actions[n].DoRing?
    requires states[j].now > states[i].now + VOICE_RING_TIMEOUT
    ensures states[j].rings == map[]
    ensures forall c :: SMembers(states[j].ringSets, c) == {}
  {
    RunInv(chs, states, actions, j);
    forall k: Key ensures k !in states[j].rings {
      if k in states[j].rings {
        OldRingsStayOld(chs, states, actions, i, j, k);
        RingsAreRecent(chs, states, actions, j, k);
        assert false;
      }
    }
  }

  // ---------- when a ring lives out its time ----------

  predicate IsFor(t: Timer, k: Key) {
    (t.channelId, t.userId) == k
  }

  /** A ring, a dismissal or a join of this very user in this channel. */
  predicate Disturbs(a: Action, k: Key) {
    match a
    case DoRing(u, c) => c == k.0 && u != k.1
    case DoDismiss(u, c) => (c, u) == k
    case DoJoin(u, c, _) => (c, u) == k
    case _ => false
  }

  /** The ring is as it was, and so are its timers. */
  ghost predicate RingUntouched(s: Redis, s': Redis, k: Key) {
    && (k in s'.rings <==> k in s.rings)
    && forall t: Timer :: IsFor(t, k) ==> s'.timers[t] == s.timers[t]
  }

  lemma {:induction false} OtherRingsTouchNothing(s: Redis, rs: seq<Ring>, k: Key)
    requires forall r :: r in rs ==> (r.channelId, r.recipientId) != k
    ensures RingUntouched(s, StartRings(s, rs), k)
    decreases |rs|
  {
    if rs != [] {
      assert rs == [rs[0]] + rs[1..];
      OtherRingsTouchNothing(StartRing(s, rs[0]), rs[1..], k);
    }
  }

  lemma OtherStepTouchesNothing(chs: Channels, s: Redis, a: Action, k: Key)
    requires !Disturbs(a, k) && (a.Fire? ==> !IsFor(a.timer, k))
    ensures RingUntouched(s, Step(chs, s, a).0, k)
  {
    match a
    case DoRing(u, c) =>
      if CanRing(chs, u, c) {
        PayloadsSpec(u, c, chs[c].recipients);
        OtherRingsTouchNothing(s, Payloads(u, c, chs[c].recipients), k);
      }
    case _ =>
  }

  lemma FireTouches(chs: Channels, s: Redis, t: Timer, k: Key)
    requires t in s.timers && IsFor(t, k)
    ensures var s' := Step(chs, s, Fire(t)).0;
            k !in s'.rings && s'.timers == s.timers - multiset{t}
  {
  }

  /** No timer for this user in this channel has fired. */
  ghost predicate NoneFired(s: Redis, s': Redis, k: Key) {
    forall t: Timer :: IsFor(t, k) ==> s'.timers[t] == s.timers[t]
  }

  ghost predicate NoneArmed(s: Redis, s': Redis, k: Key) {
    forall t: Timer :: IsFor(t, k) ==> s'.timers[t] <= s.timers[t]
  }

  /** An undisturbed ring stays exactly as long as none of the timers for it fires, its own or an older one. */
  lemma {:induction false} RingStaysIff(chs: Channels, states: seq<Redis>, actions: seq<Action>, i: nat, j: nat, k: Key)
    requires IsRun(chs, states, actions) && i <= j < |states| && k in states[i].rings
    requires forall n :: i <= n < j ==> !Disturbs(actions[n], k)
    ensures k in states[j].rings <==> NoneFired(states[i], states[j], k)
    ensures NoneArmed(states[i], states[j], k)
    decreases j
  {
    if i < j {
      RingStaysIff(chs, states, actions, i, j - 1, k);
      StepStaysIff(chs, states[i], states[j - 1], actions[j - 1], k);
    }
  }

  lemma StepStaysIff(chs: Channels, start: Redis, s: Redis, a: Action, k: Key)
    requires Enabled(chs, s, a) && !Disturbs(a, k)
    requires (k in s.rings <==> NoneFired(start, s, k)) && NoneArmed(start, s, k)
    ensures var s' := Step(chs, s, a).0;
            (k in s'.rings <==> NoneFired(start, s', k)) && NoneArmed(start, s', k)
  {
    if a.Fire? && IsFor(a.timer, k) {
      FireTouches(chs, s, a.timer, k);
      assert (s.timers - multiset{a.timer})[a.timer] < s.timers[a.timer] <= start.timers[a.timer];
    } else {
      OtherStepTouchesNothing(chs, s, a, k);
    }
  }

  /** A timer still pending for an earlier ring of the same user in the same channel. */
  ghost predicate OlderPending(s: Redis, k: Key, due: nat) {
    exists t: Timer :: t in s.timers && IsFor(t, k) && t.due < due
  }

  lemma {:induction false} ClockNeverGoesBack(chs: Channels, states: seq<Redis>, actions: seq<Action>, i: nat, j: nat)
    requires IsRun(chs, states, actions) && i <= j < |states|
    ensures states[i].now <= states[j].now
    decreases j
  {
    if i < j {
      ClockNeverGoesBack(chs, states, actions, i, j - 1);
      StepKeepsClock(chs, states[j - 1], actions[j - 1]);
    }
  }

  lemma StepKeepsClock(chs: Channels, s: Redis, a: Action)
    ensures s.now <= Step(chs, s, a).0.now
  {
    if a.DoRing? && CanRing(chs, a.userId, a.channelId) {
      StartRingsKeepClock(s, Payloads(a.userId, a.channelId, chs[a.channelId].recipients));
    }
  }

  lemma {:induction false} StartRingsKeepClock(s: Redis, rs: seq<Ring>)
    ensures StartRings(s, rs).now == s.now
    decreases |rs|
  {
    if rs != [] { StartRingsKeepClock(StartRing(s, rs[0]), rs[1..]); }
  }

  /** Timers that are due later than now have not fired. */
  lemma {:induction false} NotYetFired(chs: Channels, states: seq<Redis>, actions: seq<Action>, i: nat, j: nat,
    t: Timer)
    requires IsRun(chs, states, actions) && i <= j < |states| && t.due > states[j].now
    ensures states[j].timers[t] >= states[i].timers[t]
    decreases j
  {
    if i < j {
      ClockNeverGoesBack(chs, states, actions, j - 1, j);
      NotYetFired(chs, states, actions, i, j - 1, t);
      StepKeepsTimer(chs, states[j - 1], actions[j - 1], t);
    }
  }

  lemma StepKeepsTimer(chs: Channels, s: Redis, a: Action, t: Timer)
    requires a == Fire(t) ==> t !in s.timers
    ensures Step(chs, s, a).0.timers[t] >= s.timers[t]
  {
    if a.DoRing? && CanRing(chs, a.userId, a.channelId) {
      StartRingsKeepTimers(s, Payloads(a.userId, a.channelId, chs[a.channelId].recipients), t);
    }
  }

  lemma {:induction false} StartRingsKeepTimers(s: Redis, rs: seq<Ring>, t: Timer)
    ensures StartRings(s, rs).timers[t] >= s.timers[t]
    decreases |rs|
  {
    if rs != [] { StartRingsKeepTimers(StartRing(s, rs[0]), rs[1..], t); }
  }

  /** An undisturbed ring lives to the moment its own timer is about to fire exactly when no older timer for it
      was pending, since setting a ring again cancels nothing. */
  lemma RingLivesOutIff(chs: Channels, states: seq<Redis>, actions: seq<Action>, i: nat, j: nat, k: Key)
    requires IsRun(chs, states, actions) && i <= j < |states| && k in states[i].rings
    requires forall n :: i <= n < j ==> !Disturbs(actions[n], k)
    requires k in states[i].rungAt && states[j].now == states[i].rungAt[k] + VOICE_RING_TIMEOUT
    requires var own := Timer(states[j].now, k.0, k.1); states[j].timers[own] == states[i].timers[own]
    ensures k in states[j].rings <==> !OlderPending(states[i], k, states[j].now)
  {
    var due := states[j].now;
    RingStaysIff(chs, states, actions, i, j, k);
    RunInv(chs, states, actions, j);
    if OlderPending(states[i], k, due) {
      var t: Timer :| t in states[i].timers && IsFor(t, k) && t.due < due;
      assert t !in states[j].timers;
    } else {
      forall t: Timer | IsFor(t, k) ensures states[j].timers[t] == states[i].timers[t] {
        if t.due > due { NotYetFired(chs, states, actions, i, j, t); }
      }
    }
  }

  // ---------- when ring keys outlive the index ----------

  ghost predicate RingIndexExact(sets: map<Id, set<Id>>, rings: map<Key, Ring>) {
    forall c: Id, u: Id :: u in SMembers(sets, c) <==> (c, u) in rings
  }

  /** The last user leaves a channel in which somebody is still being rung. */
  ghost predicate LeavesRingsBehind(chs: Channels, s: Redis, userId: Id, c: Id) {
    userId in Audience(chs, c) && SMembers(s.voiceSets, c) <= {userId} && SMembers(s.ringSets, c) != {}
  }

  /** A leave keeps index and keys equal exactly when it is not such a one. */
  lemma LeaveKeepsRingIndexIff(chs: Channels, s: Redis, userId: Id, c: Id, cleared: seq<Ring>)
    requires RingIndexExact(s.ringSets, s.rings)
    ensures var s' := Leave(chs, s, userId, c, cleared).0;
            RingIndexExact(s'.ringSets, s'.rings) <==> !LeavesRingsBehind(chs, s, userId, c)
  {
    var s' := Leave(chs, s, userId, c, cleared).0;
    if userId in Audience(chs, c) {
      var left := SMembers(SRem(s.voiceSets, c, userId), c);
      assert left == {} <==> SMembers(s.voiceSets, c) <= {userId};
      if left == {} {
        assert forall d :: SMembers(s'.ringSets, d) == if d == c then {} else SMembers(s.ringSets, d);
        if SMembers(s.ringSets, c) != {} {
          var u :| u in SMembers(s.ringSets, c);
          assert (c, u) in s'.rings && u !in SMembers(s'.ringSets, c);
        }
      }
    }
  }

  lemma {:induction false} StartRingsKeepIndex(s: Redis, rs: seq<Ring>)
    requires RingIndexExact(s.ringSets, s.rings)
    ensures RingIndexExact(StartRings(s, rs).ringSets, StartRings(s, rs).rings)
    decreases |rs|
  {
    if rs != [] { StartRingsKeepIndex(StartRing(s, rs[0]), rs[1..]); }
  }

  lemma DismissKeepsIndex(s: Redis, userId: Id, c: Id)
    requires RingIndexExact(s.ringSets, s.rings)
    ensures RingIndexExact(Dismiss(s, userId, c).0.ringSets, Dismiss(s, userId, c).0.rings)
  {
  }

  lemma JoinKeepsIndex(chs: Channels, s: Redis, userId: Id, c: Id, flags: Flags)
    requires RingIndexExact(s.ringSets, s.rings)
    ensures RingIndexExact(Join(chs, s, userId, c, flags).0.ringSets, Join(chs, s, userId, c, flags).0.rings)
  {
    if userId in Audience(chs, c) {
      DismissKeepsIndex(s.(voiceStates := s.voiceStates[(c, userId) := flags],
          voiceSets := SAdd(s.voiceSets, c, userId)),
                        userId, c);
    }
  }

  /** No other step does it: keys outlive the index exactly through such a leave. */
  lemma StepKeepsRingIndexIff(chs: Channels, s: Redis, a: Action)
    requires RingIndexExact(s.ringSets, s.rings)
    ensures var s' := Step(chs, s, a).0;
            RingIndexExact(s'.ringSets, s'.rings)
            <==> !(a.DoLeave? && LeavesRingsBehind(chs, s, a.userId, a.channelId))
  {
    match a
    case DoRing(u, c) =>
      if CanRing(chs, u, c) { StartRingsKeepIndex(s, Payloads(u, c, chs[c].recipients)); }
    case DoDismiss(u, c) => DismissKeepsIndex(s, u, c);
    case DoJoin(u, c, flags) => JoinKeepsIndex(chs, s, u, c, flags);
    case DoLeave(u, c, cleared) => LeaveKeepsRingIndexIff(chs, s, u, c, cleared);
    case Fire(t) => DismissKeepsIndex(s.(timers := s.timers - multiset{t}), t.userId, t.channelId);
    case _ =>
  }

  // User 1 rings user 2, and then leaves the channel nobody has joined.
  const PAIR: Channels := map[5 := Channel(true, [1, 2], [])]
  const RINGING := StartRing(UNUSED, Ring(1, 5, 2))

  lemma RingingIsReached()
    ensures Step(PAIR, UNUSED, DoRing(1, 5)).0 == RINGING && ListsChannelRings(RINGING, 5, [Ring(1, 5, 2)])
  {
    assert Payloads(1, 5, [1, 2]) == [Ring(1, 5, 2)] by {
      assert [1, 2][1..] == [2] && [2][1..] == [];
      assert Payloads(1, 5, [2]) == [Ring(1, 5, 2)];
    }
    assert [Ring(1, 5, 2)][1..] == [];
    assert StartRings(UNUSED, [Ring(1, 5, 2)]) == RINGING;
    assert 2 in SMembers(RINGING.ringSets, 5);
    assert IndexedIn(RINGING, 5, Ring(1, 5, 2));
  }

  /** Clearing a channel really leaves keys behind: the index is contained in the keys, not equal. */
  lemma ClearedRingsKeepKeys()
    ensures exists chs: Channels, states: seq<Redis>, actions: seq<Action>, k: Key ::
              && IsRun(chs, states, actions)
              && k in states[|actions|].rings && k.1 !in SMembers(states[|actions|].ringSets, k.0)
  {
    var ring, leave := DoRing(1, 5), DoLeave(1, 5, [Ring(1, 5, 2)]);
    RingingIsReached();
    var last := Leave(PAIR, RINGING, 1, 5, [Ring(1, 5, 2)]).0;
    assert (5, 2) in last.rings && 2 !in SMembers(last.ringSets, 5);
    var states, actions := [UNUSED, RINGING, last], [ring, leave];
    assert IsRun(PAIR, states, actions);
    assert states[|actions|] == last;
  }

  // User 1 rings user 2 and rings again after 20 seconds; the first timer takes the second ring with it.
  const AGAIN := Ring(1, 5, 2)
  const FIRST_TIMER := Timer(30000, 5, 2)
  const REFRESHED := StartRing(RINGING.(now := 20000), AGAIN)

  lemma RingsAgain(s: Redis)
    ensures Leads(PAIR, s, DoRing(1, 5), StartRing(s, AGAIN))
  {
    assert Payloads(1, 5, [1, 2]) == [AGAIN] by {
      assert [1, 2][1..] == [2] && [2][1..] == [];
      assert Payloads(1, 5, [2]) == [AGAIN];
    }
    assert [AGAIN][1..] == [];
    assert StartRings(s, [AGAIN]) == StartRing(s, AGAIN);
  }

  const WAITED := RINGING.(now := 20000)
  const LATE := REFRESHED.(now := 30000)
  const CUT_SHORT := Dismiss(LATE.(timers := LATE.timers - multiset{FIRST_TIMER}), 2, 5).0

  ghost predicate Leads(chs: Channels, s: Redis, a: Action, s': Redis) {
    Enabled(chs, s, a) && Step(chs, s, a).0 == s'
  }

  lemma OneMore(chs: Channels, states: seq<Redis>, actions: seq<Action>, s: Redis, a: Action, s': Redis)
    requires IsRun(chs, states, actions) && states[|actions|] == s && Leads(chs, s, a, s')
    ensures IsRun(chs, states + [s'], actions + [a]) && (states + [s'])[|actions| + 1] == s'
  {
  }

  lemma TwoMore(chs: Channels, states: seq<Redis>, actions: seq<Action>, s: Redis, a: Action, s': Redis,
                a': Action, s'': Redis) returns (states': seq<Redis>, actions': seq<Action>)
    requires IsRun(chs, states, actions) && states[|actions|] == s && Leads(chs, s, a, s') && Leads(chs, s', a', s'')
    ensures IsRun(chs, states', actions') && states' == states + [s', s''] && actions' == actions + [a, a']
  {
    OneMore(chs, states, actions, s, a, s');
    OneMore(chs, states + [s'], actions + [a], s', a', s'');
    assert states + [s'] + [s''] == states + [s', s''] && actions + [a] + [a'] == actions + [a, a'];
    states', actions' := states + [s', s''], actions + [a, a'];
  }

  lemma TimePasses()
    ensures Leads(PAIR, RINGING, Wait(20000), WAITED) && Leads(PAIR, REFRESHED, Wait(10000), LATE)
    ensures Leads(PAIR, LATE, Fire(FIRST_TIMER), CUT_SHORT)
  {
    assert RINGING.timers == multiset{FIRST_TIMER};
    assert REFRESHED.timers == multiset{FIRST_TIMER, Timer(50000, 5, 2)};
  }

  lemma RefreshedStates()
    ensures REFRESHED.rings.Keys == {(5, 2)} && REFRESHED.rungAt == map[(5, 2) := 20000]
    ensures CUT_SHORT.rings == map[] && CUT_SHORT.now == 30000
  {
  }

  lemma RefreshedStart() returns (states: seq<Redis>, actions: seq<Action>)
    ensures IsRun(PAIR, states, actions) && |actions| == 3 && states[3] == REFRESHED
  {
    RingsAgain(UNUSED);
    RingsAgain(WAITED);
    TimePasses();
    OneMore(PAIR, [UNUSED], [], UNUSED, DoRing(1, 5), RINGING);
    states, actions := TwoMore(PAIR, [UNUSED] + [RINGING], [] + [DoRing(1, 5)], RINGING, Wait(20000), WAITED,
                               DoRing(1, 5), REFRESHED);
  }

  lemma RefreshedRun() returns (states: seq<Redis>, actions: seq<Action>)
    ensures IsRun(PAIR, states, actions) && |actions| == 5
    ensures states[3] == REFRESHED && states[5] == CUT_SHORT && actions[3] == Wait(10000) && actions[4].Fire?
  {
    states, actions := RefreshedStart();
    TimePasses();
    states, actions := TwoMore(PAIR, states, actions, REFRESHED, Wait(10000), LATE, Fire(FIRST_TIMER), CUT_SHORT);
  }

  /** A ring set 10 seconds ago is gone. */
  lemma RefreshedRingIsLost()
    ensures exists chs: Channels, states: seq<Redis>, actions: seq<Action>, k: Key ::
              && IsRun(chs, states, actions) && |actions| == 5
              && k in states[3].rings && k !in states[5].rings
              && (forall n :: 3 <= n < 5 ==> !Disturbs(actions[n], k))
              && k in states[3].rungAt && states[5].now < states[3].rungAt[k] + VOICE_RING_TIMEOUT
  {
    var states, actions := RefreshedRun();
    var k: Key := (5, 2);
    RefreshedStates();
    assert k in states[3].rings && k !in states[5].rings;
  }
}
