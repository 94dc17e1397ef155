/** A client's replicas of rings and voice states, fed by the service's events in order, and why they
    agree with Redis. */
module VoiceReplica {
  import opened Common
  import opened Voice

  datatype VoiceState = VoiceState(isMuted: bool, isDeafened: bool)

  datatype Stores = Stores(rings: map<Key, Ring>, voices: map<Key, VoiceState>)

  // ---------- the client's handlers ----------

  /** `batchUpdateVoiceRingState`; a snapshot does the same to an empty map. */
  function PutRings(rings: map<Key, Ring>, rs: seq<Ring>): map<Key, Ring>
    decreases |rs|
  {
    if rs == [] then rings else PutRings(rings[(rs[0].channelId, rs[0].recipientId) := rs[0]], rs[1..])
  }

  /** The constructor's default for a flag that did not arrive is false. */
  function Default(flag: Option<bool>): bool {
    flag.Some? && flag.value
  }

  function Full(flags: Flags): VoiceState {
    VoiceState(Default(flags.isMuted), Default(flags.isDeafened))
  }

  /** `new ?? old`, flag by flag. */
  function Merged(old': VoiceState, flags: Flags): VoiceState {
    VoiceState(if flags.isMuted.Some? then flags.isMuted.value else old'.isMuted,
               if flags.isDeafened.Some? then flags.isDeafened.value else old'.isDeafened)
  }

  function PutVoice(voices: map<Key, VoiceState>, k: Key, flags: Flags): map<Key, VoiceState> {
    voices[k := if k in voices then Merged(voices[k], flags) else Full(flags)]
  }

  function PutStates(voices: map<Key, VoiceState>, states: seq<(Key, Flags)>): map<Key, VoiceState>
    decreases |states|
  {
    if states == [] then voices else PutStates(voices[states[0].0 := Full(states[0].1)], states[1..])
  }

  function Apply(st: Stores, ev: Event): Stores {
    match ev
    case RingStarted(rs) => st.(rings := PutRings(st.rings, rs))
    case RingDismissed(r) => st.(rings := st.rings - {(r.channelId, r.recipientId)})
    case RingSnapshot(rs) => st.(rings := PutRings(map[], rs))
    case VoiceChanged(c, u, flags) => st.(voices := PutVoice(st.voices, (c, u), flags))
    case VoiceLeft(c, u) => st.(voices := st.voices - {(c, u)})
    case VoiceSnapshot(states) => st.(voices := PutStates(map[], states))
  }

  function ApplyAll(st: Stores, evs: seq<Event>): Stores
    decreases |evs|
  {
    if evs == [] then st else ApplyAll(Apply(st, evs[0]), evs[1..])
  }

  /** What the service sends to one user, in order. */
  function Inbox(me: Id, sent: seq<Emission>): seq<Event> {
    if sent == [] then []
    else (if me in sent[0].recipients then [sent[0].event] else []) + Inbox(me, sent[1..])
  }

  // ---------- agreement ----------

  /** The client's rings addressed to itself are the server's indexed rings for it. */
  ghost predicate RingsAgree(sets: map<Id, set<Id>>, rings: map<Key, Ring>, mine: map<Key, Ring>, me: Id) {
    && (forall c: Id :: (c, me) in mine <==> me in SMembers(sets, c))
    && (forall c: Id :: (c, me) in mine && (c, me) in rings ==> mine[(c, me)] == rings[(c, me)])
  }

  ghost predicate Tracks(chs: Channels, me: Id, c: Id) {
    c in chs && chs[c].isDM && me in chs[c].recipients
  }

  /** Flags the client still shows as set although a later join left them out, which unset them on the server:
      the server replaces the record, the client merges into its copy. */
  datatype Lag = Lag(muted: set<Key>, deafened: set<Key>)

  const NO_LAG := Lag({}, {})

  function LeftOut(lagging: set<Key>, k: Key, sent: Option<bool>, was: bool): set<Key> {
    if sent.None? && (was || k in lagging) then lagging + {k} else lagging - {k}
  }

  /** The lag after a step, told from the server's side alone. */
  function LagAfter(chs: Channels, s: Redis, lag: Lag, me: Id, a: Action): Lag {
    match a
    case DoJoin(u, c, flags) =>
      var k := (c, u);
      if u !in Audience(chs, c) then lag
      else Lag(LeftOut(lag.muted, k, flags.isMuted, k in s.voiceStates && Default(s.voiceStates[k].isMuted)),
               LeftOut(lag.deafened, k, flags.isDeafened, k in s.voiceStates && Default(s.voiceStates[k].isDeafened)))
    case DoLeave(u, c, _) =>
      if u !in Audience(chs, c) then lag else Lag(lag.muted - {(c, u)}, lag.deafened - {(c, u)})
    case DoUpdate(u, c, flags) =>
      var k := (c, u);
      if k !in s.voiceStates then lag
      else
        var merged := Overlaid(s.voiceStates[k], flags);
        Lag(LeftOut(lag.muted, k, merged.isMuted, false), LeftOut(lag.deafened, k, merged.isDeafened, false))
    case DoGetStates(u, _) => if u == me then NO_LAG else lag
    case _ => lag
  }

  /** Only flags the server's record leaves out can lag. */
  ghost predicate LagSound(states: map<Key, Flags>, lag: Lag) {
    && (forall k :: k in lag.muted ==> k in states && states[k].isMuted.None?)
    && (forall k :: k in lag.deafened ==> k in states && states[k].isDeafened.None?)
  }

  /** What the client shows for a record. */
  function Shown(stored: Flags, k: Key, lag: Lag): VoiceState {
    VoiceState(Default(stored.isMuted) || k in lag.muted, Default(stored.isDeafened) || k in lag.deafened)
  }

  /** In the direct-message channels of the user, the client holds the server's states, up to the lag. */
  ghost predicate VoicesAgree(chs: Channels, states: map<Key, Flags>, mine: map<Key, VoiceState>, me: Id, lag: Lag) {
    forall c: Id, u: Id :: Tracks(chs, me, c) ==>
      && ((c, u) in mine <==> (c, u) in states)
      && ((c, u) in mine && (c, u) in states ==> mine[(c, u)] == Shown(states[(c, u)], (c, u), lag))
  }

  ghost predicate Agree(chs: Channels, s: Redis, st: Stores, me: Id, lag: Lag) {
    && RingsAgree(s.ringSets, s.rings, st.rings, me) && VoicesAgree(chs, s.voiceStates, st.voices, me, lag)
    && LagSound(s.voiceStates, lag)
  }

  /** The join leaves out no flag that was set. */
  ghost predicate JoinComplete(s: Redis, a: Action) {
    a.DoJoin? && (a.channelId, a.userId) in s.voiceStates ==>
      var stored := s.voiceStates[(a.channelId, a.userId)];
      && (a.flags.isMuted.None? ==> !Default(stored.isMuted))
      && (a.flags.isDeafened.None? ==> !Default(stored.isDeafened))
  }

  // ---------- folds ----------

  lemma {:induction false} ApplyAppend(st: Stores, xs: seq<Event>, ys: seq<Event>)
    ensures ApplyAll(st, xs + ys) == ApplyAll(ApplyAll(st, xs), ys)
    decreases |xs|
  {
    if xs == [] {
      assert xs + ys == ys;
    } else {
      assert (xs + ys)[1..] == xs[1..] + ys;
      ApplyAppend(Apply(st, xs[0]), xs[1..], ys);
    }
  }

  lemma {:induction false} InboxAppend(me: Id, xs: seq<Emission>, ys: seq<Emission>)
    ensures Inbox(me, xs + ys) == Inbox(me, xs) + Inbox(me, ys)
  {
    if xs == [] {
      assert xs + ys == ys;
    } else {
      var head := if me in xs[0].recipients then [xs[0].event] else [];
      InboxAppend(me, xs[1..], ys);
      assert (xs + ys)[0] == xs[0] && (xs + ys)[1..] == xs[1..] + ys;
      assert head + (Inbox(me, xs[1..]) + Inbox(me, ys)) == head + Inbox(me, xs[1..]) + Inbox(me, ys);
    }
  }

  /** Rings filed under keys the sequence fixes: a key ends up with the ring that has it. */
  lemma {:induction false} PutRingsSpec(rings: map<Key, Ring>, rs: seq<Ring>, k: Key)
    requires forall a, b :: a in rs && b in rs && a.channelId == b.channelId && a.recipientId == b.recipientId ==>
        a == b
    ensures k in PutRings(rings, rs) <==> k in rings || exists r :: r in rs && (r.channelId, r.recipientId) == k
    ensures forall r :: r in rs && (r.channelId, r.recipientId) == k ==> PutRings(rings, rs)[k] == r
    ensures (forall r :: r in rs ==> (r.channelId, r.recipientId) != k) && k in rings ==>
        PutRings(rings, rs)[k] == rings[k]
    decreases |rs|
  {
    if rs != [] {
      var rest := rings[(rs[0].channelId, rs[0].recipientId) := rs[0]];
      assert rs == [rs[0]] + rs[1..];
      PutRingsSpec(rest, rs[1..], k);
    }
  }

  lemma {:induction false} PutStatesSpec(voices: map<Key, VoiceState>, states: seq<(Key, Flags)>, k: Key)
    requires forall a, b :: a in states && b in states && a.0 == b.0 ==> a == b
    ensures k in PutStates(voices, states) <==> k in voices || exists f :: (k, f) in states
    ensures forall f :: (k, f) in states ==> PutStates(voices, states)[k] == Full(f)
    ensures (forall f :: (k, f) !in states) && k in voices ==> PutStates(voices, states)[k] == voices[k]
    decreases |states|
  {
    if states != [] {
      assert states == [states[0]] + states[1..];
      assert states[0] == (states[0].0, states[0].1);
      PutStatesSpec(voices[states[0].0 := Full(states[0].1)], states[1..], k);
    }
  }

  /** The same fold on the server: each ring of the sequence gets its key and its index entry. */
  lemma {:induction false} StartRingsSpec(s: Redis, rs: seq<Ring>, c: Id, u: Id)
    requires forall a, b :: a in rs && b in rs && a.channelId == b.channelId && a.recipientId == b.recipientId ==>
        a == b
    ensures var s' := StartRings(s, rs);
            && s'.voiceStates == s.voiceStates
            && (u in SMembers(s'.ringSets, c) <==>
                  u in SMembers(s.ringSets, c) || exists r :: r in rs && r.channelId == c && r.recipientId == u)
            && (forall r :: r in rs && r.channelId == c && r.recipientId == u ==>
                  (c, u) in s'.rings && s'.rings[(c, u)] == r)
            && ((forall r :: r in rs ==> !(r.channelId == c && r.recipientId == u)) ==>
                  ((c, u) in s'.rings <==> (c, u) in s.rings)
                      && ((c, u) in s.rings ==> s'.rings[(c, u)] == s.rings[(c, u)]))
    decreases |rs|
  {
    if rs != [] {
      assert rs == [rs[0]] + rs[1..];
      StartRingsSpec(StartRing(s, rs[0]), rs[1..], c, u);
    }
  }

  // ---------- one lemma per service method: what it sends keeps the replicas in agreement ----------

  lemma RingAgrees(chs: Channels, s: Redis, st: Stores, me: Id, lag: Lag, userId: Id, c: Id)
    requires Agree(chs, s, st, me, lag)
    ensures var (s', sent) := RingChannel(chs, s, userId, c);
            Agree(chs, s', ApplyAll(st, Inbox(me, sent)), me, lag)
  {
    if CanRing(chs, userId, c) {
      var rs := Payloads(userId, c, chs[c].recipients);
      PayloadsSpec(userId, c, chs[c].recipients);
      var s' := StartRings(s, rs);
      var sent := [Emission(chs[c].recipients, RingStarted(rs))];
      OneEmission(st, me, sent[0]);
      var st' := ApplyAll(st, Inbox(me, sent));
      StartRingsSpec(s, rs, c, me);
      forall d: Id
        ensures (d, me) in st'.rings <==> me in SMembers(s'.ringSets, d)
        ensures (d, me) in st'.rings && (d, me) in s'.rings ==> st'.rings[(d, me)] == s'.rings[(d, me)]
      {
        StartRingsSpec(s, rs, d, me);
        PutRingsSpec(st.rings, rs, (d, me));
      }
    }
  }

  lemma DismissAgrees(chs: Channels, s: Redis, st: Stores, me: Id, lag: Lag, userId: Id, c: Id)
    requires RingInv(chs, s) && Agree(chs, s, st, me, lag)
    ensures var (s', sent) := Dismiss(s, userId, c);
            Agree(chs, s', ApplyAll(st, Inbox(me, sent)), me, lag)
  {
    if (c, userId) in s.rings {
      var r := s.rings[(c, userId)];
      var (s', sent) := Dismiss(s, userId, c);
      OneEmission(st, me, sent[0]);
    }
  }

  /** A single emission reaches the client as one event, or not at all. */
  lemma OneEmission(st: Stores, me: Id, em: Emission)
    ensures ApplyAll(st, Inbox(me, [em])) == if me in em.recipients then Apply(st, em.event) else st
  {
    assert [em][1..] == [];
    if me in em.recipients {
      assert Inbox(me, [em]) == [em.event] && [em.event][1..] == [];
    } else {
      assert Inbox(me, [em]) == [];
    }
  }

  /** Telling the audience about a changed state. Only this key's lag may change with it. */
  lemma TellAgrees(chs: Channels, s: Redis, s': Redis, st: Stores, me: Id, lag: Lag, lag': Lag, c: Id, u: Id,
                   stored: Flags, flags: Flags)
    requires Agree(chs, s, st, me, lag) && c in chs && LagSound(s'.voiceStates, lag')
    requires s'.ringSets == s.ringSets && s'.rings == s.rings && s'.voiceStates == s.voiceStates[(c, u) := stored]
    requires forall k: Key :: k != (c, u) ==>
               (k in lag'.muted <==> k in lag.muted) && (k in lag'.deafened <==> k in lag.deafened)
    requires Shown(stored, (c, u), lag')
             == if (c, u) in s.voiceStates then Merged(Shown(s.voiceStates[(c, u)], (c, u), lag), flags)
                else Full(flags)
    ensures Agree(chs, s', ApplyAll(st, Inbox(me, [Emission(Audience(chs, c), VoiceChanged(c, u, flags))])), me, lag')
  {
    var sent := [Emission(Audience(chs, c), VoiceChanged(c, u, flags))];
    OneEmission(st, me, sent[0]);
  }

  /** A join is a dismissal of the user's ring followed by the new state. */
  lemma JoinIsDismissThenTell(chs: Channels, s: Redis, userId: Id, c: Id, flags: Flags)
    requires userId in Audience(chs, c)
    ensures var (s1, dismissed) := Dismiss(s, userId, c);
            var (s2, sent) := Join(chs, s, userId, c, flags);
            && s2.voiceStates == s1.voiceStates[(c, userId) := flags]
            && s2.ringSets == s1.ringSets && s2.rings == s1.rings
            && sent == dismissed + [Emission(Audience(chs, c), VoiceChanged(c, userId, flags))]
            && s1.voiceStates == s.voiceStates
  {
  }

  lemma JoinAgrees(chs: Channels, s: Redis, st: Stores, me: Id, lag: Lag, userId: Id, c: Id, flags: Flags)
    requires RingInv(chs, s) && Agree(chs, s, st, me, lag)
    ensures var (s', sent) := Join(chs, s, userId, c, flags);
            Agree(chs, s', ApplyAll(st, Inbox(me, sent)), me, LagAfter(chs, s, lag, me, DoJoin(userId, c, flags)))
  {
    if userId in Audience(chs, c) {
      var lag' := LagAfter(chs, s, lag, me, DoJoin(userId, c, flags));
      var (s1, dismissed) := Dismiss(s, userId, c);
      var told := [Emission(Audience(chs, c), VoiceChanged(c, userId, flags))];
      var s2 := Join(chs, s, userId, c, flags).0;
      JoinIsDismissThenTell(chs, s, userId, c, flags);
      DismissAgrees(chs, s, st, me, lag, userId, c);
      var st1 := ApplyAll(st, Inbox(me, dismissed));
      TellAgrees(chs, s1, s2, st1, me, lag, lag', c, userId, flags, flags);
      InboxAppend(me, dismissed, told);
      ApplyAppend(st, Inbox(me, dismissed), Inbox(me, told));
    } else {
      assert Inbox(me, []) == [];
    }
  }

  lemma UpdateAgrees(chs: Channels, s: Redis, st: Stores, me: Id, lag: Lag, userId: Id, c: Id, flags: Flags)
    requires Inv(chs, s) && Agree(chs, s, st, me, lag)
    ensures var (s', sent) := Update(chs, s, userId, c, flags);
            Agree(chs, s', ApplyAll(st, Inbox(me, sent)), me, LagAfter(chs, s, lag, me, DoUpdate(userId, c, flags)))
  {
    var (s', sent) := Update(chs, s, userId, c, flags);
    if (c, userId) in s.voiceStates {
      var merged := Overlaid(s.voiceStates[(c, userId)], flags);
      var lag' := LagAfter(chs, s, lag, me, DoUpdate(userId, c, flags));
      assert userId in Audience(chs, c);
      assert s'.voiceStates == s.voiceStates[(c, userId) := merged];
      if chs[c].isDM {
        TellAgrees(chs, s, s', st, me, lag, lag', c, userId, merged, merged);
      } else {
        UpdateElsewhereAgrees(chs, s, st, me, lag, userId, c, flags);
      }
    }
  }

  /** Outside direct messages nothing is tracked. */
  lemma UpdateElsewhereAgrees(chs: Channels, s: Redis, st: Stores, me: Id, lag: Lag, userId: Id, c: Id, flags: Flags)
    requires Agree(chs, s, st, me, lag) && c in chs && !chs[c].isDM && (c, userId) in s.voiceStates
    ensures var (s', sent) := Update(chs, s, userId, c, flags);
            Agree(chs, s', ApplyAll(st, Inbox(me, sent)), me, LagAfter(chs, s, lag, me, DoUpdate(userId, c, flags)))
  {
    var (s', sent) := Update(chs, s, userId, c, flags);
    if sent != [] { OneEmission(st, me, sent[0]); }
  }

  /** The dismissals of a cleared channel remove the client's own ring from it, and nothing else of its own. */
  lemma {:induction false} DismissalsApply(st: Stores, me: Id, cleared: seq<Ring>, c: Id)
    requires forall r :: r in cleared ==> r.channelId == c
    ensures var st' := ApplyAll(st, Inbox(me, Dismissals(cleared)));
            && st'.voices == st.voices
            && (forall d: Id :: (d, me) in st'.rings <==>
                  (d, me) in st.rings && !(d == c && exists r :: r in cleared && r.recipientId == me))
            && (forall d: Id :: (d, me) in st'.rings && (d, me) in st.rings ==> st'.rings[(d, me)] == st.rings[(d, me)])
    decreases |cleared|
  {
    var sent := Dismissals(cleared);
    if cleared != [] {
      var r := cleared[0];
      assert cleared == [r] + cleared[1..];
      assert sent[1..] == Dismissals(cleared[1..]);
      var st1 := if me in sent[0].recipients then Apply(st, RingDismissed(r)) else st;
      if me in sent[0].recipients {
        assert Inbox(me, sent)[1..] == Inbox(me, sent[1..]);
      } else {
        assert Inbox(me, sent) == Inbox(me, sent[1..]);
      }
      assert ApplyAll(st, Inbox(me, sent)) == ApplyAll(st1, Inbox(me, sent[1..]));
      DismissalsApply(st1, me, cleared[1..], c);
    }
  }

  lemma ClearAgrees(chs: Channels, s: Redis, st: Stores, me: Id, lag: Lag, c: Id, cleared: seq<Ring>)
    requires RingInv(chs, s) && Agree(chs, s, st, me, lag) && ListsChannelRings(s, c, cleared)
    ensures var (s', sent) := ClearRings(s, c, cleared);
            Agree(chs, s', ApplyAll(st, Inbox(me, sent)), me, lag)
  {
    assert forall r :: r in cleared ==> IndexedIn(s, c, r) && r.channelId == c;
    DismissalsApply(st, me, cleared, c);
    var s' := ClearRings(s, c, cleared).0;
    if me in SMembers(s.ringSets, c) {
      assert IndexedIn(s, c, s.rings[(c, me)]);
      assert s.rings[(c, me)] in cleared;
    }
    assert forall d :: d != c ==> SMembers(s'.ringSets, d) == SMembers(s.ringSets, d);
  }

  lemma LeaveAgrees(chs: Channels, s: Redis, st: Stores, me: Id, lag: Lag, userId: Id, c: Id, cleared: seq<Ring>)
    requires RingInv(chs, s) && Agree(chs, s, st, me, lag) && ListsChannelRings(s, c, cleared)
    ensures var (s', sent) := Leave(chs, s, userId, c, cleared);
            Agree(chs, s', ApplyAll(st, Inbox(me, sent)), me, LagAfter(chs, s, lag, me, DoLeave(userId, c, cleared)))
  {
    if userId in Audience(chs, c) {
      var s' := Leave(chs, s, userId, c, cleared).0;
      var last := SMembers(SRem(s.voiceSets, c, userId), c) == {};
      var (s1, dismissed) := if last then ClearRings(s, c, cleared) else (s, []);
      if last { ClearAgrees(chs, s, st, me, lag, c, cleared); }
      var st1 := ApplyAll(st, Inbox(me, dismissed));
      assert Agree(chs, s1, st1, me, lag);
      var told := [Emission(Audience(chs, c), VoiceLeft(c, userId))];
      LeftAgrees(chs, s1, s', st1, me, lag, c, userId);
      InboxAppend(me, dismissed, told);
      ApplyAppend(st, Inbox(me, dismissed), Inbox(me, told));
    }
  }

  lemma LeftAgrees(chs: Channels, s: Redis, s': Redis, st: Stores, me: Id, lag: Lag, c: Id, u: Id)
    requires Agree(chs, s, st, me, lag) && c in chs
    requires s'.ringSets == s.ringSets && s'.rings == s.rings && s'.voiceStates == s.voiceStates - {(c, u)}
    ensures Agree(chs, s', ApplyAll(st, Inbox(me, [Emission(Audience(chs, c), VoiceLeft(c, u))])), me,
                  Lag(lag.muted - {(c, u)}, lag.deafened - {(c, u)}))
  {
    var sent := [Emission(Audience(chs, c), VoiceLeft(c, u))];
    OneEmission(st, me, sent[0]);
  }

  /** Whatever the client held before, a snapshot of rings puts it right. */
  lemma RingSnapshotAgrees(chs: Channels, s: Redis, me: Id, rings: seq<Ring>)
    requires RingInv(chs, s) && ListsRings(chs, s, me, rings)
    ensures RingsAgree(s.ringSets, s.rings, PutRings(map[], rings), me)
  {
    forall r | r in rings ensures (r.channelId, r.recipientId) in s.rings
        && s.rings[(r.channelId, r.recipientId)] == r {
      var c :| c in chs && me in chs[c].recipients && IndexedIn(s, c, r);
      var u :| u in SMembers(s.ringSets, c) && (c, u) in s.rings && s.rings[(c, u)] == r;
    }
    forall c: Id
      ensures (c, me) in PutRings(map[], rings) <==> me in SMembers(s.ringSets, c)
      ensures (c, me) in PutRings(map[], rings) ==> PutRings(map[], rings)[(c, me)] == s.rings[(c, me)]
    {
      PutRingsSpec(map[], rings, (c, me));
      if me in SMembers(s.ringSets, c) {
        assert IndexedIn(s, c, s.rings[(c, me)]);
        assert s.rings[(c, me)] in rings;
      }
      if r :| r in rings && (r.channelId, r.recipientId) == (c, me) {
        var d :| d in chs && me in chs[d].recipients && IndexedIn(s, d, r);
        var u :| u in SMembers(s.ringSets, d) && (d, u) in s.rings && s.rings[(d, u)] == r;
        assert d == c && u == me;
      }
    }
  }

  /** The snapshot read through the index is a full scan of the records of the user's channels. */
  lemma SnapshotIsFullScan(chs: Channels, s: Redis, me: Id, states: seq<(Key, Flags)>)
    requires VoiceInv(chs, s) && ListsVoiceStates(chs, s, me, states)
    ensures forall k: Key, f :: (k, f) in states <==>
              k in s.voiceStates && s.voiceStates[k] == f && k.0 in chs && me in chs[k.0].recipients
  {
    assert forall k: Key :: k in s.voiceStates ==> (k.0, k.1) == k;
  }

  lemma VoiceSnapshotAgrees(chs: Channels, s: Redis, me: Id, states: seq<(Key, Flags)>)
    requires VoiceInv(chs, s) && ListsVoiceStates(chs, s, me, states)
    ensures VoicesAgree(chs, s.voiceStates, PutStates(map[], states), me, NO_LAG)
  {
    SnapshotIsFullScan(chs, s, me, states);
    forall a, b | a in states && b in states && a.0 == b.0 ensures a == b {
      assert a == (a.0, a.1) && b == (b.0, b.1);
    }
    forall c: Id, u: Id | Tracks(chs, me, c)
      ensures (c, u) in PutStates(map[], states) <==> (c, u) in s.voiceStates
      ensures (c, u) in PutStates(map[], states) ==> PutStates(map[], states)[(c, u)] == Full(s.voiceStates[(c, u)])
    {
      PutStatesSpec(map[], states, (c, u));
      if (c, u) in s.voiceStates { assert ((c, u), s.voiceStates[(c, u)]) in states; }
    }
  }

  lemma StepAgrees(chs: Channels, s: Redis, st: Stores, me: Id, lag: Lag, a: Action)
    requires Inv(chs, s) && Agree(chs, s, st, me, lag) && Enabled(chs, s, a)
    ensures var (s', sent) := Step(chs, s, a);
            Agree(chs, s', ApplyAll(st, Inbox(me, sent)), me, LagAfter(chs, s, lag, me, a))
  {
    match a
    case DoRing(u, c) => RingAgrees(chs, s, st, me, lag, u, c);
    case DoDismiss(u, c) => DismissAgrees(chs, s, st, me, lag, u, c);
    case DoJoin(u, c, flags) => JoinAgrees(chs, s, st, me, lag, u, c, flags);
    case DoLeave(u, c, cleared) => LeaveAgrees(chs, s, st, me, lag, u, c, cleared);
    case DoUpdate(u, c, flags) => UpdateAgrees(chs, s, st, me, lag, u, c, flags);
    case DoGetStates(u, states) =>
      OneEmission(st, me, Emission([u], VoiceSnapshot(states)));
      if u == me { VoiceSnapshotAgrees(chs, s, me, states); }
    case DoGetRings(u, rings) =>
      OneEmission(st, me, Emission([u], RingSnapshot(rings)));
      if u == me { RingSnapshotAgrees(chs, s, me, rings); }
    case Wait(_) => assert Inbox(me, []) == [];
    case Fire(t) => DismissAgrees(chs, s.(timers := s.timers - multiset{t}), st, me, lag, t.userId, t.channelId);
  }

  // ---------- runs with a queue between service and client ----------

  /** What the client has applied, and what is still on its way to it, in order. `lag` is told from the served
      actions and tracks nothing of the client. */
  datatype Link = Link(server: Redis, stores: Stores, queue: seq<Event>, lag: Lag)

  datatype Move = Serve(action: Action) | Deliver

  const EMPTY_LINK := Link(UNUSED, Stores(map[], map[]), [], NO_LAG)

  ghost predicate CanMove(chs: Channels, w: Link, m: Move) {
    match m
    case Serve(a) => Enabled(chs, w.server, a)
    case Deliver => w.queue != []
  }

  function MoveOn(chs: Channels, w: Link, me: Id, m: Move): Link {
    match m
    case Serve(a) =>
      var (s', sent) := Step(chs, w.server, a);
      w.(server := s', queue := w.queue + Inbox(me, sent), lag := LagAfter(chs, w.server, w.lag, me, a))
    case Deliver => if w.queue == [] then w else w.(stores := Apply(w.stores, w.queue[0]), queue := w.queue[1..])
  }

  ghost predicate IsLinkRun(chs: Channels, me: Id, links: seq<Link>, moves: seq<Move>) {
    && |links| == |moves| + 1 && links[0] == EMPTY_LINK
    && forall i {:trigger moves[i]} :: 0 <= i < |moves| ==>
         CanMove(chs, links[i], moves[i]) && links[i + 1] == MoveOn(chs, links[i], me, moves[i])
  }

  /** What the client will hold once it has heard everything agrees with the server, up to the lag. */
  ghost predicate LinkInv(chs: Channels, w: Link, me: Id) {
    Inv(chs, w.server) && Agree(chs, w.server, ApplyAll(w.stores, w.queue), me, w.lag)
  }

  lemma MoveAgrees(chs: Channels, w: Link, me: Id, m: Move)
    requires LinkInv(chs, w, me) && CanMove(chs, w, m)
    ensures LinkInv(chs, MoveOn(chs, w, me, m), me)
  {
    match m
    case Serve(a) =>
      var (s', sent) := Step(chs, w.server, a);
      StepInv(chs, w.server, a);
      StepAgrees(chs, w.server, ApplyAll(w.stores, w.queue), me, w.lag, a);
      ApplyAppend(w.stores, w.queue, Inbox(me, sent));
    case Deliver =>
  }

  lemma {:induction false} LinkRunAgrees(chs: Channels, me: Id, links: seq<Link>, moves: seq<Move>, i: nat)
    requires IsLinkRun(chs, me, links, moves) && i < |links|
    ensures LinkInv(chs, links[i], me)
  {
    if i > 0 {
      LinkRunAgrees(chs, me, links, moves, i - 1);
      MoveAgrees(chs, links[i - 1], me, moves[i - 1]);
    }
  }

  /** The main result, over every run: whenever everything sent has been delivered, the client's own rings are
      the server's indexed rings for it, it holds voice states for the same users of its direct-message
      channels, and each is the server's exactly when neither of its flags lags. */
  lemma CaughtUpClientAgrees(chs: Channels, me: Id, links: seq<Link>, moves: seq<Move>, i: nat)
    requires IsLinkRun(chs, me, links, moves) && i < |links| && links[i].queue == []
    ensures RingsAgree(links[i].server.ringSets, links[i].server.rings, links[i].stores.rings, me)
    ensures forall c: Id, u: Id :: Tracks(chs, me, c) ==>
              ((c, u) in links[i].stores.voices <==> (c, u) in links[i].server.voiceStates)
    ensures forall c: Id, u: Id :: Tracks(chs, me, c) && (c, u) in links[i].server.voiceStates ==>
              (links[i].stores.voices[(c, u)] == Full(links[i].server.voiceStates[(c, u)])
               <==> (c, u) !in links[i].lag.muted && (c, u) !in links[i].lag.deafened)
  {
    LinkRunAgrees(chs, me, links, moves, i);
  }

  /** If no join ever leaves out a flag that was set, nothing lags. */
  lemma {:induction false} CompleteJoinsNeverLag(chs: Channels, me: Id, links: seq<Link>, moves: seq<Move>, i: nat)
    requires IsLinkRun(chs, me, links, moves) && i < |links|
    requires forall j :: 0 <= j < i && moves[j].Serve? ==> JoinComplete(links[j].server, moves[j].action)
    ensures links[i].lag == NO_LAG
  {
    if i > 0 {
      CompleteJoinsNeverLag(chs, me, links, moves, i - 1);
      assert links[i] == MoveOn(chs, links[i - 1], me, moves[i - 1]);
    }
  }

  /** A join heard by a client in full agreement keeps full agreement exactly when it leaves out no flag that
      was set. */
  lemma JoinAgreesIff(chs: Channels, s: Redis, st: Stores, me: Id, userId: Id, c: Id, flags: Flags)
    requires RingInv(chs, s) && Agree(chs, s, st, me, NO_LAG) && Tracks(chs, me, c) && userId in Audience(chs, c)
    ensures var (s', sent) := Join(chs, s, userId, c, flags);
            VoicesAgree(chs, s'.voiceStates, ApplyAll(st, Inbox(me, sent)).voices, me, NO_LAG)
            <==> JoinComplete(s, DoJoin(userId, c, flags))
  {
    var (s', sent) := Join(chs, s, userId, c, flags);
    var lag' := LagAfter(chs, s, NO_LAG, me, DoJoin(userId, c, flags));
    JoinAgrees(chs, s, st, me, NO_LAG, userId, c, flags);
    JoinIsDismissThenTell(chs, s, userId, c, flags);
    var voices := ApplyAll(st, Inbox(me, sent)).voices;
    assert voices[(c, userId)] == Shown(flags, (c, userId), lag');
    if !JoinComplete(s, DoJoin(userId, c, flags)) {
      assert Shown(flags, (c, userId), lag') != Shown(flags, (c, userId), NO_LAG);
    }
  }

  // ---------- a run in which client and server part ----------

  // User 1 joins the channel of users 1 and 2 muted, and joins again without saying so.
  const DUO: Channels := map[5 := Channel(true, [1, 2], [])]
  const MUTED := Flags(Some(true), None)
  const UNSAID := Flags(None, None)

  /** A join of user 1, and user 2 hearing of it. */
  function Heard(w: Link, flags: Flags): Link {
    MoveOn(DUO, MoveOn(DUO, w, 2, Serve(DoJoin(1, 5, flags))), 2, Deliver)
  }

  lemma JoinIsHeard(w: Link, flags: Flags)
    requires w.server.rings == map[] && w.queue == []
    ensures CanMove(DUO, MoveOn(DUO, w, 2, Serve(DoJoin(1, 5, flags))), Deliver)
    ensures var w' := Heard(w, flags);
            && w'.queue == [] && w'.server.rings == map[]
            && w'.server.voiceStates == w.server.voiceStates[(5, 1) := flags]
            && w'.lag == LagAfter(DUO, w.server, w.lag, 2, DoJoin(1, 5, flags))
  {
    var em := Emission([1, 2], VoiceChanged(5, 1, flags));
    assert Join(DUO, w.server, 1, 5, flags).1 == [em];
    assert [em][1..] == [] && 2 in em.recipients;
    assert Inbox(2, [em]) == [em.event];
  }

  lemma PartingRun() returns (links: seq<Link>, moves: seq<Move>)
    ensures IsLinkRun(DUO, 2, links, moves) && |moves| == 4 && links[4] == Heard(Heard(EMPTY_LINK, MUTED), UNSAID)
    ensures links[4].queue == []
  {
    var m0, m2 := Serve(DoJoin(1, 5, MUTED)), Serve(DoJoin(1, 5, UNSAID));
    var l2 := Heard(EMPTY_LINK, MUTED);
    JoinIsHeard(EMPTY_LINK, MUTED);
    JoinIsHeard(l2, UNSAID);
    links := [EMPTY_LINK, MoveOn(DUO, EMPTY_LINK, 2, m0), l2, MoveOn(DUO, l2, 2, m2), Heard(l2, UNSAID)];
    moves := [m0, Deliver, m2, Deliver];
  }

  lemma PartingLags()
    ensures var w := Heard(Heard(EMPTY_LINK, MUTED), UNSAID);
            (5, 1) in w.lag.muted && (5, 1) in w.server.voiceStates
  {
    JoinIsHeard(EMPTY_LINK, MUTED);
    JoinIsHeard(Heard(EMPTY_LINK, MUTED), UNSAID);
  }

  lemma IncompleteJoinDisagrees()
    ensures exists chs: Channels, me: Id, links: seq<Link>, moves: seq<Move> ::
              && IsLinkRun(chs, me, links, moves) && links[|moves|].queue == []
              && !VoicesAgree(chs, links[|moves|].server.voiceStates, links[|moves|].stores.voices, me, NO_LAG)
  {
    var links, moves := PartingRun();
    PartingLags();
    var w, k: Key := links[|moves|], (5, 1);
    CaughtUpClientAgrees(DUO, 2, links, moves, 4);
    assert Tracks(DUO, 2, 5);
    assert Shown(w.server.voiceStates[k], k, NO_LAG) == Full(w.server.voiceStates[k]);
  }
}
