/** Voice states and rings told from the actions of a run alone: who is in which channel with which flags, who is being
    rung by whom, and who is told what. */
module VoiceHistory {
  import opened Common
  import opened Voice
  import opened VoiceReplica

  // ---------- what the actions say, without looking at Redis ----------

  /** A direct-message channel is for its recipients, a guild channel for its members. */
  predicate MaySpeak(chs: Channels, u: Id, c: Id) {
    c in chs && if chs[c].isDM then u in chs[c].recipients else u in chs[c].members
  }

  /** Rings need recipients; a group channel is rung by its recipients only. */
  predicate MayRing(chs: Channels, u: Id, c: Id) {
    c in chs && |chs[c].recipients| > 0 && (chs[c].isDM || u in chs[c].recipients)
  }

  predicate JoinsVoice(chs: Channels, a: Action, c: Id, u: Id) {
    a.DoJoin? && a.userId == u && a.channelId == c && MaySpeak(chs, u, c)
  }

  predicate LeavesVoice(chs: Channels, a: Action, c: Id, u: Id) {
    a.DoLeave? && a.userId == u && a.channelId == c && MaySpeak(chs, u, c)
  }

  predicate InVoice(chs: Channels, actions: seq<Action>, c: Id, u: Id) {
    actions != [] &&
    var earlier, a := actions[..|actions| - 1], actions[|actions| - 1];
    JoinsVoice(chs, a, c, u) || (InVoice(chs, earlier, c, u) && !LeavesVoice(chs, a, c, u))
  }

  /** An update of u's state in c. */
  predicate UpdatesVoice(a: Action, c: Id, u: Id) {
    a.DoUpdate? && a.userId == u && a.channelId == c
  }

  /** The last word on being muted: a join says everything anew, an update only what it carries. */
  function Muted(chs: Channels, actions: seq<Action>, c: Id, u: Id): Option<bool> {
    if actions == [] then None
    else
      var earlier, a := actions[..|actions| - 1], actions[|actions| - 1];
      if JoinsVoice(chs, a, c, u) then a.flags.isMuted
      else if UpdatesVoice(a, c, u) && InVoice(chs, earlier, c, u) && a.flags.isMuted.Some? then a.flags.isMuted
      else Muted(chs, earlier, c, u)
  }

  function Deafened(chs: Channels, actions: seq<Action>, c: Id, u: Id): Option<bool> {
    if actions == [] then None
    else
      var earlier, a := actions[..|actions| - 1], actions[|actions| - 1];
      if JoinsVoice(chs, a, c, u) then a.flags.isDeafened
      else if UpdatesVoice(a, c, u) && InVoice(chs, earlier, c, u) && a.flags.isDeafened.Some? then a.flags.isDeafened
      else Deafened(chs, earlier, c, u)
  }

  /** The action rings u in c. */
  predicate RingsUser(chs: Channels, a: Action, c: Id, u: Id) {
    a.DoRing? && a.channelId == c && MayRing(chs, a.userId, c) && u in chs[c].recipients && u != a.userId
  }

  /** The action ends whatever ring there is for u in c: a dismissal, a join, or a timer of theirs. */
  predicate EndsRing(chs: Channels, a: Action, c: Id, u: Id) {
    || a == DoDismiss(u, c)
    || JoinsVoice(chs, a, c, u)
    || (a.Fire? && a.timer.channelId == c && a.timer.userId == u)
  }

  /** Who last rang u in c, if nothing has ended it since. */
  function RungBy(chs: Channels, actions: seq<Action>, c: Id, u: Id): Option<Id> {
    if actions == [] then None
    else
      var a := actions[|actions| - 1];
      if RingsUser(chs, a, c, u) then Some(a.userId)
      else if EndsRing(chs, a, c, u) then None
      else RungBy(chs, actions[..|actions| - 1], c, u)
  }

  /** The action empties the channel. */
  ghost predicate Empties(chs: Channels, earlier: seq<Action>, a: Action, c: Id) {
    a.DoLeave? && a.channelId == c && MaySpeak(chs, a.userId, c)
    && forall v: Id :: v != a.userId ==> !InVoice(chs, earlier, c, v)
  }

  /** u is being rung in c, and nobody has been the last to leave c since. */
  ghost predicate Ringing(chs: Channels, actions: seq<Action>, c: Id, u: Id) {
    actions != [] &&
    var earlier, a := actions[..|actions| - 1], actions[|actions| - 1];
    || RingsUser(chs, a, c, u)
    || (Ringing(chs, earlier, c, u) && !EndsRing(chs, a, c, u) && !Empties(chs, earlier, a, c))
  }

  // ---------- Redis says the same ----------

  ghost predicate VoiceTold(chs: Channels, s: Redis, actions: seq<Action>) {
    forall c: Id, u: Id :: InVoice(chs, actions, c, u) <==> (c, u) in s.voiceStates
  }

  ghost predicate FlagsTold(chs: Channels, s: Redis, actions: seq<Action>) {
    forall c: Id, u: Id :: (c, u) in s.voiceStates ==>
      s.voiceStates[(c, u)] == Flags(Muted(chs, actions, c, u), Deafened(chs, actions, c, u))
  }

  ghost predicate RingsTold(chs: Channels, s: Redis, actions: seq<Action>) {
    forall c: Id, u: Id ::
      && (RungBy(chs, actions, c, u).Some? <==> (c, u) in s.rings)
      && ((c, u) in s.rings && RungBy(chs, actions, c, u).Some? ==>
            s.rings[(c, u)] == Ring(RungBy(chs, actions, c, u).value, c, u))
  }

  ghost predicate IndexTold(chs: Channels, s: Redis, actions: seq<Action>) {
    forall c: Id, u: Id :: Ringing(chs, actions, c, u) <==> u in SMembers(s.ringSets, c)
  }

  lemma AudienceMaySpeak(chs: Channels, u: Id, c: Id)
    ensures u in Audience(chs, c) <==> MaySpeak(chs, u, c)
    ensures CanRing(chs, u, c) <==> MayRing(chs, u, c)
  {
  }

  lemma {:induction false} RingsKeepVoices(s: Redis, rs: seq<Ring>)
    ensures StartRings(s, rs).voiceStates == s.voiceStates && StartRings(s, rs).voiceSets == s.voiceSets
    decreases |rs|
  {
    if rs != [] { RingsKeepVoices(StartRing(s, rs[0]), rs[1..]); }
  }

  lemma RingKeepsVoices(chs: Channels, s: Redis, v: Id, d: Id)
    ensures RingChannel(chs, s, v, d).0.voiceStates == s.voiceStates
  {
    if CanRing(chs, v, d) { RingsKeepVoices(s, Payloads(v, d, chs[d].recipients)); }
  }

  lemma JoinStores(chs: Channels, s: Redis, v: Id, d: Id, flags: Flags)
    ensures Join(chs, s, v, d, flags).0.voiceStates
            == if MaySpeak(chs, v, d) then s.voiceStates[(d, v) := flags] else s.voiceStates
  {
    AudienceMaySpeak(chs, v, d);
  }

  lemma LeaveForgets(chs: Channels, s: Redis, v: Id, d: Id, cleared: seq<Ring>)
    ensures Leave(chs, s, v, d, cleared).0.voiceStates
            == if MaySpeak(chs, v, d) then s.voiceStates - {(d, v)} else s.voiceStates
  {
    AudienceMaySpeak(chs, v, d);
  }

  /** An update replaces each flag it carries, keeps each it leaves out, and touches no other record. */
  lemma UpdateStores(chs: Channels, s: Redis, v: Id, d: Id, flags: Flags)
    ensures var states := Update(chs, s, v, d, flags).0.voiceStates;
            if (d, v) !in s.voiceStates then states == s.voiceStates
            else
              && states.Keys == s.voiceStates.Keys
              && (forall k: Key :: k in s.voiceStates && k != (d, v) ==> states[k] == s.voiceStates[k])
              && var was, now := s.voiceStates[(d, v)], states[(d, v)];
                 && now.isMuted == (if flags.isMuted.Some? then flags.isMuted else was.isMuted)
                 && now.isDeafened == (if flags.isDeafened.Some? then flags.isDeafened else was.isDeafened)
  {
  }

  /** What a step leaves in a record: the flags of a join, those an update carries over the former ones, and else the
      former ones. No other record moves. */
  ghost predicate RecordAfter(chs: Channels, s: Redis, a: Action, s': Redis, c: Id, u: Id) {
    && ((c, u) in s'.voiceStates
        <==> JoinsVoice(chs, a, c, u) || ((c, u) in s.voiceStates && !LeavesVoice(chs, a, c, u)))
    && ((c, u) in s'.voiceStates ==>
          var now := s'.voiceStates[(c, u)];
          if JoinsVoice(chs, a, c, u) then now == a.flags
          else
            && (c, u) in s.voiceStates
            && var was := s.voiceStates[(c, u)];
               if UpdatesVoice(a, c, u)
               then && now.isMuted == (if a.flags.isMuted.Some? then a.flags.isMuted else was.isMuted)
                    && now.isDeafened == (if a.flags.isDeafened.Some? then a.flags.isDeafened else was.isDeafened)
               else now == was)
  }

  lemma StepRecord(chs: Channels, s: Redis, a: Action, c: Id, u: Id)
    ensures RecordAfter(chs, s, a, Step(chs, s, a).0, c, u)
  {
    match a
    case DoRing(v, d) => RingKeepsVoices(chs, s, v, d);
    case DoJoin(v, d, flags) => JoinStores(chs, s, v, d, flags);
    case DoLeave(v, d, cleared) => LeaveForgets(chs, s, v, d, cleared);
    case DoUpdate(v, d, flags) => UpdateStores(chs, s, v, d, flags);
    case _ =>
  }

  lemma RecordStaysTold(chs: Channels, s: Redis, earlier: seq<Action>, a: Action, s': Redis, c: Id, u: Id)
    requires InVoice(chs, earlier, c, u) <==> (c, u) in s.voiceStates
    requires (c, u) in s.voiceStates ==>
               s.voiceStates[(c, u)] == Flags(Muted(chs, earlier, c, u), Deafened(chs, earlier, c, u))
    requires RecordAfter(chs, s, a, s', c, u)
    ensures InVoice(chs, earlier + [a], c, u) <==> (c, u) in s'.voiceStates
    ensures (c, u) in s'.voiceStates ==>
              s'.voiceStates[(c, u)] == Flags(Muted(chs, earlier + [a], c, u), Deafened(chs, earlier + [a], c, u))
  {
    assert (earlier + [a])[..|earlier|] == earlier;
  }

  /** What a step does to one ring key. */
  ghost predicate RingAfter(chs: Channels, s: Redis, a: Action, s': Redis, c: Id, u: Id) {
    if RingsUser(chs, a, c, u) then (c, u) in s'.rings && s'.rings[(c, u)] == Ring(a.userId, c, u)
    else
      && ((c, u) in s'.rings <==> (c, u) in s.rings && !EndsRing(chs, a, c, u))
      && ((c, u) in s'.rings ==> (c, u) in s.rings && s'.rings[(c, u)] == s.rings[(c, u)])
  }

  lemma JoinRings(chs: Channels, s: Redis, v: Id, d: Id, flags: Flags)
    ensures Join(chs, s, v, d, flags).0.rings == if MaySpeak(chs, v, d) then s.rings - {(d, v)} else s.rings
  {
    AudienceMaySpeak(chs, v, d);
  }

  lemma LeaveRings(chs: Channels, s: Redis, v: Id, d: Id, cleared: seq<Ring>)
    ensures Leave(chs, s, v, d, cleared).0.rings == s.rings
  {
  }

  lemma RungRing(chs: Channels, s: Redis, v: Id, d: Id, c: Id, u: Id)
    ensures RingAfter(chs, s, DoRing(v, d), RingChannel(chs, s, v, d).0, c, u)
  {
    RingIsTold(chs, s, v, d, c, u);
  }

  lemma JoinedRing(chs: Channels, s: Redis, v: Id, d: Id, flags: Flags, c: Id, u: Id)
    ensures RingAfter(chs, s, DoJoin(v, d, flags), Join(chs, s, v, d, flags).0, c, u)
  {
    JoinRings(chs, s, v, d, flags);
  }

  lemma DismissedRing(chs: Channels, s: Redis, a: Action, s': Redis, v: Id, d: Id, c: Id, u: Id)
    requires s'.rings == Dismiss(s, v, d).0.rings
    requires a == DoDismiss(v, d) || (a.Fire? && a.timer.userId == v && a.timer.channelId == d)
    ensures RingAfter(chs, s, a, s', c, u)
  {
  }

  lemma SameRings(chs: Channels, s: Redis, a: Action, s': Redis, c: Id, u: Id)
    requires s'.rings == s.rings && !a.DoRing? && !a.DoDismiss? && !a.DoJoin? && !a.Fire?
    ensures RingAfter(chs, s, a, s', c, u)
  {
  }

  lemma StepRing(chs: Channels, s: Redis, a: Action, c: Id, u: Id)
    ensures RingAfter(chs, s, a, Step(chs, s, a).0, c, u)
  {
    match a
    case DoRing(v, d) => RungRing(chs, s, v, d, c, u);
    case DoDismiss(v, d) => DismissedRing(chs, s, a, Dismiss(s, v, d).0, v, d, c, u);
    case DoJoin(v, d, flags) => JoinedRing(chs, s, v, d, flags, c, u);
    case DoLeave(v, d, cleared) =>
      LeaveRings(chs, s, v, d, cleared);
      SameRings(chs, s, a, Leave(chs, s, v, d, cleared).0, c, u);
    case DoUpdate(v, d, flags) =>
      UpdateKeepsIndex(chs, s, v, d, flags);
      SameRings(chs, s, a, Update(chs, s, v, d, flags).0, c, u);
    case Fire(t) => DismissedRing(chs, s, a, Step(chs, s, a).0, t.userId, t.channelId, c, u);
    case _ => SameRings(chs, s, a, Step(chs, s, a).0, c, u);
  }

  lemma RingStaysTold(chs: Channels, s: Redis, earlier: seq<Action>, a: Action, s': Redis, c: Id, u: Id)
    requires RungBy(chs, earlier, c, u).Some? <==> (c, u) in s.rings
    requires (c, u) in s.rings && RungBy(chs, earlier, c, u).Some? ==>
               s.rings[(c, u)] == Ring(RungBy(chs, earlier, c, u).value, c, u)
    requires RingAfter(chs, s, a, s', c, u)
    ensures var caller := RungBy(chs, earlier + [a], c, u);
            && (caller.Some? <==> (c, u) in s'.rings)
            && ((c, u) in s'.rings && caller.Some? ==> s'.rings[(c, u)] == Ring(caller.value, c, u))
  {
    assert (earlier + [a])[..|earlier|] == earlier;
  }

  /** Ringing gives each other recipient a ring by the caller, and touches no other key. */
  lemma RingIsTold(chs: Channels, s: Redis, v: Id, d: Id, c: Id, u: Id)
    ensures var s' := RingChannel(chs, s, v, d).0;
            if RingsUser(chs, DoRing(v, d), c, u)
            then (c, u) in s'.rings && s'.rings[(c, u)] == Ring(v, c, u) && u in SMembers(s'.ringSets, c)
            else && ((c, u) in s'.rings <==> (c, u) in s.rings)
                 && ((c, u) in s.rings ==> s'.rings[(c, u)] == s.rings[(c, u)])
                 && (u in SMembers(s'.ringSets, c) <==> u in SMembers(s.ringSets, c))
  {
    AudienceMaySpeak(chs, v, d);
    if CanRing(chs, v, d) {
      var rs := Payloads(v, d, chs[d].recipients);
      PayloadsSpec(v, d, chs[d].recipients);
      StartRingsSpec(s, rs, c, u);
      if RingsUser(chs, DoRing(v, d), c, u) { assert Ring(v, c, u) in rs; }
    }
  }

  /** What a step does to a channel's index of rings. */
  ghost predicate IndexAfter(chs: Channels, s: Redis, a: Action, s': Redis, c: Id, u: Id) {
    u in SMembers(s'.ringSets, c)
    <==> || RingsUser(chs, a, c, u)
         || (u in SMembers(s.ringSets, c) && !EndsRing(chs, a, c, u) && !LastOut(chs, s, a, c))
  }

  predicate LastOut(chs: Channels, s: Redis, a: Action, c: Id) {
    a.DoLeave? && a.channelId == c && MaySpeak(chs, a.userId, c) && SMembers(s.voiceSets, c) <= {a.userId}
  }

  lemma DismissIndex(s: Redis, v: Id, d: Id, c: Id, u: Id)
    requires RingIndexInKeys(s.ringSets, s.rings)
    ensures u in SMembers(Dismiss(s, v, d).0.ringSets, c) <==> u in SMembers(s.ringSets, c) && !(v == u && d == c)
  {
  }

  lemma JoinIndex(chs: Channels, s: Redis, v: Id, d: Id, flags: Flags, c: Id, u: Id)
    requires RingIndexInKeys(s.ringSets, s.rings)
    ensures u in SMembers(Join(chs, s, v, d, flags).0.ringSets, c)
            <==> u in SMembers(s.ringSets, c) && !(v == u && d == c && MaySpeak(chs, u, c))
  {
    AudienceMaySpeak(chs, v, d);
    if MaySpeak(chs, v, d) {
      var s1 := s.(voiceStates := s.voiceStates[(d, v) := flags], voiceSets := SAdd(s.voiceSets, d, v));
      DismissIndex(s1, v, d, c, u);
    }
  }

  /** A dismissal, by hand or by timer, and any step that leaves the index alone. */
  lemma DismissedIndex(chs: Channels, s: Redis, a: Action, s': Redis, v: Id, d: Id, c: Id, u: Id)
    requires RingIndexInKeys(s.ringSets, s.rings) && s'.ringSets == Dismiss(s, v, d).0.ringSets
    requires a == DoDismiss(v, d) || (a.Fire? && a.timer.userId == v && a.timer.channelId == d)
    ensures IndexAfter(chs, s, a, s', c, u)
  {
    DismissIndex(s, v, d, c, u);
  }

  lemma SameIndex(chs: Channels, s: Redis, a: Action, s': Redis, c: Id, u: Id)
    requires s'.ringSets == s.ringSets && (a.DoUpdate? || a.DoGetStates? || a.DoGetRings? || a.Wait?)
    ensures IndexAfter(chs, s, a, s', c, u)
  {
  }

  lemma RungIndex(chs: Channels, s: Redis, v: Id, d: Id, c: Id, u: Id)
    ensures IndexAfter(chs, s, DoRing(v, d), RingChannel(chs, s, v, d).0, c, u)
  {
    RingIsTold(chs, s, v, d, c, u);
  }

  lemma JoinedIndex(chs: Channels, s: Redis, v: Id, d: Id, flags: Flags, c: Id, u: Id)
    requires RingIndexInKeys(s.ringSets, s.rings)
    ensures IndexAfter(chs, s, DoJoin(v, d, flags), Join(chs, s, v, d, flags).0, c, u)
  {
    JoinIndex(chs, s, v, d, flags, c, u);
  }

  lemma LeftIndex(chs: Channels, s: Redis, v: Id, d: Id, cleared: seq<Ring>, c: Id, u: Id)
    ensures IndexAfter(chs, s, DoLeave(v, d, cleared), Leave(chs, s, v, d, cleared).0, c, u)
  {
    LeaveDropsIndex(chs, s, v, d, cleared, c);
  }

  lemma FiredIndex(chs: Channels, s: Redis, t: Timer, c: Id, u: Id)
    requires RingIndexInKeys(s.ringSets, s.rings)
    ensures IndexAfter(chs, s, Fire(t), Dismiss(s.(timers := s.timers - multiset{t}), t.userId, t.channelId).0, c, u)
  {
    var s' := Dismiss(s.(timers := s.timers - multiset{t}), t.userId, t.channelId).0;
    assert s'.ringSets == Dismiss(s, t.userId, t.channelId).0.ringSets;
    DismissedIndex(chs, s, Fire(t), s', t.userId, t.channelId, c, u);
  }

  lemma StepIndex(chs: Channels, s: Redis, a: Action, c: Id, u: Id)
    requires RingIndexInKeys(s.ringSets, s.rings)
    ensures IndexAfter(chs, s, a, Step(chs, s, a).0, c, u)
  {
    match a
    case DoRing(v, d) => RungIndex(chs, s, v, d, c, u);
    case DoDismiss(v, d) => DismissedIndex(chs, s, a, Dismiss(s, v, d).0, v, d, c, u);
    case DoJoin(v, d, flags) => JoinedIndex(chs, s, v, d, flags, c, u);
    case DoLeave(v, d, cleared) => LeftIndex(chs, s, v, d, cleared, c, u);
    case DoUpdate(v, d, flags) =>
      UpdateKeepsIndex(chs, s, v, d, flags);
      SameIndex(chs, s, a, Update(chs, s, v, d, flags).0, c, u);
    case Fire(t) => FiredIndex(chs, s, t, c, u);
    case _ => SameIndex(chs, s, a, Step(chs, s, a).0, c, u);
  }

  lemma UpdateKeepsIndex(chs: Channels, s: Redis, v: Id, d: Id, flags: Flags)
    ensures Update(chs, s, v, d, flags).0.ringSets == s.ringSets && Update(chs, s, v, d, flags).0.rings == s.rings
  {
  }

  lemma IndexStaysTold(chs: Channels, s: Redis, earlier: seq<Action>, a: Action, s': Redis, c: Id, u: Id)
    requires Ringing(chs, earlier, c, u) <==> u in SMembers(s.ringSets, c)
    requires IndexAfter(chs, s, a, s', c, u) && (LastOut(chs, s, a, c) <==> Empties(chs, earlier, a, c))
    ensures Ringing(chs, earlier + [a], c, u) <==> u in SMembers(s'.ringSets, c)
  {
    assert (earlier + [a])[..|earlier|] == earlier;
  }

  /** The last to leave a channel is the one after whom its voice set is empty. */
  lemma EmptiesIsTold(chs: Channels, s: Redis, earlier: seq<Action>, a: Action, c: Id)
    requires VoiceIndexExact(s.voiceSets, s.voiceStates) && VoiceTold(chs, s, earlier)
    ensures LastOut(chs, s, a, c) <==> Empties(chs, earlier, a, c)
  {
    forall v: Id ensures InVoice(chs, earlier, c, v) <==> v in SMembers(s.voiceSets, c) {
    }
  }

  lemma LeaveDropsIndex(chs: Channels, s: Redis, v: Id, d: Id, cleared: seq<Ring>, c: Id)
    ensures SMembers(Leave(chs, s, v, d, cleared).0.ringSets, c)
            == if c == d && MaySpeak(chs, v, d) && SMembers(s.voiceSets, d) <= {v} then {}
               else SMembers(s.ringSets, c)
  {
    AudienceMaySpeak(chs, v, d);
    assert SMembers(SRem(s.voiceSets, d, v), d) == SMembers(s.voiceSets, d) - {v};
  }

  ghost predicate Told(chs: Channels, s: Redis, actions: seq<Action>) {
    && VoiceTold(chs, s, actions) && FlagsTold(chs, s, actions)
    && RingsTold(chs, s, actions) && IndexTold(chs, s, actions)
  }

  lemma VoiceStepTold(chs: Channels, s: Redis, earlier: seq<Action>, a: Action)
    requires VoiceTold(chs, s, earlier) && FlagsTold(chs, s, earlier)
    ensures VoiceTold(chs, Step(chs, s, a).0, earlier + [a]) && FlagsTold(chs, Step(chs, s, a).0, earlier + [a])
  {
    var s' := Step(chs, s, a).0;
    forall c: Id, u: Id
      ensures InVoice(chs, earlier + [a], c, u) <==> (c, u) in s'.voiceStates
      ensures (c, u) in s'.voiceStates ==>
                s'.voiceStates[(c, u)] == Flags(Muted(chs, earlier + [a], c, u), Deafened(chs, earlier + [a], c, u))
    {
      StepRecord(chs, s, a, c, u);
      RecordStaysTold(chs, s, earlier, a, s', c, u);
    }
  }

  lemma RingStepTold(chs: Channels, s: Redis, earlier: seq<Action>, a: Action)
    requires RingsTold(chs, s, earlier)
    ensures RingsTold(chs, Step(chs, s, a).0, earlier + [a])
  {
    var s' := Step(chs, s, a).0;
    forall c: Id, u: Id
      ensures var caller := RungBy(chs, earlier + [a], c, u);
              && (caller.Some? <==> (c, u) in s'.rings)
              && ((c, u) in s'.rings && caller.Some? ==> s'.rings[(c, u)] == Ring(caller.value, c, u))
    {
      StepRing(chs, s, a, c, u);
      RingStaysTold(chs, s, earlier, a, s', c, u);
    }
  }

  lemma IndexStepTold(chs: Channels, s: Redis, earlier: seq<Action>, a: Action)
    requires Inv(chs, s) && VoiceTold(chs, s, earlier) && IndexTold(chs, s, earlier)
    ensures IndexTold(chs, Step(chs, s, a).0, earlier + [a])
  {
    var s' := Step(chs, s, a).0;
    forall c: Id, u: Id ensures Ringing(chs, earlier + [a], c, u) <==> u in SMembers(s'.ringSets, c) {
      StepIndex(chs, s, a, c, u);
      EmptiesIsTold(chs, s, earlier, a, c);
      IndexStaysTold(chs, s, earlier, a, s', c, u);
    }
  }

  lemma StepTold(chs: Channels, s: Redis, earlier: seq<Action>, a: Action)
    requires Inv(chs, s) && Told(chs, s, earlier)
    ensures Told(chs, Step(chs, s, a).0, earlier + [a])
  {
    VoiceStepTold(chs, s, earlier, a);
    RingStepTold(chs, s, earlier, a);
    IndexStepTold(chs, s, earlier, a);
  }

  /** In every run Redis holds of voice states and rings exactly what the actions so far say. */
  lemma {:induction false} HistoryTells(chs: Channels, states: seq<Redis>, actions: seq<Action>, i: nat)
    requires IsRun(chs, states, actions) && i < |states|
    ensures Told(chs, states[i], actions[..i])
  {
    if i > 0 {
      HistoryTells(chs, states, actions, i - 1);
      RunInv(chs, states, actions, i - 1);
      StepTold(chs, states[i - 1], actions[..i - 1], actions[i - 1]);
      assert actions[..i - 1] + [actions[i - 1]] == actions[..i];
    }
  }

  // ---------- a client ----------

  /** The actions the service has carried out. */
  function Served(moves: seq<Move>): seq<Action> {
    if moves == [] then []
    else Served(moves[..|moves| - 1])
         + if moves[|moves| - 1].Serve? then [moves[|moves| - 1].action] else []
  }

  lemma {:induction false} LinkHistory(chs: Channels, me: Id, links: seq<Link>, moves: seq<Move>, i: nat)
    requires IsLinkRun(chs, me, links, moves) && i < |links|
    ensures Told(chs, links[i].server, Served(moves[..i]))
  {
    if i > 0 {
      var earlier, m := moves[..i - 1], moves[i - 1];
      LinkHistory(chs, me, links, moves, i - 1);
      LinkRunAgrees(chs, me, links, moves, i - 1);
      assert moves[..i][..i - 1] == earlier && moves[..i][i - 1] == m;
      assert links[i] == MoveOn(chs, links[i - 1], me, m);
      if m.Serve? {
        StepTold(chs, links[i - 1].server, Served(earlier), m.action);
      } else {
        assert Served(moves[..i]) == Served(earlier);
      }
    }
  }

  /** A client that has heard everything shows, in each of its direct-message channels, who is there, with the last
      word on each flag unless the flag lags; and of its own rings those that ring. */
  lemma CaughtUpClientShowsLastWord(chs: Channels, me: Id, links: seq<Link>, moves: seq<Move>, i: nat, c: Id, u: Id)
    requires IsLinkRun(chs, me, links, moves) && i < |links| && links[i].queue == [] && Tracks(chs, me, c)
    ensures var w, said := links[i], Served(moves[..i]);
            && ((c, u) in w.stores.voices <==> InVoice(chs, said, c, u))
            && ((c, u) in w.stores.voices && (c, u) !in w.lag.muted && (c, u) !in w.lag.deafened ==>
                  && (w.stores.voices[(c, u)].isMuted <==> Muted(chs, said, c, u) == Some(true))
                  && (w.stores.voices[(c, u)].isDeafened <==> Deafened(chs, said, c, u) == Some(true)))
            && ((c, me) in w.stores.rings <==> Ringing(chs, said, c, me))
  {
    var w, said := links[i], Served(moves[..i]);
    LinkHistory(chs, me, links, moves, i);
    CaughtUpClientAgrees(chs, me, links, moves, i);
    assert InVoice(chs, said, c, u) <==> (c, u) in w.server.voiceStates;
    assert Ringing(chs, said, c, me) <==> me in SMembers(w.server.ringSets, c);
  }

  // ---------- who is told ----------

  /** The step tells x of the event. */
  ghost predicate Tells(chs: Channels, s: Redis, a: Action, x: Id, ev: Event) {
    exists em :: em in Step(chs, s, a).1 && x in em.recipients && em.event == ev
  }

  /** A ring is announced to every recipient of the channel, the caller too, and lists the caller's rings to all the
      others; whoever may not ring announces nothing. */
  lemma RingTells(chs: Channels, s: Redis, v: Id, c: Id, x: Id, ev: Event)
    ensures Tells(chs, s, DoRing(v, c), x, ev) ==>
              && MayRing(chs, v, c) && x in chs[c].recipients && ev.RingStarted?
              && forall r :: r in ev.rings <==>
                   r.initiatorId == v && r.channelId == c && r.recipientId in chs[c].recipients && r.recipientId != v
    ensures MayRing(chs, v, c) && x in chs[c].recipients ==>
              exists rs :: Tells(chs, s, DoRing(v, c), x, RingStarted(rs))
  {
    AudienceMaySpeak(chs, v, c);
    if MayRing(chs, v, c) {
      var rs := Payloads(v, c, chs[c].recipients);
      PayloadsSpec(v, c, chs[c].recipients);
      var em := Emission(chs[c].recipients, RingStarted(rs));
      assert Step(chs, s, DoRing(v, c)).1 == [em];
      if x in chs[c].recipients {
        assert em in Step(chs, s, DoRing(v, c)).1;
        assert Tells(chs, s, DoRing(v, c), x, RingStarted(rs));
      }
    }
  }

  /** The ring for u in c, if there is one, is what both its ends are told is over. */
  ghost predicate IsEndOf(s: Redis, c: Id, u: Id, x: Id, ev: Event) {
    (c, u) in s.rings && ev == RingDismissed(s.rings[(c, u)])
    && (x == s.rings[(c, u)].initiatorId || x == s.rings[(c, u)].recipientId)
  }

  ghost predicate Emits(sent: seq<Emission>, x: Id, ev: Event) {
    exists em :: em in sent && x in em.recipients && em.event == ev
  }

  lemma DismissEmits(s: Redis, v: Id, c: Id, x: Id, ev: Event)
    ensures Emits(Dismiss(s, v, c).1, x, ev) <==> IsEndOf(s, c, v, x, ev)
  {
    if (c, v) in s.rings {
      var r := s.rings[(c, v)];
      assert Dismiss(s, v, c).1 == [Emission([r.initiatorId, r.recipientId], RingDismissed(r))];
      assert Dismiss(s, v, c).1[0] in Dismiss(s, v, c).1;
    }
  }

  lemma EmitsBoth(xs: seq<Emission>, ys: seq<Emission>, x: Id, ev: Event)
    ensures Emits(xs + ys, x, ev) <==> Emits(xs, x, ev) || Emits(ys, x, ev)
  {
    if Emits(xs, x, ev) {
      var em :| em in xs && x in em.recipients && em.event == ev;
      assert em in xs + ys;
    }
    if Emits(ys, x, ev) {
      var em :| em in ys && x in em.recipients && em.event == ev;
      assert em in xs + ys;
    }
  }

  lemma EmitsOne(recipients: seq<Id>, told: Event, x: Id, ev: Event)
    ensures Emits([Emission(recipients, told)], x, ev) <==> x in recipients && ev == told
  {
    assert [Emission(recipients, told)][0] in [Emission(recipients, told)];
  }

  /** A dismissal tells both ends of the ring that there was, by hand and by timer alike. */
  lemma DismissTells(chs: Channels, s: Redis, v: Id, c: Id, x: Id, ev: Event)
    ensures Tells(chs, s, DoDismiss(v, c), x, ev) <==> IsEndOf(s, c, v, x, ev)
  {
    DismissEmits(s, v, c, x, ev);
  }

  lemma FireTells(chs: Channels, s: Redis, t: Timer, x: Id, ev: Event)
    ensures Tells(chs, s, Fire(t), x, ev) <==> IsEndOf(s, t.channelId, t.userId, x, ev)
  {
    DismissEmits(s.(timers := s.timers - multiset{t}), t.userId, t.channelId, x, ev);
  }

  /** A join ends the ring of the one who joins and tells everybody the channel is for. */
  lemma JoinTells(chs: Channels, s: Redis, v: Id, c: Id, flags: Flags, x: Id, ev: Event)
    ensures Tells(chs, s, DoJoin(v, c, flags), x, ev)
            <==> MaySpeak(chs, v, c)
                 && (IsEndOf(s, c, v, x, ev) || (MaySpeak(chs, x, c) && ev == VoiceChanged(c, v, flags)))
  {
    AudienceMaySpeak(chs, v, c);
    AudienceMaySpeak(chs, x, c);
    if MaySpeak(chs, v, c) {
      var s1 := s.(voiceStates := s.voiceStates[(c, v) := flags], voiceSets := SAdd(s.voiceSets, c, v));
      DismissEmits(s1, v, c, x, ev);
      EmitsOne(Audience(chs, c), VoiceChanged(c, v, flags), x, ev);
      EmitsBoth(Dismiss(s1, v, c).1, [Emission(Audience(chs, c), VoiceChanged(c, v, flags))], x, ev);
      assert Tells(chs, s, DoJoin(v, c, flags), x, ev) <==> Emits(Step(chs, s, DoJoin(v, c, flags)).1, x, ev);
    }
  }

  lemma {:induction false} DismissalsEmit(cleared: seq<Ring>, x: Id, ev: Event)
    ensures Emits(Dismissals(cleared), x, ev)
            <==> exists r :: r in cleared && ev == RingDismissed(r) && (x == r.initiatorId || x == r.recipientId)
  {
    var sent := Dismissals(cleared);
    if em :| em in sent && x in em.recipients && em.event == ev {
      var i :| 0 <= i < |sent| && sent[i] == em;
      assert cleared[i] in cleared;
    }
    if r :| r in cleared && ev == RingDismissed(r) && (x == r.initiatorId || x == r.recipientId) {
      var i :| 0 <= i < |cleared| && cleared[i] == r;
      assert sent[i] in sent;
    }
  }

  /** A leave tells everybody the channel is for; the last one out also ends every ring the index leads to, for both its
      ends. */
  lemma LeaveTells(chs: Channels, s: Redis, v: Id, c: Id, cleared: seq<Ring>, x: Id, ev: Event)
    requires ListsChannelRings(s, c, cleared)
    ensures Tells(chs, s, DoLeave(v, c, cleared), x, ev)
            <==> MaySpeak(chs, v, c)
                 && ((MaySpeak(chs, x, c) && ev == VoiceLeft(c, v))
                     || (SMembers(s.voiceSets, c) <= {v} && ev.RingDismissed? && IndexedIn(s, c, ev.ring)
                         && (x == ev.ring.initiatorId || x == ev.ring.recipientId)))
  {
    AudienceMaySpeak(chs, v, c);
    AudienceMaySpeak(chs, x, c);
    if MaySpeak(chs, v, c) {
      var left := [Emission(Audience(chs, c), VoiceLeft(c, v))];
      var ended := if SMembers(SRem(s.voiceSets, c, v), c) == {} then Dismissals(cleared) else [];
      assert SMembers(SRem(s.voiceSets, c, v), c) == SMembers(s.voiceSets, c) - {v};
      EmitsOne(Audience(chs, c), VoiceLeft(c, v), x, ev);
      DismissalsEmit(cleared, x, ev);
      EmitsBoth(ended, left, x, ev);
      assert Step(chs, s, DoLeave(v, c, cleared)).1 == ended + left;
      assert Tells(chs, s, DoLeave(v, c, cleared), x, ev) <==> Emits(ended + left, x, ev);
    }
  }

  /** An update tells the recipients of the channel, if the one who sent it is among them, of the record as it then
      is. */
  lemma UpdateTells(chs: Channels, s: Redis, v: Id, c: Id, flags: Flags, x: Id, ev: Event)
    ensures Tells(chs, s, DoUpdate(v, c, flags), x, ev)
            <==> (c, v) in s.voiceStates && c in chs && v in chs[c].recipients && x in chs[c].recipients
                 && ev == VoiceChanged(c, v, Update(chs, s, v, c, flags).0.voiceStates[(c, v)])
  {
    if (c, v) in s.voiceStates && c in chs && v in chs[c].recipients {
      var now := Update(chs, s, v, c, flags).0.voiceStates[(c, v)];
      EmitsOne(chs[c].recipients, VoiceChanged(c, v, now), x, ev);
      assert Tells(chs, s, DoUpdate(v, c, flags), x, ev)
        <==> Emits([Emission(chs[c].recipients, VoiceChanged(c, v, now))], x, ev);
    }
  }
}
