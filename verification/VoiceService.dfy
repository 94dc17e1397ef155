/** The guild service's voice and ring methods as they run against Redis: pipelines, index reads, loops. */
module VoiceService {
  import opened Common
  import opened Voice

  /** `sMembers`: the members of a set, each once, in some order. */
  method Members(s: set<Id>) returns (xs: seq<Id>)
    ensures forall x :: x in xs <==> x in s
    ensures Distinct(xs)
  {
    xs := [];
    var rest := s;
    while rest != {}
      invariant forall x :: x in s <==> x in xs || x in rest
      invariant forall x :: x in xs ==> x !in rest
      invariant Distinct(xs)
      decreases |rest|
    {
      var x :| x in rest;
      xs, rest := xs + [x], rest - {x};
    }
  }

  lemma {:induction false} StartRingsAppend(s: Redis, xs: seq<Ring>, r: Ring)
    ensures StartRings(s, xs + [r]) == StartRing(StartRings(s, xs), r)
    decreases |xs|
  {
    if xs == [] {
      assert [r][1..] == [];
    } else {
      assert (xs + [r])[1..] == xs[1..] + [r];
      StartRingsAppend(StartRing(s, xs[0]), xs[1..], r);
    }
  }

  lemma {:induction false} PayloadsAppend(userId: Id, c: Id, xs: seq<Id>, x: Id)
    ensures Payloads(userId, c, xs + [x]) == Payloads(userId, c, xs) + if x != userId then [Ring(userId, c, x)] else []
  {
    if xs == [] {
      assert [x][1..] == [] && Payloads(userId, c, []) == [];
    } else {
      assert (xs + [x])[1..] == xs[1..] + [x];
      PayloadsAppend(userId, c, xs[1..], x);
    }
  }

  /** Some list of a channel's indexed rings; which one matters only to the order of its dismissals. */
  lemma {:induction false} SomeListing(s: Redis, c: Id, us: set<Id>) returns (cleared: seq<Ring>)
    ensures forall r :: r in cleared <==> exists u :: u in us && (c, u) in s.rings && s.rings[(c, u)] == r
  {
    if us == {} {
      cleared := [];
    } else {
      var u :| u in us;
      cleared := SomeListing(s, c, us - {u});
      if (c, u) in s.rings { cleared := cleared + [s.rings[(c, u)]]; }
    }
  }

  class Service {
    var channels: Channels
    var voiceStates: map<Key, Flags>
    var voiceSets: map<Id, set<Id>>
    var rings: map<Key, Ring>
    var ringSets: map<Id, set<Id>>
    var timers: multiset<Timer>
    var now: nat
    ghost var rungAt: map<Key, nat>
    var sent: seq<Emission>

    constructor (channels: Channels)
      ensures this.channels == channels && Store() == UNUSED && sent == []
    {
      this.channels := channels;
      voiceStates, voiceSets, rings, ringSets := map[], map[], map[], map[];
      timers, now, rungAt, sent := multiset{}, 0, map[], [];
    }

    ghost function Store(): Redis
      reads this
    {
      Redis(voiceStates, voiceSets, rings, ringSets, timers, now, rungAt)
    }

    /** One iteration of the ringing pipeline, with the timeout it arms. */
    method SetRing(dto: Ring)
      modifies this
      ensures Store() == StartRing(old(Store()), dto)
      ensures sent == old(sent) && channels == old(channels)
    {
      rings := rings[(dto.channelId, dto.recipientId) := dto];
      ringSets := ringSets[dto.channelId := SMembers(ringSets, dto.channelId) + {dto.recipientId}];
      timers := timers + multiset{Timer(now + VOICE_RING_TIMEOUT, dto.channelId, dto.recipientId)};
      rungAt := rungAt[(dto.channelId, dto.recipientId) := now];
    }

    /** `recipients.filter(uid => uid !== userId).map(...)` */
    method RingPayloads(userId: Id, channelId: Id, recipients: seq<Id>) returns (ringPayloads: seq<Ring>)
      ensures ringPayloads == Payloads(userId, channelId, recipients)
    {
      ringPayloads := [];
      for i := 0 to |recipients|
        invariant ringPayloads == Payloads(userId, channelId, recipients[..i])
      {
        assert recipients[..i + 1] == recipients[..i] + [recipients[i]];
        PayloadsAppend(userId, channelId, recipients[..i], recipients[i]);
        if recipients[i] != userId {
          ringPayloads := ringPayloads + [Ring(userId, channelId, recipients[i])];
        }
      }
      assert recipients[..|recipients|] == recipients;
    }

    /** The pipeline, ring after ring. */
    method SetRings(ringPayloads: seq<Ring>)
      modifies this
      ensures Store() == StartRings(old(Store()), ringPayloads)
      ensures sent == old(sent) && channels == old(channels)
    {
      for i := 0 to |ringPayloads|
        invariant Store() == StartRings(old(Store()), ringPayloads[..i])
        invariant sent == old(sent) && channels == old(channels)
      {
        assert ringPayloads[..i + 1] == ringPayloads[..i] + [ringPayloads[i]];
        StartRingsAppend(old(Store()), ringPayloads[..i], ringPayloads[i]);
        SetRing(ringPayloads[i]);
      }
      assert ringPayloads[..|ringPayloads|] == ringPayloads;
    }

    method RingChannelRecipients(userId: Id, channelId: Id) returns (error: Option<Status>)
      modifies this
      ensures channels == old(channels)
      ensures var (s, out) := RingChannel(channels, old(Store()), userId, channelId);
              Store() == s && sent == old(sent) + out
      ensures error == if channelId !in channels || channels[channelId].recipients == [] then Some(BadRequest)
                       else if CanRing(channels, userId, channelId) then None else Some(Forbidden)
    {
      if channelId !in channels || channels[channelId].recipients == [] {
        return Some(BadRequest);
      }
      var channel := channels[channelId];
      if userId !in channel.recipients && !channel.isDM {
        return Some(Forbidden);
      }
      var recipients := channel.recipients;
      var ringPayloads := RingPayloads(userId, channelId, recipients);
      SetRings(ringPayloads);
      sent := sent + [Emission(recipients, RingStarted(ringPayloads))];
      error := None;
    }

    /** Also what a ring's timeout runs. */
    method HandleDismissVoiceRing(userId: Id, channelId: Id) returns (error: Option<Status>)
      modifies this
      ensures channels == old(channels)
      ensures var (s, out) := Dismiss(old(Store()), userId, channelId);
              Store() == s && sent == old(sent) + out
      ensures error == if (channelId, userId) in old(rings) then None else Some(NotFound)
    {
      if (channelId, userId) !in rings {
        return Some(NotFound);
      }
      var voiceRingState := rings[(channelId, userId)];
      rings := rings - {(channelId, userId)};
      ringSets := ringSets[channelId := SMembers(ringSets, channelId) - {userId}];
      sent := sent + [Emission([voiceRingState.initiatorId, voiceRingState.recipientId],
          RingDismissed(voiceRingState))];
      error := None;
    }

    /** A due timer fires: it is gone whether or not its ring still exists. */
    method FireTimer(t: Timer)
      requires t in timers
      modifies this
      ensures channels == old(channels)
      ensures var (s, out) := Step(channels, old(Store()), Fire(t));
              Store() == s && sent == old(sent) + out
    {
      timers := timers - multiset{t};
      var _ := HandleDismissVoiceRing(t.userId, t.channelId);
    }

    method HandleVoiceJoin(userId: Id, channelId: Id, data: Flags) returns (error: Option<Status>)
      modifies this
      ensures channels == old(channels)
      ensures var (s, out) := Join(channels, old(Store()), userId, channelId, data);
              Store() == s && sent == old(sent) + out
      ensures error == if channelId !in channels then Some(BadRequest)
                       else if userId in Audience(channels, channelId) then None else Some(Forbidden)
    {
      if channelId !in channels {
        return Some(BadRequest);
      }
      var recipients := Audience(channels, channelId);
      if userId !in recipients {
        return Some(Forbidden);
      }
      voiceStates := voiceStates[(channelId, userId) := data];
      voiceSets := voiceSets[channelId := SMembers(voiceSets, channelId) + {userId}];
      var _ := HandleDismissVoiceRing(userId, channelId);
      sent := sent + [Emission(recipients, VoiceChanged(channelId, userId, data))];
      error := None;
    }

    /** The rings of a channel, read through its index. */
    method ReadRings(channelId: Id) returns (found: seq<Ring>)
      ensures ListsChannelRings(Store(), channelId, found)
    {
      var recipients := Members(SMembers(ringSets, channelId));
      found := [];
      for i := 0 to |recipients|
        invariant forall r :: r in found <==>
          exists j :: 0 <= j < i && (channelId, recipients[j]) in rings && rings[(channelId, recipients[j])] == r
      {
        if (channelId, recipients[i]) in rings {
          found := found + [rings[(channelId, recipients[i])]];
        }
      }
      forall r ensures r in found <==> IndexedIn(Store(), channelId, r) {
        if IndexedIn(Store(), channelId, r) {
          var u :| u in SMembers(ringSets, channelId) && (channelId, u) in rings && rings[(channelId, u)] == r;
          assert u in recipients;
        }
      }
    }

    /** Tells both ends of every indexed ring and drops the index, not the keys. */
    method ClearChannelVoiceRings(channelId: Id) returns (ghost cleared: seq<Ring>)
      modifies this
      ensures channels == old(channels) && ListsChannelRings(old(Store()), channelId, cleared)
      ensures var (s, out) := ClearRings(old(Store()), channelId, cleared);
              Store() == s && sent == old(sent) + out
    {
      var states := ReadRings(channelId);
      cleared := states;
      for i := 0 to |states|
        invariant sent == old(sent) + Dismissals(states)[..i]
        invariant Store() == old(Store()) && channels == old(channels)
      {
        sent := sent + [Emission([states[i].recipientId, states[i].initiatorId], RingDismissed(states[i]))];
      }
      ringSets := ringSets - {channelId};
    }

    method HandleVoiceLeave(userId: Id, channelId: Id) returns (error: Option<Status>, ghost cleared: seq<Ring>)
      modifies this
      ensures channels == old(channels) && ListsChannelRings(old(Store()), channelId, cleared)
      ensures var (s, out) := Leave(channels, old(Store()), userId, channelId, cleared);
              Store() == s && sent == old(sent) + out
      ensures error == if channelId !in channels then Some(BadRequest)
                       else if userId in Audience(channels, channelId) then None else Some(Forbidden)
    {
      cleared := SomeListing(Store(), channelId, SMembers(ringSets, channelId));
      if channelId !in channels {
        return Some(BadRequest), cleared;
      }
      var recipients := Audience(channels, channelId);
      if userId !in recipients {
        return Some(Forbidden), cleared;
      }
      voiceStates := voiceStates - {(channelId, userId)};
      voiceSets := voiceSets[channelId := SMembers(voiceSets, channelId) - {userId}];
      if SMembers(voiceSets, channelId) == {} {
        cleared := ClearChannelVoiceRings(channelId);
      }
      sent := sent + [Emission(recipients, VoiceLeft(channelId, userId))];
      error := None;
    }

    method HandleVoiceStateUpdate(userId: Id, channelId: Id, data: Flags) returns (error: Option<Status>)
      modifies this
      ensures channels == old(channels)
      ensures var (s, out) := Update(channels, old(Store()), userId, channelId, data);
              Store() == s && sent == old(sent) + out
      ensures (channelId, userId) in old(voiceStates) ==>
                && voiceStates.Keys == old(voiceStates).Keys
                && var was, now := old(voiceStates)[(channelId, userId)], voiceStates[(channelId, userId)];
                   && now.isMuted == (if data.isMuted.Some? then data.isMuted else was.isMuted)
                   && now.isDeafened == (if data.isDeafened.Some? then data.isDeafened else was.isDeafened)
      ensures error == if (channelId, userId) !in old(voiceStates) then None
                       else if channelId !in channels || channels[channelId].recipients == [] then Some(BadRequest)
                       else if userId in channels[channelId].recipients then None else Some(Forbidden)
    {
      var key := (channelId, userId);
      if key !in voiceStates {
        return None;
      }
      var newState := Overlaid(voiceStates[key], data);
      voiceStates := voiceStates[key := newState];
      if channelId !in channels || channels[channelId].recipients == [] {
        return Some(BadRequest);
      }
      if userId !in channels[channelId].recipients {
        return Some(Forbidden);
      }
      sent := sent + [Emission(channels[channelId].recipients, VoiceChanged(channelId, userId, newState))];
      error := None;
    }

    /** `mGet` of one channel's records, without the missing ones. */
    method ReadStates(channelId: Id) returns (found: seq<(Key, Flags)>)
      ensures forall k: Key, f :: (k, f) in found <==>
                k.0 == channelId && k.1 in SMembers(voiceSets, channelId) && k in voiceStates && voiceStates[k] == f
    {
      var participants := Members(SMembers(voiceSets, channelId));
      found := [];
      for i := 0 to |participants|
        invariant forall k: Key, f :: (k, f) in found <==>
          k.0 == channelId && k.1 in participants[..i] && k in voiceStates && voiceStates[k] == f
      {
        var key := (channelId, participants[i]);
        if key in voiceStates {
          found := found + [(key, voiceStates[key])];
        }
      }
      assert participants[..|participants|] == participants;
    }

    /** The snapshot a reconnecting client gets: channel by channel, through the index. */
    method HandleGetVoiceStates(userId: Id) returns (states: seq<(Key, Flags)>)
      modifies this`sent
      ensures ListsVoiceStates(channels, Store(), userId, states)
      ensures sent == old(sent) + [Emission([userId], VoiceSnapshot(states))]
    {
      var mine := Members(set c | c in channels && userId in channels[c].recipients);
      states := [];
      for i := 0 to |mine|
        invariant forall k: Key, f :: (k, f) in states <==>
          k.0 in mine[..i] && k.1 in SMembers(voiceSets, k.0) && k in voiceStates && voiceStates[k] == f
        invariant sent == old(sent)
      {
        var found := ReadStates(mine[i]);
        states := states + found;
      }
      assert mine[..|mine|] == mine;
      sent := sent + [Emission([userId], VoiceSnapshot(states))];
    }

    method HandleGetVoiceRings(userId: Id) returns (found: seq<Ring>)
      modifies this`sent
      ensures ListsRings(channels, Store(), userId, found)
      ensures sent == old(sent) + [Emission([userId], RingSnapshot(found))]
    {
      var mine := Members(set c | c in channels && userId in channels[c].recipients);
      found := [];
      for i := 0 to |mine|
        invariant forall r :: r in found <==> exists c :: c in mine[..i] && IndexedIn(Store(), c, r)
        invariant sent == old(sent)
      {
        var more := ReadRings(mine[i]);
        assert mine[..i + 1] == mine[..i] + [mine[i]];
        found := found + more;
      }
      assert mine[..|mine|] == mine;
      forall r
        ensures r in found
                <==> exists c :: c in channels && userId in channels[c].recipients && IndexedIn(Store(), c, r)
      {
        if c :| c in channels && userId in channels[c].recipients && IndexedIn(Store(), c, r) {
          assert c in mine;
        }
      }
      sent := sent + [Emission([userId], RingSnapshot(found))];
      assert ListsRings(channels, Store(), userId, found) by {
        assert forall c, r :: IndexedIn(Store(), c, r) <==> IndexedIn(old(Store()), c, r);
      }
    }
  }
}
