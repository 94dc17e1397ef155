/** The client's voice and ring stores as they run: each setter copies the Map, changes the copy and keeps it. */
module VoiceStores {
  import opened Common
  import opened Voice
  import opened VoiceReplica

  lemma {:induction false} PutRingsAppend(rings: map<Key, Ring>, rs: seq<Ring>, r: Ring)
    ensures PutRings(rings, rs + [r]) == PutRings(rings, rs)[(r.channelId, r.recipientId) := r]
    decreases |rs|
  {
    if rs == [] {
      assert [r][1..] == [];
    } else {
      assert (rs + [r])[1..] == rs[1..] + [r];
      PutRingsAppend(rings[(rs[0].channelId, rs[0].recipientId) := rs[0]], rs[1..], r);
    }
  }

  lemma {:induction false} PutStatesAppend(voices: map<Key, VoiceState>, states: seq<(Key, Flags)>, state: (Key, Flags))
    ensures PutStates(voices, states + [state]) == PutStates(voices, states)[state.0 := Full(state.1)]
    decreases |states|
  {
    if states == [] {
      assert [state][1..] == [];
    } else {
      assert (states + [state])[1..] == states[1..] + [state];
      PutStatesAppend(voices[states[0].0 := Full(states[0].1)], states[1..], state);
    }
  }

  class Store {
    var voiceRingStates: map<Key, Ring>
    var voiceStates: map<Key, VoiceState>

    constructor ()
      ensures Contents() == EMPTY_LINK.stores
    {
      voiceRingStates, voiceStates := map[], map[];
    }

    ghost function Contents(): Stores
      reads this
    {
      Stores(voiceRingStates, voiceStates)
    }

    method BatchUpdateVoiceRingState(states: seq<Ring>)
      modifies this`voiceRingStates
      ensures Contents() == Apply(old(Contents()), RingStarted(states))
    {
      var newVoiceRings := voiceRingStates;
      for i := 0 to |states|
        invariant newVoiceRings == PutRings(voiceRingStates, states[..i])
        invariant Contents() == old(Contents())
      {
        assert states[..i + 1] == states[..i] + [states[i]];
        PutRingsAppend(voiceRingStates, states[..i], states[i]);
        newVoiceRings := newVoiceRings[(states[i].channelId, states[i].recipientId) := states[i]];
      }
      assert states[..|states|] == states;
      voiceRingStates := newVoiceRings;
    }

    method RemoveVoiceRingState(r: Ring)
      modifies this`voiceRingStates
      ensures Contents() == Apply(old(Contents()), RingDismissed(r))
    {
      var key := (r.channelId, r.recipientId);
      if key in voiceRingStates {
        voiceRingStates := voiceRingStates - {key};
      }
      assert voiceRingStates == old(voiceRingStates) - {key};
    }

    method HandleGetVoiceRingStates(payload: seq<Ring>)
      modifies this`voiceRingStates
      ensures Contents() == Apply(old(Contents()), RingSnapshot(payload))
    {
      var rings: map<Key, Ring> := map[];
      for i := 0 to |payload|
        invariant rings == PutRings(map[], payload[..i])
      {
        assert payload[..i + 1] == payload[..i] + [payload[i]];
        PutRingsAppend(map[], payload[..i], payload[i]);
        rings := rings[(payload[i].channelId, payload[i].recipientId) := payload[i]];
      }
      assert payload[..|payload|] == payload;
      voiceRingStates := rings;
    }

    /** A flag that is absent keeps its old value, or takes the constructor's default. */
    method UpdateVoiceState(channelId: Id, userId: Id, data: Flags)
      modifies this`voiceStates
      ensures Contents() == Apply(old(Contents()), VoiceChanged(channelId, userId, data))
    {
      var key := (channelId, userId);
      var merged: VoiceState;
      if key in voiceStates {
        var old' := voiceStates[key];
        merged := VoiceState(if data.isMuted.Some? then data.isMuted.value else old'.isMuted,
                             if data.isDeafened.Some? then data.isDeafened.value else old'.isDeafened);
      } else {
        merged := VoiceState(Default(data.isMuted), Default(data.isDeafened));
      }
      voiceStates := voiceStates[key := merged];
    }

    method RemoveVoiceState(channelId: Id, userId: Id)
      modifies this`voiceStates
      ensures Contents() == Apply(old(Contents()), VoiceLeft(channelId, userId))
    {
      var key := (channelId, userId);
      if key in voiceStates {
        voiceStates := voiceStates - {key};
      }
      assert voiceStates == old(voiceStates) - {key};
    }

    method HandleGetVoiceStates(payload: seq<(Key, Flags)>)
      modifies this`voiceStates
      ensures Contents() == Apply(old(Contents()), VoiceSnapshot(payload))
    {
      var states: map<Key, VoiceState> := map[];
      for i := 0 to |payload|
        invariant states == PutStates(map[], payload[..i])
      {
        assert payload[..i + 1] == payload[..i] + [payload[i]];
        PutStatesAppend(map[], payload[..i], payload[i]);
        states := states[payload[i].0 := VoiceState(Default(payload[i].1.isMuted), Default(payload[i].1.isDeafened))];
      }
      assert payload[..|payload|] == payload;
      voiceStates := states;
    }
  }
}
