/**
 * The physical MIDI channel pool: finding a free channel, linking a channel
 * to a part, setting a channel's volume, and releasing a part's channel.
 */
module ChannelPool {
  import opened ImuseState

  /** The channels from `i` up to the pool limit, scanned in order. */
  function FreeFrom(s: Mixer, i: nat): (r: Option<nat>)
    requires |s.midiChannels| == MidiChannelCount && i <= PoolLimit
    ensures r.Some? ==> i <= r.value < PoolLimit && IsFree(s.midiChannels[r.value])
    ensures r.Some? ==> forall j :: i <= j < r.value ==> !IsFree(s.midiChannels[j])
    ensures r.None? ==> forall j :: i <= j < PoolLimit ==> !IsFree(s.midiChannels[j])
    decreases PoolLimit - i
  {
    if i == PoolLimit then None
    else if IsFree(s.midiChannels[i]) then Some(i)
    else FreeFrom(s, i + 1)
  }

  /**
   * `ImGetFreeMidiChannel`: the lowest free channel below the pool limit, or
   * none. Channel 15 is never returned.
   */
  function GetFreeMidiChannel(s: Mixer): (r: Option<nat>)
    requires |s.midiChannels| == MidiChannelCount
    ensures r.None? <==> FreeSet(s) == {}
    ensures r.Some? ==> r.value in FreeSet(s) && r.value != MidiChannelCount - 1
    ensures r.Some? ==> forall j :: j in FreeSet(s) ==> r.value <= j
  {
    FreeFrom(s, 0)
  }

  /** Channels agree on everything except their volume. */
  predicate SameButVolume(a: MidiChannel, b: MidiChannel) {
    && a.player == b.player
    && a.channel == b.channel
    && a.sharedMidiChannel == b.sharedMidiChannel
    && a.channelId == b.channelId
    && a.sustain == b.sustain
    && a.instrumentMask == b.instrumentMask
    && a.instrumentMask2 == b.instrumentMask2
    && a.sharedPart == b.sharedPart
  }

  /**
   * `ImMidiChannelSetVolume`: writes only when the volume differs, mirrors
   * it into the channel's shared channel, and emits a volume message.
   */
  function MidiChannelSetVolume(s: Mixer, mc: Option<nat>, volume: int): (t: Mixer)
    requires WellFormed(s) && (mc.Some? ==> mc.value < MidiChannelCount)
    ensures WellFormed(t)
    ensures t.players == s.players && t.groups == s.groups
    ensures mc.None? || s.midiChannels[mc.value].volume == volume ==> t == s
    ensures mc.Some? ==> t.midiChannels[mc.value].volume == volume
    ensures mc.Some? && s.midiChannels[mc.value].volume != volume ==>
      && t.midiChannels[s.midiChannels[mc.value].sharedMidiChannel].volume == volume
      && t.sent == s.sent + [VolumeMsg(s.midiChannels[mc.value].channelId, volume)]
    ensures forall j :: 0 <= j < MidiChannelCount ==> SameButVolume(t.midiChannels[j], s.midiChannels[j])
    ensures forall j :: 0 <= j < MidiChannelCount && (mc.None? || (j != mc.value && j != s.midiChannels[mc.value].sharedMidiChannel)) ==>
      t.midiChannels[j] == s.midiChannels[j]
    ensures Unassigned(t) == Unassigned(s) && FreeSet(t) == FreeSet(s)
  {
    if mc.Some? && volume != s.midiChannels[mc.value].volume then
      var c := mc.value;
      var shared := s.midiChannels[c].sharedMidiChannel;
      var s1 := SetChannel(s, shared, s.midiChannels[shared].(volume := volume));
      var s2 := SetChannel(s1, c, s1.midiChannels[c].(volume := volume));
      s2.(sent := s2.sent + [VolumeMsg(s2.midiChannels[c].channelId, volume)])
    else
      s
  }

  /** Setting the same volume again changes nothing and sends nothing. */
  lemma SetVolumeIdempotent(s: Mixer, mc: Option<nat>, volume: int)
    requires WellFormed(s) && (mc.Some? ==> mc.value < MidiChannelCount)
    ensures MidiChannelSetVolume(MidiChannelSetVolume(s, mc, volume), mc, volume) == MidiChannelSetVolume(s, mc, volume)
  {
  }

  /** The two link writes of `ImAssignMidiChannel`, before the volume is set. */
  function Link(s: Mixer, player: Option<nat>, r: PartRef, c: nat): (t: Mixer)
    requires WellFormed(s) && ValidRef(s, r) && c < MidiChannelCount
    ensures WellFormed(t) && SamePlayers(s, t) && t.groups == s.groups && t.sent == s.sent
    ensures PartAt(t, r) == PartAt(s, r).(data := Some(c))
    ensures forall q :: ValidRef(s, q) && q != r ==> PartAt(t, q) == PartAt(s, q)
    ensures t.midiChannels[c] == s.midiChannels[c].(player := player, channel := Some(r))
    ensures forall j :: 0 <= j < MidiChannelCount && j != c ==> t.midiChannels[j] == s.midiChannels[j]
    ensures Unassigned(t) == Unassigned(s) - {r}
    ensures player.Some? ==> FreeSet(t) == FreeSet(s) - {c}
  {
    var s1 := SetPart(s, r, PartAt(s, r).(data := Some(c)));
    var t := SetChannel(s1, c, s1.midiChannels[c].(player := player, channel := Some(r)));
    assert Unassigned(t) == Unassigned(s) - {r};
    t
  }

  /**
   * `ImAssignMidiChannel`: a no-op when the part or the channel is missing;
   * otherwise links the part to the channel and the channel back to the
   * player and part, then gives the channel the part's volume.
   */
  function AssignMidiChannel(s: Mixer, player: Option<nat>, channel: Option<PartRef>, mc: Option<nat>): (t: Mixer)
    requires WellFormed(s)
    requires channel.Some? ==> ValidRef(s, channel.value)
    requires mc.Some? ==> mc.value < MidiChannelCount
    ensures WellFormed(t) && SamePlayers(s, t) && t.groups == s.groups
    ensures channel.None? || mc.None? ==> t == s
    ensures channel.Some? && mc.Some? ==>
      && PartAt(t, channel.value) == PartAt(s, channel.value).(data := mc)
      && t.midiChannels[mc.value].player == player
      && t.midiChannels[mc.value].channel == channel
      && t.midiChannels[mc.value].volume == PartAt(s, channel.value).groupVolume
    ensures channel.Some? && mc.Some? ==>
      forall q :: ValidRef(s, q) && q != channel.value ==> PartAt(t, q) == PartAt(s, q)
    ensures channel.Some? && mc.Some? ==>
      forall j :: 0 <= j < MidiChannelCount && j != mc.value ==> SameButVolume(t.midiChannels[j], s.midiChannels[j])
    ensures channel.Some? && mc.Some? ==>
      forall j :: 0 <= j < MidiChannelCount && j != mc.value && j != s.midiChannels[mc.value].sharedMidiChannel ==>
        t.midiChannels[j] == s.midiChannels[j]
    ensures channel.Some? && mc.Some? ==>
      var level := PartAt(s, channel.value).groupVolume;
      var shared := s.midiChannels[mc.value].sharedMidiChannel;
      t.midiChannels[shared].volume == (if s.midiChannels[mc.value].volume != level then level else s.midiChannels[shared].volume)
    ensures channel.Some? && mc.Some? ==>
      var level := PartAt(s, channel.value).groupVolume;
      t.sent == s.sent + (if s.midiChannels[mc.value].volume != level then [VolumeMsg(s.midiChannels[mc.value].channelId, level)] else [])
    ensures channel.Some? && mc.Some? ==> Unassigned(t) == Unassigned(s) - {channel.value}
    ensures player.Some? ==> FreeSet(t) == FreeSet(s) - (if channel.Some? && mc.Some? then {mc.value} else {})
  {
    if channel.None? || mc.None? then s
    else
      var s2 := Link(s, player, channel.value, mc.value);
      var shared := s.midiChannels[mc.value].sharedMidiChannel;
      assert s2.midiChannels[mc.value].volume == s.midiChannels[mc.value].volume;
      assert s2.midiChannels[mc.value].sharedMidiChannel == shared;
      assert s2.midiChannels[shared].volume == s.midiChannels[shared].volume;
      MidiChannelSetVolume(s2, mc, PartAt(s2, channel.value).groupVolume)
  }

  /** Whether instrument `i` has a note sounding on channel `id`, in either mask. */
  predicate Sounding(c: MidiChannel, i: nat, id: nat)
    requires i < |c.instrumentMask| && i < |c.instrumentMask2|
  {
    id in c.instrumentMask[i] || id in c.instrumentMask2[i]
  }

  /** Note-off messages for the instruments from `i` on that are sounding on the channel, in instrument order. */
  function NoteOffs(c: MidiChannel, i: nat): (evs: seq<MidiEvent>)
    requires ChannelOk(c) && i <= InstrumentCount
    ensures forall k :: 0 <= k < |evs| ==>
      && evs[k].NoteOff? && evs[k].channelId == c.channelId
      && i <= evs[k].instrument < InstrumentCount && Sounding(c, evs[k].instrument, c.channelId)
    ensures forall k, l :: 0 <= k < l < |evs| ==> evs[k].instrument < evs[l].instrument
    ensures forall j :: i <= j < InstrumentCount && Sounding(c, j, c.channelId) ==> NoteOff(c.channelId, j) in evs
    decreases InstrumentCount - i
  {
    if i == InstrumentCount then []
    else
      var rest := NoteOffs(c, i + 1);
      if Sounding(c, i, c.channelId) then [NoteOff(c.channelId, i)] + rest else rest
  }

  /**
   * One instrument's step of `ImFreeMidiChannel`: clear the channel's bit
   * (`s_channelMask[id]`) from the first mask when it is there, otherwise
   * from the second.
   */
  function ClearInstrument(m1: set<nat>, m2: set<nat>, id: nat): (r: (set<nat>, set<nat>))
    ensures id !in r.0
    ensures r.0 - {id} == m1 - {id} && r.1 - {id} == m2 - {id}
    ensures id in r.1 <==> id in m1 && id in m2
  {
    if id in m1 then (m1 - {id}, m2)
    else if id in m2 then (m1, m2 - {id})
    else (m1, m2)
  }

  /** After a free, instrument `i` no longer holds the channel in its first mask, and other channels are untouched. */
  predicate InstrumentCleared(c: MidiChannel, c': MidiChannel, id: nat, i: nat)
    requires ChannelOk(c) && ChannelOk(c') && i < InstrumentCount
  {
    && id !in c'.instrumentMask[i]
    && c'.instrumentMask[i] - {id} == c.instrumentMask[i] - {id}
    && c'.instrumentMask2[i] - {id} == c.instrumentMask2[i] - {id}
    && (id in c'.instrumentMask2[i] <==> id in c.instrumentMask[i] && id in c.instrumentMask2[i])
  }

  predicate MasksCleared(c: MidiChannel, c': MidiChannel, id: nat)
    requires ChannelOk(c) && ChannelOk(c')
  {
    forall i :: 0 <= i < InstrumentCount ==> InstrumentCleared(c, c', id, i)
  }

  /** Channels agree on everything except their sustain and their masks. */
  predicate SameButMasks(a: MidiChannel, b: MidiChannel) {
    && a.player == b.player
    && a.channel == b.channel
    && a.sharedMidiChannel == b.sharedMidiChannel
    && a.channelId == b.channelId
    && a.volume == b.volume
    && a.sharedPart == b.sharedPart
  }

  /** The channel record `ImFreeMidiChannel` leaves behind. */
  function FreedChannel(c: MidiChannel): (c': MidiChannel)
    requires ChannelOk(c)
    ensures ChannelOk(c') && c'.sustain == 0
    ensures SameButMasks(c', c)
    ensures MasksCleared(c, c', c.channelId)
  {
    var m1 := seq(InstrumentCount, i requires 0 <= i < InstrumentCount =>
      ClearInstrument(c.instrumentMask[i], c.instrumentMask2[i], c.channelId).0);
    var m2 := seq(InstrumentCount, i requires 0 <= i < InstrumentCount =>
      ClearInstrument(c.instrumentMask[i], c.instrumentMask2[i], c.channelId).1);
    c.(sustain := 0, instrumentMask := m1, instrumentMask2 := m2)
  }

  /**
   * `ImFreeMidiChannel`: zeroes the channel's sustain and, for each
   * instrument, clears the channel's bit from the first mask or, when the
   * first mask does not hold it, from the second, sending a note-off for
   * every instrument that held it in either.
   */
  function FreeMidiChannel(s: Mixer, d: nat): (t: Mixer)
    requires WellFormed(s) && d < MidiChannelCount
    ensures WellFormed(t) && t.players == s.players && t.groups == s.groups
    ensures forall j :: 0 <= j < MidiChannelCount && j != d ==> t.midiChannels[j] == s.midiChannels[j]
    ensures t.midiChannels[d].sustain == 0
    ensures SameButMasks(t.midiChannels[d], s.midiChannels[d])
    ensures MasksCleared(s.midiChannels[d], t.midiChannels[d], s.midiChannels[d].channelId)
    ensures t.sent == s.sent + NoteOffs(s.midiChannels[d], 0)
  {
    var c := s.midiChannels[d];
    var t := SetChannel(s, d, FreedChannel(c));
    t.(sent := t.sent + NoteOffs(c, 0))
  }

  /**
   * `ImResetSoundChannel`: when the part holds a channel, frees the channel
   * and clears both directions of the link, so the channel returns to the
   * pool unless it is reserved as a shared part or lies past the pool limit.
   */
  function ResetSoundChannel(s: Mixer, r: PartRef): (t: Mixer)
    requires WellFormed(s) && ValidRef(s, r)
    ensures WellFormed(t) && SamePlayers(s, t) && t.groups == s.groups
    ensures PartAt(t, r).data.None? && SameButChannel(PartAt(t, r), PartAt(s, r))
    ensures forall q :: ValidRef(s, q) && q != r ==> PartAt(t, q) == PartAt(s, q)
    ensures Unassigned(t) == Unassigned(s) + {r}
    ensures PartAt(s, r).data.None? ==> t == s
    ensures PartAt(s, r).data.Some? ==>
      var d := PartAt(s, r).data.value;
      && t.midiChannels[d].player.None? && t.midiChannels[d].channel.None?
      && t.midiChannels[d].sustain == 0
      && t.midiChannels[d].sharedPart == s.midiChannels[d].sharedPart
      && (forall j :: 0 <= j < MidiChannelCount && j != d ==> t.midiChannels[j] == s.midiChannels[j])
      && FreeSet(t) == FreeSet(s) + (if d < PoolLimit && s.midiChannels[d].sharedPart.None? then {d} else {})
    ensures PartAt(s, r).data.Some? ==>
      var d := PartAt(s, r).data.value;
      && t.midiChannels[d].volume == s.midiChannels[d].volume
      && t.midiChannels[d].channelId == s.midiChannels[d].channelId
      && t.midiChannels[d].sharedMidiChannel == s.midiChannels[d].sharedMidiChannel
      && MasksCleared(s.midiChannels[d], t.midiChannels[d], s.midiChannels[d].channelId)
      && t.sent == s.sent + NoteOffs(s.midiChannels[d], 0)
  {
    match PartAt(s, r).data
    case None => s
    case Some(d) =>
      var s1 := FreeMidiChannel(s, d);
      var s2 := SetChannel(s1, d, s1.midiChannels[d].(player := None, channel := None));
      var t := SetPart(s2, r, PartAt(s2, r).(data := None));
      assert Unassigned(t) == Unassigned(s) + {r};
      t
  }
}
