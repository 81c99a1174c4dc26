/**
 * The state of the iMuse MIDI allocator and volume mixer, as an arena.
 *
 * The source keeps a linked list of sound players, each owning 16 parts
 * (its `SoundChannel` array), a static table of 16 physical MIDI channels,
 * and pointers between them. Here the player list is a sequence, a part is
 * addressed by its player's index and its slot, and every pointer becomes an
 * index wrapped in `Option`.
 */
module ImuseState {

  /** Parts per sound player. */
  const PartCount: nat := 16
  /** Size of the physical MIDI channel table. */
  const MidiChannelCount: nat := 16
  /** The pool scan stops before this index: channel 15 is never handed out. */
  const PoolLimit: nat := 15
  /** Index of the master group and size of the group tables. */
  const GroupMaster: nat := 0
  const GroupMaxCount: nat := 16
  /** Length of each per-channel note-on mask table. */
  const InstrumentCount: nat := 128
  /** Largest MIDI volume. */
  const MaxVolume: int := 127

  datatype Option<T> = None | Some(value: T)

  /** Arena address of a part: index of its player in the list, and its slot. */
  datatype PartRef = PartRef(player: nat, slot: nat)

  /**
   * One logical part of a player (`SoundChannel` in the source). `data` is
   * the physical channel currently driving it, if any. Only the fields the
   * allocator and the mixer read or write are kept.
   */
  datatype Part = Part(
    data: Option<nat>,
    partStatus: int,
    partTrim: int,
    priority: int,
    partVolume: int,
    groupVolume: int,
    outChannelCount: int)

  /**
   * A sound player (one playing piece of music). `sharedPart` is the index
   * of the player whose parts this one may share.
   */
  datatype Player = Player(
    sharedPart: Option<nat>,
    group: int,
    volume: int,
    groupVolume: int,
    parts: seq<Part>)

  /**
   * A physical MIDI channel (`ImMidiChannel`). `player` and `channel` are the
   * back links to the player and part it serves; `sharedMidiChannel` is the
   * channel its volume is mirrored into; the two masks record, per
   * instrument, which channels hold a sounding note. The source keeps each
   * mask as a 32-bit word with bit `k` marking channel `k`; here it is the
   * set of those bit positions.
   */
  datatype MidiChannel = MidiChannel(
    player: Option<nat>,
    channel: Option<PartRef>,
    sharedMidiChannel: nat,
    channelId: nat,
    volume: int,
    sustain: int,
    instrumentMask: seq<set<nat>>,
    instrumentMask2: seq<set<nat>>,
    sharedPart: Option<nat>)

  /** What would be sent to the MIDI transport. */
  datatype MidiEvent = NoteOff(channelId: nat, instrument: nat) | VolumeMsg(channelId: nat, volume: int)

  /** The configured (`s_groupVolume`) and resolved (`s_soundGroupVolume`) group volumes. */
  datatype GroupTables = GroupTables(configured: seq<int>, resolved: seq<int>)

  /** Everything the allocator and the mixer read and write. */
  datatype Mixer = Mixer(
    groups: GroupTables,
    players: seq<Player>,
    midiChannels: seq<MidiChannel>,
    sent: seq<MidiEvent>)

  predicate TablesOk(g: GroupTables) {
    |g.configured| == GroupMaxCount && |g.resolved| == GroupMaxCount
  }

  predicate ChannelOk(c: MidiChannel) {
    && c.sharedMidiChannel < MidiChannelCount
    && c.channelId < MidiChannelCount
    && |c.instrumentMask| == InstrumentCount
    && |c.instrumentMask2| == InstrumentCount
  }

  predicate PlayerOk(pl: Player, playerCount: nat) {
    && |pl.parts| == PartCount
    && (pl.sharedPart.Some? ==> pl.sharedPart.value < playerCount)
    && forall m :: 0 <= m < PartCount && pl.parts[m].data.Some? ==> pl.parts[m].data.value < MidiChannelCount
  }

  /** Every index link points into its table. */
  predicate WellFormed(s: Mixer) {
    && TablesOk(s.groups)
    && |s.midiChannels| == MidiChannelCount
    && (forall i :: 0 <= i < MidiChannelCount ==> ChannelOk(s.midiChannels[i]))
    && (forall p :: 0 <= p < |s.players| ==> PlayerOk(s.players[p], |s.players|))
  }

  predicate ValidRef(s: Mixer, r: PartRef) {
    r.player < |s.players| && r.slot < |s.players[r.player].parts|
  }

  function PartAt(s: Mixer, r: PartRef): Part
    requires ValidRef(s, r)
  {
    s.players[r.player].parts[r.slot]
  }

  function PlayerOf(s: Mixer, r: PartRef): Player
    requires ValidRef(s, r)
  {
    s.players[r.player]
  }

  /** Replace one part, leaving every other part and every player header alone. */
  function SetPart(s: Mixer, r: PartRef, x: Part): (t: Mixer)
    requires ValidRef(s, r)
    ensures SamePlayers(s, t)
    ensures t.groups == s.groups && t.midiChannels == s.midiChannels && t.sent == s.sent
    ensures PartAt(t, r) == x
    ensures forall q :: ValidRef(s, q) && q != r ==> PartAt(t, q) == PartAt(s, q)
    ensures WellFormed(s) && (x.data.Some? ==> x.data.value < MidiChannelCount) ==> WellFormed(t)
  {
    var pl := s.players[r.player];
    var t := s.(players := s.players[r.player := pl.(parts := pl.parts[r.slot := x])]);
    assert forall p :: 0 <= p < |s.players| && p != r.player ==> t.players[p] == s.players[p];
    t
  }

  /** Two players agree on everything except their parts. */
  predicate SameHeader(a: Player, b: Player) {
    && a.sharedPart == b.sharedPart
    && a.group == b.group
    && a.volume == b.volume
    && a.groupVolume == b.groupVolume
  }

  /** Two parts agree on everything except the channel driving them. */
  predicate SameButChannel(a: Part, b: Part) {
    && a.partStatus == b.partStatus
    && a.partTrim == b.partTrim
    && a.priority == b.priority
    && a.partVolume == b.partVolume
    && a.groupVolume == b.groupVolume
    && a.outChannelCount == b.outChannelCount
  }

  /** Same player headers and same number of parts; the parts themselves may differ. */
  predicate SamePlayers(s: Mixer, t: Mixer) {
    && |t.players| == |s.players|
    && forall p :: 0 <= p < |s.players| ==>
         && SameHeader(t.players[p], s.players[p])
         && |t.players[p].parts| == |s.players[p].parts|
  }

  /** A part is idle when no physical channel drives it. */
  function Unassigned(s: Mixer): (u: set<PartRef>)
    ensures forall q :: q in u <==> ValidRef(s, q) && PartAt(s, q).data.None?
  {
    set p, m | 0 <= p < |s.players| && 0 <= m < |s.players[p].parts| && s.players[p].parts[m].data.None? :: PartRef(p, m)
  }

  /** A channel is free when it serves no player and is not reserved as a shared part. */
  predicate IsFree(c: MidiChannel) {
    c.player.None? && c.sharedPart.None?
  }

  /** The channels the pool may hand out. */
  function FreeSet(s: Mixer): (f: set<nat>)
    requires |s.midiChannels| == MidiChannelCount
    ensures forall i: nat :: i in f <==> i < PoolLimit && IsFree(s.midiChannels[i])
  {
    set i: nat | i < PoolLimit && IsFree(s.midiChannels[i])
  }

  /** Replace one physical channel. */
  function SetChannel(s: Mixer, i: nat, c: MidiChannel): (t: Mixer)
    requires i < |s.midiChannels|
    ensures t.groups == s.groups && t.players == s.players && t.sent == s.sent
    ensures |t.midiChannels| == |s.midiChannels|
    ensures t.midiChannels[i] == c
    ensures forall j :: 0 <= j < |s.midiChannels| && j != i ==> t.midiChannels[j] == s.midiChannels[j]
    ensures WellFormed(s) && ChannelOk(c) ==> WellFormed(t)
  {
    s.(midiChannels := s.midiChannels[i := c])
  }

  lemma SubsetCard<T>(a: set<T>, b: set<T>)
    requires a <= b
    ensures |a| <= |b|
  {
    assert b == a + (b - a);
  }

  lemma StrictSubsetCard<T>(a: set<T>, b: set<T>)
    requires a <= b && a != b
    ensures |a| < |b|
  {
    var x :| x in b && x !in a;
    SubsetCard(a, b - {x});
  }
}
