/**
 * Volume propagation from the group tables to every player and part, and
 * `ImSetGroupVol`, which updates the tables and then propagates.
 *
 * A player's level is its volume scaled by its group's resolved volume; a
 * part's level is its volume and trim scaled by its player's level. A part
 * whose player, trim or volume is zero loses its channel; any other part
 * that holds a channel has that channel's volume set to the part's level.
 * Every part visited, except a silent idle one, runs the allocator.
 */
module Propagation {
  import opened ImuseState
  import opened GroupVolume
  import opened ChannelPool
  import opened Allocator

  /** `((partVolume + 1) * (partTrim + 1) * playerLevel) >> 14`, a floor division as in `Attenuate`. */
  function PartLevel(partVolume: int, partTrim: int, playerLevel: int): int {
    (partVolume + 1) * (partTrim + 1) * playerLevel / 16384
  }

  /** The level `ImHandleChannelGroupVolume` gives a player. */
  function PlayerLevel(s: Mixer, pl: Player): int
    requires TablesOk(s.groups) && 0 <= pl.group < GroupMaxCount
  {
    Attenuate(pl.volume, GetGroupVolume(s.groups, pl.group).value)
  }

  /**
   * What propagation needs of a state: every player's group indexes the
   * tables, and no part has zero output channels.
   */
  ghost predicate VolumeReady(s: Mixer) {
    && WellFormed(s)
    && forall p :: 0 <= p < |s.players| ==>
         && 0 <= s.players[p].group < GroupMaxCount
         && forall m :: 0 <= m < PartCount ==> s.players[p].parts[m].outChannelCount != 0
  }

  /** The player's level follows its volume and its group's resolved volume. */
  ghost predicate PlayerDone(s: Mixer, p: nat) {
    && p < |s.players|
    && TablesOk(s.groups)
    && 0 <= s.players[p].group < GroupMaxCount
    && s.players[p].groupVolume == PlayerLevel(s, s.players[p])
  }

  /** The part's level follows its volume, trim and player level, and a silent part holds no channel. */
  ghost predicate PartDone(s: Mixer, q: PartRef)
    requires ValidRef(s, q)
  {
    && PartAt(s, q).groupVolume == PartLevel(PartAt(s, q).partVolume, PartAt(s, q).partTrim, PlayerOf(s, q).groupVolume)
    && (Silent(s, q) ==> PartAt(s, q).data.None?)
  }

  /** Everything propagation writes follows from what it reads. */
  ghost predicate Mixed(s: Mixer)
    requires VolumeReady(s)
  {
    && (forall p :: 0 <= p < |s.players| ==> PlayerDone(s, p))
    && (forall q :: ValidRef(s, q) ==> PartDone(s, q))
  }

  /** A player's settings: everything but its level and its parts. */
  predicate SameSettings(a: Player, b: Player) {
    a.sharedPart == b.sharedPart && a.group == b.group && a.volume == b.volume
  }

  /** A part's settings: everything but its level and its channel. */
  predicate SamePartSettings(a: Part, b: Part) {
    && a.partStatus == b.partStatus
    && a.partTrim == b.partTrim
    && a.priority == b.priority
    && a.partVolume == b.partVolume
    && a.outChannelCount == b.outChannelCount
  }

  /**
   * Propagation leaves alone what it reads: the tables, the players'
   * groups, volumes and shared links, and every part field except its
   * level and its channel.
   */
  ghost predicate SameInputs(s: Mixer, t: Mixer) {
    && t.groups == s.groups
    && |t.players| == |s.players|
    && (forall p :: 0 <= p < |s.players| ==>
         && SameSettings(t.players[p], s.players[p])
         && |t.players[p].parts| == |s.players[p].parts|)
    && (forall q :: ValidRef(s, q) ==>
         ValidRef(t, q) && SamePartSettings(PartAt(t, q), PartAt(s, q)))
  }

  /**
   * Every eligible part holds a channel, except possibly the parts of
   * player `p` from slot `m` on, which are still to be visited.
   */
  ghost predicate ServedOutside(s: Mixer, p: nat, m: nat) {
    forall q :: ValidRef(s, q) && Eligible(s, q) && !(q.player == p && q.slot >= m) ==> PartAt(s, q).data.Some?
  }

  /**
   * What a propagation keeps about the allocator: either every eligible
   * part outside the ones still to visit is served, or no allocator run
   * has happened yet and every part visited so far is silent.
   */
  ghost predicate Covered(s: Mixer, p: nat, m: nat) {
    || ServedOutside(s, p, m)
    || forall q :: ValidRef(s, q) && Before(q, p, m) ==> Silent(s, q)
  }

  /** Part levels stay in [0, playerLevel] for inputs in MIDI range; so in [0,127] when the player is. */
  lemma PartLevelBounds(partVolume: int, partTrim: int, playerLevel: int)
    requires 0 <= partVolume <= MaxVolume && 0 <= partTrim <= MaxVolume && 0 <= playerLevel
    ensures 0 <= PartLevel(partVolume, partTrim, playerLevel) <= playerLevel
  {
    var a := partVolume + 1;
    var b := partTrim + 1;
    TimesMonotone(a, 128, b);
    TimesIsProduct(a, b);
    TimesIsProduct(128, b);
    var c := a * b;
    TimesMonotone(c, 16384, playerLevel);
    TimesIsProduct(c, playerLevel);
    TimesIsProduct(16384, playerLevel);
  }

  /**
   * Within the MIDI range a silent part's level is 0: a zero player level,
   * trim or volume leaves the product at most 128 * 127, below the 2^14 the
   * level is divided by. So a part with a nonzero level is never silent.
   */
  lemma SilentLevelIsZero(partVolume: int, partTrim: int, playerLevel: int)
    requires 0 <= partVolume <= MaxVolume && 0 <= partTrim <= MaxVolume && 0 <= playerLevel <= MaxVolume
    requires playerLevel == 0 || partTrim == 0 || partVolume == 0
    ensures PartLevel(partVolume, partTrim, playerLevel) == 0
  {
    var a := partVolume + 1;
    var b := partTrim + 1;
    var c := a * b;
    if playerLevel != 0 {
      assert c <= 128 by {
        if partTrim == 0 {
          assert c == a;
        } else {
          assert c == b;
        }
      }
      TimesMonotone(c, 128, playerLevel);
      TimesIsProduct(c, playerLevel);
      TimesIsProduct(128, playerLevel);
    }
  }

  /** Player levels stay in [0,127] when the player's volume and group's resolved volume do. */
  lemma PlayerLevelBounds(volume: int, resolved: int)
    requires 0 <= volume <= MaxVolume && 0 <= resolved <= MaxVolume
    ensures 0 <= Attenuate(volume, resolved) <= resolved
  {
    AttenuateBounds(volume, resolved);
  }

  /**
   * A part can have level 0 and still not be silent: the release test
   * looks at the player level, trim and volume, not at the part level, so
   * such a part keeps its channel at volume 0.
   */
  lemma ZeroLevelIsNotSilence(s: Mixer, p: nat, m: nat)
    requires WellFormed(s) && p < |s.players| && m < PartCount
    requires s.players[p].parts[m].outChannelCount != 0
    requires s.players[p].groupVolume == 1 && s.players[p].parts[m].partVolume == 1 && s.players[p].parts[m].partTrim == 1
    ensures var t := VolumeStep(s, p, m).0;
      && PartAt(t, PartRef(p, m)).groupVolume == 0
      && PartAt(t, PartRef(p, m)).data == s.players[p].parts[m].data
  {
    VolumeStepHere(s, p, m);
  }

  lemma GrowsKeepsInputs(s: Mixer, t: Mixer)
    requires WellFormed(s) && Grows(s, t)
    ensures SameInputs(s, t)
  {
  }

  /** The allocator keeps the state ready for propagation. */
  lemma GrowsKeepsReady(s: Mixer, t: Mixer)
    requires VolumeReady(s) && Grows(s, t)
    ensures VolumeReady(t) && |t.players| == |s.players|
  {
    GrowsKeepsInputs(s, t);
    SameInputsKeepReady(s, t);
  }

  /** The allocator never undoes a part's level, and never serves a silent idle part. */
  lemma GrowsKeepsPart(s: Mixer, t: Mixer, q: PartRef)
    requires VolumeReady(s) && Grows(s, t) && ValidRef(s, q) && PartDone(s, q)
    ensures ValidRef(t, q) && PartDone(t, q)
  {
    assert PlayerOf(t, q).groupVolume == PlayerOf(s, q).groupVolume;
    assert SameButChannel(PartAt(t, q), PartAt(s, q));
  }

  lemma SameInputsTrans(s: Mixer, t: Mixer, u: Mixer)
    requires SameInputs(s, t) && SameInputs(t, u)
    ensures SameInputs(s, u)
  {
  }

  lemma SameInputsKeepReady(s: Mixer, t: Mixer)
    requires VolumeReady(s) && WellFormed(t) && SameInputs(s, t)
    ensures VolumeReady(t)
  {
    forall p, m | 0 <= p < |t.players| && 0 <= m < PartCount
      ensures t.players[p].parts[m].outChannelCount != 0
    {
      assert PartAt(t, PartRef(p, m)).outChannelCount == PartAt(s, PartRef(p, m)).outChannelCount;
    }
  }

  /**
   * Lines 474-487 up to the allocator call: set the part's level, then
   * release a silent part's channel or set the held channel's volume.
   * The flag says whether the allocator runs next; it does not for a
   * silent part that holds no channel.
   */
  function VolumeStep(s: Mixer, p: nat, m: nat): (r: (Mixer, bool))
    requires WellFormed(s) && p < |s.players| && m < PartCount
    requires s.players[p].parts[m].outChannelCount != 0
    ensures WellFormed(r.0) && SameInputs(s, r.0)
  {
    var here := PartRef(p, m);
    var part := PartAt(s, here);
    var level := PartLevel(part.partVolume, part.partTrim, s.players[p].groupVolume);
    var t := SetPart(s, here, part.(groupVolume := level));
    if Silent(t, here) then
      if part.data.None? then (t, false) else (ResetSoundChannel(t, here), true)
    else if part.data.Some? then
      (MidiChannelSetVolume(t, part.data, level), true)
    else
      (t, true)
  }

  /**
   * The volume step sets the part's level from its volume, trim and player
   * level; a silent part loses its channel, which is freed and unlinked; a
   * channel that stays gets the level as its volume; and the allocator runs
   * next unless the part is silent and was already idle.
   */
  lemma VolumeStepHere(s: Mixer, p: nat, m: nat)
    requires WellFormed(s) && p < |s.players| && m < PartCount
    requires s.players[p].parts[m].outChannelCount != 0
    ensures var r := VolumeStep(s, p, m); var here := PartRef(p, m);
      && SamePlayers(s, r.0)
      && PartAt(r.0, here).groupVolume == PartLevel(PartAt(s, here).partVolume, PartAt(s, here).partTrim, s.players[p].groupVolume)
      && (Silent(s, here) ==> PartAt(r.0, here).data.None?)
      && (!Silent(s, here) ==> PartAt(r.0, here).data == PartAt(s, here).data)
      && (r.1 <==> !(Silent(s, here) && PartAt(s, here).data.None?))
    ensures var r := VolumeStep(s, p, m); var here := PartRef(p, m);
      !Silent(s, here) && PartAt(s, here).data.Some? ==>
        r.0.midiChannels[PartAt(s, here).data.value].volume == PartAt(r.0, here).groupVolume
    ensures var r := VolumeStep(s, p, m); var here := PartRef(p, m);
      Silent(s, here) && PartAt(s, here).data.Some? ==>
        var c := r.0.midiChannels[PartAt(s, here).data.value];
        c.player.None? && c.channel.None? && c.sustain == 0
  {
  }

  /** The volume step touches no other part. */
  lemma VolumeStepOther(s: Mixer, p: nat, m: nat, q: PartRef)
    requires WellFormed(s) && p < |s.players| && m < PartCount
    requires s.players[p].parts[m].outChannelCount != 0
    requires ValidRef(s, q) && q != PartRef(p, m)
    ensures PartAt(VolumeStep(s, p, m).0, q) == PartAt(s, q)
  {
  }

  /**
   * `ImHandleChannelVolumeChange` for slot `m` of player `p`: the volume
   * step, then the allocator unless the part is silent and idle.
   */
  function HandleChannelVolumeChange(s: Mixer, p: nat, m: nat): (o: Outcome)
    requires VolumeReady(s) && p < |s.players| && m < PartCount
    ensures VolumeReady(o.state) && |o.state.players| == |s.players| && o.state.groups == s.groups
  {
    var step := VolumeStep(s, p, m);
    SameInputsKeepReady(s, step.0);
    if !step.1 then
      Settled(step.0)
    else
      SetupPartsGrows(step.0);
      var o := SetupParts(step.0);
      GrowsKeepsReady(step.0, o.state);
      o
  }

  /** A volume change keeps what propagation reads. */
  lemma HandleInputs(s: Mixer, p: nat, m: nat)
    requires VolumeReady(s) && p < |s.players| && m < PartCount
    ensures SameInputs(s, HandleChannelVolumeChange(s, p, m).state)
  {
    var step := VolumeStep(s, p, m);
    if step.1 {
      var o := SetupParts(step.0);
      SetupPartsGrows(step.0);
      GrowsKeepsInputs(step.0, o.state);
      SameInputsTrans(s, step.0, o.state);
    }
  }

  /** A volume change that does not return leaves the allocator stuck. */
  lemma HandleSpins(s: Mixer, p: nat, m: nat)
    requires VolumeReady(s) && p < |s.players| && m < PartCount
    ensures HandleChannelVolumeChange(s, p, m).Spins? ==> SpinsAt(HandleChannelVolumeChange(s, p, m).state)
  {
    var step := VolumeStep(s, p, m);
    if step.1 {
      SetupPartsSpinsAt(step.0);
    }
  }

  /**
   * After `ImHandleChannelVolumeChange` the part's level follows its
   * inputs and, if it is silent, it holds no channel: the allocator that
   * runs after the release never gives a silent part a channel.
   */
  lemma HandleHere(s: Mixer, p: nat, m: nat)
    requires VolumeReady(s) && p < |s.players| && m < PartCount
    ensures PartDone(HandleChannelVolumeChange(s, p, m).state, PartRef(p, m))
  {
    var step := VolumeStep(s, p, m);
    VolumeStepHere(s, p, m);
    assert PlayerOf(step.0, PartRef(p, m)).groupVolume == s.players[p].groupVolume;
    assert PartDone(step.0, PartRef(p, m));
    if step.1 {
      SameInputsKeepReady(s, step.0);
      SetupPartsGrows(step.0);
      GrowsKeepsPart(step.0, SetupParts(step.0).state, PartRef(p, m));
    }
  }

  /** A volume change on one part keeps the level of every other part. */
  lemma HandlePart(s: Mixer, p: nat, m: nat, q: PartRef)
    requires VolumeReady(s) && p < |s.players| && m < PartCount
    requires ValidRef(s, q) && q != PartRef(p, m) && PartDone(s, q)
    ensures ValidRef(HandleChannelVolumeChange(s, p, m).state, q)
    ensures PartDone(HandleChannelVolumeChange(s, p, m).state, q)
  {
    var step := VolumeStep(s, p, m);
    VolumeStepHere(s, p, m);
    VolumeStepOther(s, p, m, q);
    assert PlayerOf(step.0, q).groupVolume == PlayerOf(s, q).groupVolume;
    assert PartDone(step.0, q);
    if step.1 {
      SameInputsKeepReady(s, step.0);
      SetupPartsGrows(step.0);
      GrowsKeepsPart(step.0, SetupParts(step.0).state, q);
    }
  }

  /** A volume change on a part changes no player header. */
  lemma HandleHeader(s: Mixer, p: nat, m: nat, p': nat)
    requires VolumeReady(s) && p < |s.players| && m < PartCount && p' < |s.players|
    ensures SameHeader(HandleChannelVolumeChange(s, p, m).state.players[p'], s.players[p'])
  {
    var step := VolumeStep(s, p, m);
    VolumeStepHere(s, p, m);
    if step.1 {
      SetupPartsGrows(step.0);
    }
  }

  /** Coverage moves past the part just visited. */
  lemma HandleCover(s: Mixer, p: nat, m: nat)
    requires VolumeReady(s) && p < |s.players| && m < PartCount && Covered(s, p, m)
    ensures HandleChannelVolumeChange(s, p, m).Settled? ==> Covered(HandleChannelVolumeChange(s, p, m).state, p, m + 1)
  {
    var step := VolumeStep(s, p, m);
    if step.1 {
      var o := SetupParts(step.0);
      SetupPartsGrows(step.0);
      if o.Settled? {
        AllServedCovers(o.state, p, m + 1);
      }
    } else {
      StepCover(s, p, m, step.0);
    }
  }

  lemma AllServedCovers(s: Mixer, p: nat, m: nat)
    requires AllServed(s)
    ensures Covered(s, p, m)
  {
  }

  /** A silent idle part, left idle, moves coverage past itself. */
  lemma StepCover(s: Mixer, p: nat, m: nat, t: Mixer)
    requires VolumeReady(s) && p < |s.players| && m < PartCount && Covered(s, p, m)
    requires t == VolumeStep(s, p, m).0 && !VolumeStep(s, p, m).1
    ensures Covered(t, p, m + 1)
  {
    var here := PartRef(p, m);
    VolumeStepHere(s, p, m);
    assert Silent(t, here) && !Eligible(t, here);
    if ServedOutside(s, p, m) {
      forall q | ValidRef(t, q) && Eligible(t, q) && !(q.player == p && q.slot >= m + 1)
        ensures PartAt(t, q).data.Some?
      {
        VolumeStepOther(s, p, m, q);
        assert PlayerOf(t, q).groupVolume == PlayerOf(s, q).groupVolume;
        assert Eligible(s, q);
      }
    } else {
      forall q | ValidRef(t, q) && Before(q, p, m + 1)
        ensures Silent(t, q)
      {
        if q != here {
          VolumeStepOther(s, p, m, q);
          assert PlayerOf(t, q).groupVolume == PlayerOf(s, q).groupVolume;
          assert Silent(s, q);
        }
      }
    }
  }

  /** The level step of lines 443-445 for player `p`. */
  function SetPlayerLevel(s: Mixer, p: nat): (t: Mixer)
    requires VolumeReady(s) && p < |s.players|
    ensures VolumeReady(t) && |t.players| == |s.players| && t.groups == s.groups
  {
    var pl := s.players[p];
    var t := s.(players := s.players[p := pl.(groupVolume := PlayerLevel(s, pl))]);
    assert forall p' :: 0 <= p' < |s.players| && p' != p ==> t.players[p'] == s.players[p'];
    t
  }

  /** Setting player `p`'s level changes that level alone, and makes it follow the player's inputs. */
  lemma PlayerLevelSet(s: Mixer, p: nat)
    requires VolumeReady(s) && p < |s.players|
    ensures SameInputs(s, SetPlayerLevel(s, p))
    ensures PlayerDone(SetPlayerLevel(s, p), p)
    ensures var t := SetPlayerLevel(s, p);
      && t.midiChannels == s.midiChannels && t.sent == s.sent
      && (forall p' :: 0 <= p' < |s.players| && p' != p ==> t.players[p'] == s.players[p'])
      && t.players[p].parts == s.players[p].parts
  {
  }

  /** Setting player `p`'s level keeps the levels of the other players' parts. */
  lemma LevelKeepsPart(s: Mixer, p: nat, q: PartRef)
    requires VolumeReady(s) && p < |s.players|
    requires ValidRef(s, q) && q.player != p && PartDone(s, q)
    ensures PartDone(SetPlayerLevel(s, p), q)
  {
    PlayerLevelSet(s, p);
    var t := SetPlayerLevel(s, p);
    assert t.players[q.player] == s.players[q.player];
  }

  /** Setting player `p`'s level keeps coverage with `p` still to visit. */
  lemma LevelKeepsCover(s: Mixer, p: nat)
    requires VolumeReady(s) && p < |s.players| && Covered(s, p, 0)
    ensures Covered(SetPlayerLevel(s, p), p, 0)
  {
    var t := SetPlayerLevel(s, p);
    PlayerLevelSet(s, p);
    if ServedOutside(s, p, 0) {
      forall q | ValidRef(t, q) && Eligible(t, q) && !(q.player == p && q.slot >= 0)
        ensures PartAt(t, q).data.Some?
      {
        assert t.players[q.player] == s.players[q.player];
      }
    } else {
      forall q | ValidRef(t, q) && Before(q, p, 0)
        ensures Silent(t, q)
      {
        assert t.players[q.player] == s.players[q.player];
      }
    }
  }

  /** Having visited every part of player `p` is having visited everything before player `p + 1`. */
  lemma CoverNextPlayer(s: Mixer, p: nat)
    requires WellFormed(s) && Covered(s, p, PartCount)
    ensures Covered(s, p + 1, 0)
  {
    if !ServedOutside(s, p, PartCount) {
      forall q | ValidRef(s, q) && Before(q, p + 1, 0)
        ensures Silent(s, q)
      {
        assert Before(q, p, PartCount);
      }
    }
  }

  /** Once every player has been visited, coverage is the allocator's own guarantee. */
  lemma CoveredAtEnd(s: Mixer, m: nat)
    requires WellFormed(s) && Covered(s, |s.players|, m)
    ensures AllServed(s)
  {
    forall q | ValidRef(s, q) && Eligible(s, q)
      ensures PartAt(s, q).data.Some?
    {
      assert Before(q, |s.players|, m);
    }
  }

  /** Lines 440-453 from player `p` to the end of the list. */
  function PropagatePlayers(s: Mixer, p: nat): (o: Outcome)
    requires VolumeReady(s) && p <= |s.players|
    ensures |o.state.players| == |s.players|
    decreases |s.players| - p, PartCount + 1, 1
  {
    if p == |s.players| then Settled(s) else EnterPlayer(s, p)
  }

  /** One iteration of the player loop: set the player's level (lines 443-445), then visit its parts. */
  function EnterPlayer(s: Mixer, p: nat): (o: Outcome)
    requires VolumeReady(s) && p < |s.players|
    ensures |o.state.players| == |s.players|
    decreases |s.players| - p, PartCount + 1, 0
  {
    PropagateParts(SetPlayerLevel(s, p), p, 0)
  }

  /**
   * The part loop of lines 447-451 from slot `m` of player `p` on. It only
   * hands over to `VisitPart`: kept as its own layer, it lets a proof step
   * through the loops without unfolding the handling of a part.
   */
  function PropagateParts(s: Mixer, p: nat, m: nat): (o: Outcome)
    requires VolumeReady(s) && p < |s.players| && m < PartCount
    ensures |o.state.players| == |s.players|
    decreases |s.players| - p, PartCount - m, 2
  {
    VisitPart(s, p, m)
  }

  /** Line 449 for slot `m` of player `p`; stops as soon as an allocator run never returns. */
  function VisitPart(s: Mixer, p: nat, m: nat): (o: Outcome)
    requires VolumeReady(s) && p < |s.players| && m < PartCount
    ensures |o.state.players| == |s.players|
    decreases |s.players| - p, PartCount - m, 1
  {
    var o := HandleChannelVolumeChange(s, p, m);
    if o.Spins? then o else AfterPart(o.state, p, m)
  }

  /** Where the two loops go once slot `m` of player `p` is done: the next slot, or the next player. */
  function AfterPart(s: Mixer, p: nat, m: nat): (o: Outcome)
    requires VolumeReady(s) && p < |s.players| && m < PartCount
    ensures |o.state.players| == |s.players|
    decreases |s.players| - p, PartCount - m, 0
  {
    if m + 1 == PartCount then PropagatePlayers(s, p + 1) else PropagateParts(s, p, m + 1)
  }

  /** `ImHandleChannelGroupVolume`: every player's level, then every part's. */
  function HandleChannelGroupVolume(s: Mixer): (o: Outcome)
    requires VolumeReady(s)
    ensures |o.state.players| == |s.players|
  {
    PropagatePlayers(s, 0)
  }

  /*
   * Every property of the propagation comes as five lemmas, one per
   * function above, proved together by induction on the same measure.
   */
  /** Propagation keeps what it reads, and the state stays ready. */
  lemma {:induction false} PlayersInputs(s: Mixer, p: nat)
    requires VolumeReady(s) && p <= |s.players|
    ensures VolumeReady(PropagatePlayers(s, p).state) && SameInputs(s, PropagatePlayers(s, p).state)
    decreases |s.players| - p, PartCount + 1, 1
  {
    if p < |s.players| {
      EnterInputs(s, p);
    }
  }

  lemma {:induction false} EnterInputs(s: Mixer, p: nat)
    requires VolumeReady(s) && p < |s.players|
    ensures VolumeReady(EnterPlayer(s, p).state) && SameInputs(s, EnterPlayer(s, p).state)
    decreases |s.players| - p, PartCount + 1, 0
  {
    var t := SetPlayerLevel(s, p);
    PlayerLevelSet(s, p);
    PartsInputs(t, p, 0);
    SameInputsTrans(s, t, PropagateParts(t, p, 0).state);
  }

  lemma {:induction false} PartsInputs(s: Mixer, p: nat, m: nat)
    requires VolumeReady(s) && p < |s.players| && m < PartCount
    ensures VolumeReady(PropagateParts(s, p, m).state) && SameInputs(s, PropagateParts(s, p, m).state)
    decreases |s.players| - p, PartCount - m, 2
  {
    VisitInputs(s, p, m);
  }

  lemma {:induction false} VisitInputs(s: Mixer, p: nat, m: nat)
    requires VolumeReady(s) && p < |s.players| && m < PartCount
    ensures VolumeReady(VisitPart(s, p, m).state) && SameInputs(s, VisitPart(s, p, m).state)
    decreases |s.players| - p, PartCount - m, 1
  {
    var o := HandleChannelVolumeChange(s, p, m);
    HandleInputs(s, p, m);
    if o.Settled? {
      AfterInputs(o.state, p, m);
      SameInputsTrans(s, o.state, AfterPart(o.state, p, m).state);
    }
  }

  lemma {:induction false} AfterInputs(s: Mixer, p: nat, m: nat)
    requires VolumeReady(s) && p < |s.players| && m < PartCount
    ensures VolumeReady(AfterPart(s, p, m).state) && SameInputs(s, AfterPart(s, p, m).state)
    decreases |s.players| - p, PartCount - m, 0
  {
    if m + 1 == PartCount {
      PlayersInputs(s, p + 1);
    } else {
      PartsInputs(s, p, m + 1);
    }
  }

  /** A propagation that does not return stops on a state the allocator gives up on at once. */
  lemma {:induction false} PlayersSpins(s: Mixer, p: nat)
    requires VolumeReady(s) && p <= |s.players|
    ensures PropagatePlayers(s, p).Spins? ==> SpinsAt(PropagatePlayers(s, p).state)
    decreases |s.players| - p, PartCount + 1, 1
  {
    if p < |s.players| {
      EnterSpins(s, p);
    }
  }

  lemma {:induction false} EnterSpins(s: Mixer, p: nat)
    requires VolumeReady(s) && p < |s.players|
    ensures EnterPlayer(s, p).Spins? ==> SpinsAt(EnterPlayer(s, p).state)
    decreases |s.players| - p, PartCount + 1, 0
  {
    PartsSpins(SetPlayerLevel(s, p), p, 0);
  }

  lemma {:induction false} PartsSpins(s: Mixer, p: nat, m: nat)
    requires VolumeReady(s) && p < |s.players| && m < PartCount
    ensures PropagateParts(s, p, m).Spins? ==> SpinsAt(PropagateParts(s, p, m).state)
    decreases |s.players| - p, PartCount - m, 2
  {
    VisitSpins(s, p, m);
  }

  lemma {:induction false} VisitSpins(s: Mixer, p: nat, m: nat)
    requires VolumeReady(s) && p < |s.players| && m < PartCount
    ensures VisitPart(s, p, m).Spins? ==> SpinsAt(VisitPart(s, p, m).state)
    decreases |s.players| - p, PartCount - m, 1
  {
    var o := HandleChannelVolumeChange(s, p, m);
    HandleSpins(s, p, m);
    if o.Settled? {
      AfterSpins(o.state, p, m);
    }
  }

  lemma {:induction false} AfterSpins(s: Mixer, p: nat, m: nat)
    requires VolumeReady(s) && p < |s.players| && m < PartCount
    ensures AfterPart(s, p, m).Spins? ==> SpinsAt(AfterPart(s, p, m).state)
    decreases |s.players| - p, PartCount - m, 0
  {
    if m + 1 == PartCount {
      PlayersSpins(s, p + 1);
    } else {
      PartsSpins(s, p, m + 1);
    }
  }

  /** A player already entered keeps its header, level included, for the rest of the propagation. */
  lemma {:induction false} PlayersHeader(s: Mixer, p: nat, p': nat)
    requires VolumeReady(s) && p <= |s.players| && p' < p
    ensures SameHeader(PropagatePlayers(s, p).state.players[p'], s.players[p'])
    decreases |s.players| - p, PartCount + 1, 1
  {
    if p < |s.players| {
      EnterHeader(s, p, p');
    }
  }

  lemma {:induction false} EnterHeader(s: Mixer, p: nat, p': nat)
    requires VolumeReady(s) && p < |s.players| && p' <= p
    ensures p' < p ==> SameHeader(EnterPlayer(s, p).state.players[p'], s.players[p'])
    ensures SameHeader(EnterPlayer(s, p).state.players[p'], SetPlayerLevel(s, p).players[p'])
    decreases |s.players| - p, PartCount + 1, 0
  {
    var t := SetPlayerLevel(s, p);
    PlayerLevelSet(s, p);
    PartsHeader(t, p, 0, p');
  }

  lemma {:induction false} PartsHeader(s: Mixer, p: nat, m: nat, p': nat)
    requires VolumeReady(s) && p < |s.players| && m < PartCount && p' <= p
    ensures SameHeader(PropagateParts(s, p, m).state.players[p'], s.players[p'])
    decreases |s.players| - p, PartCount - m, 2
  {
    VisitHeader(s, p, m, p');
  }

  lemma {:induction false} VisitHeader(s: Mixer, p: nat, m: nat, p': nat)
    requires VolumeReady(s) && p < |s.players| && m < PartCount && p' <= p
    ensures SameHeader(VisitPart(s, p, m).state.players[p'], s.players[p'])
    decreases |s.players| - p, PartCount - m, 1
  {
    var o := HandleChannelVolumeChange(s, p, m);
    HandleHeader(s, p, m, p');
    if o.Settled? {
      AfterHeader(o.state, p, m, p');
    }
  }

  lemma {:induction false} AfterHeader(s: Mixer, p: nat, m: nat, p': nat)
    requires VolumeReady(s) && p < |s.players| && m < PartCount && p' <= p
    ensures SameHeader(AfterPart(s, p, m).state.players[p'], s.players[p'])
    decreases |s.players| - p, PartCount - m, 0
  {
    if m + 1 == PartCount {
      PlayersHeader(s, p + 1, p');
    } else {
      PartsHeader(s, p, m + 1, p');
    }
  }

  /** A part already visited keeps its level for the rest of the propagation. */
  lemma {:induction false} PlayersKeepPart(s: Mixer, p: nat, q: PartRef)
    requires VolumeReady(s) && p <= |s.players| && ValidRef(s, q) && q.player < p && PartDone(s, q)
    ensures ValidRef(PropagatePlayers(s, p).state, q) && PartDone(PropagatePlayers(s, p).state, q)
    decreases |s.players| - p, PartCount + 1, 1
  {
    if p < |s.players| {
      EnterKeepPart(s, p, q);
    }
  }

  lemma {:induction false} EnterKeepPart(s: Mixer, p: nat, q: PartRef)
    requires VolumeReady(s) && p < |s.players| && ValidRef(s, q) && q.player < p && PartDone(s, q)
    ensures ValidRef(EnterPlayer(s, p).state, q) && PartDone(EnterPlayer(s, p).state, q)
    decreases |s.players| - p, PartCount + 1, 0
  {
    LevelKeepsPart(s, p, q);
    PartsKeepPart(SetPlayerLevel(s, p), p, 0, q);
  }

  lemma {:induction false} PartsKeepPart(s: Mixer, p: nat, m: nat, q: PartRef)
    requires VolumeReady(s) && p < |s.players| && m < PartCount && ValidRef(s, q) && Before(q, p, m) && PartDone(s, q)
    ensures ValidRef(PropagateParts(s, p, m).state, q) && PartDone(PropagateParts(s, p, m).state, q)
    decreases |s.players| - p, PartCount - m, 2
  {
    VisitKeepPart(s, p, m, q);
  }

  lemma {:induction false} VisitKeepPart(s: Mixer, p: nat, m: nat, q: PartRef)
    requires VolumeReady(s) && p < |s.players| && m < PartCount && ValidRef(s, q) && Before(q, p, m) && PartDone(s, q)
    ensures ValidRef(VisitPart(s, p, m).state, q) && PartDone(VisitPart(s, p, m).state, q)
    decreases |s.players| - p, PartCount - m, 1
  {
    var o := HandleChannelVolumeChange(s, p, m);
    HandlePart(s, p, m, q);
    if o.Settled? {
      AfterKeepPart(o.state, p, m, q);
    }
  }

  lemma {:induction false} AfterKeepPart(s: Mixer, p: nat, m: nat, q: PartRef)
    requires VolumeReady(s) && p < |s.players| && m < PartCount && ValidRef(s, q) && Before(q, p, m + 1) && PartDone(s, q)
    ensures ValidRef(AfterPart(s, p, m).state, q) && PartDone(AfterPart(s, p, m).state, q)
    decreases |s.players| - p, PartCount - m, 0
  {
    if m + 1 == PartCount {
      PlayersKeepPart(s, p + 1, q);
    } else {
      PartsKeepPart(s, p, m + 1, q);
    }
  }

  /** Every player not yet entered ends with its level set. */
  lemma {:induction false} PlayersLevel(s: Mixer, p: nat, p': nat)
    requires VolumeReady(s) && p <= |s.players| && p <= p' < |s.players|
    ensures PropagatePlayers(s, p).Settled? ==> PlayerDone(PropagatePlayers(s, p).state, p')
    decreases |s.players| - p, PartCount + 1, 1
  {
    EnterLevel(s, p, p');
  }

  lemma {:induction false} EnterLevel(s: Mixer, p: nat, p': nat)
    requires VolumeReady(s) && p < |s.players| && p <= p' < |s.players|
    ensures EnterPlayer(s, p).Settled? ==> PlayerDone(EnterPlayer(s, p).state, p')
    decreases |s.players| - p, PartCount + 1, 0
  {
    var t := SetPlayerLevel(s, p);
    if p' == p {
      PlayerLevelSet(s, p);
      PartsHeader(t, p, 0, p);
      PartsInputs(t, p, 0);
    } else {
      PartsLevel(t, p, 0, p');
    }
  }

  lemma {:induction false} PartsLevel(s: Mixer, p: nat, m: nat, p': nat)
    requires VolumeReady(s) && p < |s.players| && m < PartCount && p < p' < |s.players|
    ensures PropagateParts(s, p, m).Settled? ==> PlayerDone(PropagateParts(s, p, m).state, p')
    decreases |s.players| - p, PartCount - m, 2
  {
    VisitLevel(s, p, m, p');
  }

  lemma {:induction false} VisitLevel(s: Mixer, p: nat, m: nat, p': nat)
    requires VolumeReady(s) && p < |s.players| && m < PartCount && p < p' < |s.players|
    ensures VisitPart(s, p, m).Settled? ==> PlayerDone(VisitPart(s, p, m).state, p')
    decreases |s.players| - p, PartCount - m, 1
  {
    var o := HandleChannelVolumeChange(s, p, m);
    if o.Settled? {
      AfterLevel(o.state, p, m, p');
    }
  }

  lemma {:induction false} AfterLevel(s: Mixer, p: nat, m: nat, p': nat)
    requires VolumeReady(s) && p < |s.players| && m < PartCount && p < p' < |s.players|
    ensures AfterPart(s, p, m).Settled? ==> PlayerDone(AfterPart(s, p, m).state, p')
    decreases |s.players| - p, PartCount - m, 0
  {
    if m + 1 == PartCount {
      PlayersLevel(s, p + 1, p');
    } else {
      PartsLevel(s, p, m + 1, p');
    }
  }

  /** Every part not yet visited ends with its level set, and without a channel if it is silent. */
  lemma {:induction false} PlayersParts(s: Mixer, p: nat, q: PartRef)
    requires VolumeReady(s) && p <= |s.players| && ValidRef(s, q) && q.player >= p
    ensures PropagatePlayers(s, p).Settled? ==> ValidRef(PropagatePlayers(s, p).state, q) && PartDone(PropagatePlayers(s, p).state, q)
    decreases |s.players| - p, PartCount + 1, 1
  {
    EnterParts(s, p, q);
  }

  lemma {:induction false} EnterParts(s: Mixer, p: nat, q: PartRef)
    requires VolumeReady(s) && p < |s.players| && ValidRef(s, q) && q.player >= p
    ensures EnterPlayer(s, p).Settled? ==> ValidRef(EnterPlayer(s, p).state, q) && PartDone(EnterPlayer(s, p).state, q)
    decreases |s.players| - p, PartCount + 1, 0
  {
    PartsParts(SetPlayerLevel(s, p), p, 0, q);
  }

  lemma {:induction false} PartsParts(s: Mixer, p: nat, m: nat, q: PartRef)
    requires VolumeReady(s) && p < |s.players| && m < PartCount && ValidRef(s, q) && !Before(q, p, m)
    ensures PropagateParts(s, p, m).Settled? ==> ValidRef(PropagateParts(s, p, m).state, q) && PartDone(PropagateParts(s, p, m).state, q)
    decreases |s.players| - p, PartCount - m, 2
  {
    VisitParts(s, p, m, q);
  }

  lemma {:induction false} VisitParts(s: Mixer, p: nat, m: nat, q: PartRef)
    requires VolumeReady(s) && p < |s.players| && m < PartCount && ValidRef(s, q) && !Before(q, p, m)
    ensures VisitPart(s, p, m).Settled? ==> ValidRef(VisitPart(s, p, m).state, q) && PartDone(VisitPart(s, p, m).state, q)
    decreases |s.players| - p, PartCount - m, 1
  {
    var o := HandleChannelVolumeChange(s, p, m);
    if o.Settled? {
      if q == PartRef(p, m) {
        HandleHere(s, p, m);
        AfterKeepPart(o.state, p, m, q);
      } else {
        AfterParts(o.state, p, m, q);
      }
    }
  }

  lemma {:induction false} AfterParts(s: Mixer, p: nat, m: nat, q: PartRef)
    requires VolumeReady(s) && p < |s.players| && m < PartCount && ValidRef(s, q) && !Before(q, p, m + 1)
    ensures AfterPart(s, p, m).Settled? ==> ValidRef(AfterPart(s, p, m).state, q) && PartDone(AfterPart(s, p, m).state, q)
    decreases |s.players| - p, PartCount - m, 0
  {
    if m + 1 == PartCount {
      assert |s.players[q.player].parts| == PartCount;
      PlayersParts(s, p + 1, q);
    } else {
      PartsParts(s, p, m + 1, q);
    }
  }

  /** Given coverage so far, a propagation that returns leaves every eligible part served. */
  lemma {:induction false} PlayersCover(s: Mixer, p: nat)
    requires VolumeReady(s) && p <= |s.players| && Covered(s, p, 0)
    ensures PropagatePlayers(s, p).Settled? ==> AllServed(PropagatePlayers(s, p).state)
    decreases |s.players| - p, PartCount + 1, 1
  {
    if p == |s.players| {
      CoveredAtEnd(s, 0);
    } else {
      EnterCover(s, p);
    }
  }

  lemma {:induction false} EnterCover(s: Mixer, p: nat)
    requires VolumeReady(s) && p < |s.players| && Covered(s, p, 0)
    ensures EnterPlayer(s, p).Settled? ==> AllServed(EnterPlayer(s, p).state)
    decreases |s.players| - p, PartCount + 1, 0
  {
    LevelKeepsCover(s, p);
    PartsCover(SetPlayerLevel(s, p), p, 0);
  }

  lemma {:induction false} PartsCover(s: Mixer, p: nat, m: nat)
    requires VolumeReady(s) && p < |s.players| && m < PartCount && Covered(s, p, m)
    ensures PropagateParts(s, p, m).Settled? ==> AllServed(PropagateParts(s, p, m).state)
    decreases |s.players| - p, PartCount - m, 2
  {
    VisitCover(s, p, m);
  }

  lemma {:induction false} VisitCover(s: Mixer, p: nat, m: nat)
    requires VolumeReady(s) && p < |s.players| && m < PartCount && Covered(s, p, m)
    ensures VisitPart(s, p, m).Settled? ==> AllServed(VisitPart(s, p, m).state)
    decreases |s.players| - p, PartCount - m, 1
  {
    var o := HandleChannelVolumeChange(s, p, m);
    HandleCover(s, p, m);
    if o.Settled? {
      AfterCover(o.state, p, m);
    }
  }

  lemma {:induction false} AfterCover(s: Mixer, p: nat, m: nat)
    requires VolumeReady(s) && p < |s.players| && m < PartCount && Covered(s, p, m + 1)
    ensures AfterPart(s, p, m).Settled? ==> AllServed(AfterPart(s, p, m).state)
    decreases |s.players| - p, PartCount - m, 0
  {
    if m + 1 == PartCount {
      CoverNextPlayer(s, p);
      PlayersCover(s, p + 1);
    } else {
      PartsCover(s, p, m + 1);
    }
  }
  /** A propagation changes only levels and channel links: the tables and every setting stay. */
  lemma GroupVolumeKeepsInputs(s: Mixer)
    requires VolumeReady(s)
    ensures VolumeReady(HandleChannelGroupVolume(s).state)
    ensures SameInputs(s, HandleChannelGroupVolume(s).state)
  {
    PlayersInputs(s, 0);
  }

  /**
   * A propagation that returns leaves every player and part level
   * following its inputs, every silent part without a channel, and every
   * eligible part with one.
   */
  lemma GroupVolumeMixes(s: Mixer)
    requires VolumeReady(s)
    ensures var o := HandleChannelGroupVolume(s);
      o.Settled? ==> VolumeReady(o.state) && Mixed(o.state) && AllServed(o.state)
  {
    var o := HandleChannelGroupVolume(s);
    PlayersInputs(s, 0);
    PlayersCover(s, 0);
    if o.Settled? {
      forall p | 0 <= p < |o.state.players|
        ensures PlayerDone(o.state, p)
      {
        PlayersLevel(s, 0, p);
      }
      forall q | ValidRef(o.state, q)
        ensures PartDone(o.state, q)
      {
        assert ValidRef(s, q);
        PlayersParts(s, 0, q);
      }
    }
  }

  /** A propagation that does not return stops on a state the source's allocator loops on forever. */
  lemma GroupVolumeSpins(s: Mixer)
    requires VolumeReady(s)
    ensures var o := HandleChannelGroupVolume(s);
      o.Spins? ==> WellFormed(o.state) && Stuck(o.state)
  {
    PlayersSpins(s, 0);
    var o := HandleChannelGroupVolume(s);
    if o.Spins? {
      SpinsAtIsStuck(o.state);
    }
  }

  /** New group tables keep a state ready for propagation. */
  lemma TablesKeepReady(s: Mixer, g: GroupTables)
    requires VolumeReady(s) && TablesOk(g)
    ensures VolumeReady(s.(groups := g))
  {
    var t := s.(groups := g);
    assert t.players == s.players && t.midiChannels == s.midiChannels;
  }

  /**
   * `ImSetGroupVol`: an argument error for a group past the table or a
   * volume above 127; for volume -1, the group's configured volume and no
   * change; otherwise the previous configured volume, after the table
   * update and a propagation.
   */
  function SetGroupVol(s: Mixer, group: nat, volume: int): (r: (Reply, Outcome))
    requires TablesOk(s.groups)
    requires group < GroupMaxCount && volume <= MaxVolume && volume != -1 ==> VolumeReady(s)
    ensures r.0.ArgErr? <==> group >= GroupMaxCount || volume > MaxVolume
    ensures |r.1.state.players| == |s.players|
  {
    if group >= GroupMaxCount || volume > MaxVolume then
      (ArgErr, Settled(s))
    else if volume == -1 then
      (Ok(s.groups.configured[group]), Settled(s))
    else
      var g := SetGroupTables(s.groups, group, volume);
      TablesKeepReady(s, g);
      (Ok(s.groups.configured[group]), HandleChannelGroupVolume(s.(groups := g)))
  }

  /** A rejected call and a query change nothing; a query answers the configured volume. */
  lemma SetGroupVolQuery(s: Mixer, group: nat, volume: int)
    requires TablesOk(s.groups)
    requires group >= GroupMaxCount || volume > MaxVolume || volume == -1
    ensures SetGroupVol(s, group, volume).1 == Settled(s)
    ensures group < GroupMaxCount && volume == -1 ==> SetGroupVol(s, group, volume).0 == Ok(s.groups.configured[group])
  {
  }

  /**
   * A valid set answers the previous configured volume, installs the
   * updated tables, and, when the propagation returns, leaves the state
   * mixed against them with every eligible part served.
   */
  lemma SetGroupVolMixes(s: Mixer, group: nat, volume: int)
    requires VolumeReady(s) && group < GroupMaxCount && volume <= MaxVolume && volume != -1
    ensures var r := SetGroupVol(s, group, volume);
      && r.0 == Ok(s.groups.configured[group])
      && VolumeReady(r.1.state)
      && r.1.state.groups == SetGroupTables(s.groups, group, volume)
      && (r.1.Settled? ==> Mixed(r.1.state) && AllServed(r.1.state))
  {
    var g := SetGroupTables(s.groups, group, volume);
    TablesKeepReady(s, g);
    var t := s.(groups := g);
    GroupVolumeKeepsInputs(t);
    GroupVolumeMixes(t);
  }

  /** Querying a group right after setting it answers the volume just set. */
  lemma SetThenQuery(s: Mixer, group: nat, volume: int)
    requires VolumeReady(s) && group < GroupMaxCount && volume <= MaxVolume && volume != -1
    ensures var t := SetGroupVol(s, group, volume).1.state;
      VolumeReady(t) && SetGroupVol(t, group, -1).0 == Ok(volume)
  {
    SetGroupVolMixes(s, group, volume);
  }
}
