/**
 * `ImMidiSetupParts`: the allocator that hands physical MIDI channels to
 * waiting parts.
 *
 * One pass walks every part of every player in list order. For a player
 * with a shared part it first reconciles each part with part 0 of the
 * shared player, then classifies the part: one that holds a channel is
 * tracked as the lowest-priority holder seen so far, and one that is
 * eligible and idle is a candidate, the first of the highest priority
 * winning. After the whole list, the best candidate is bound to the lowest
 * free channel and the scan restarts from the head.
 *
 * The source loops until a pass finds no candidate. When a pass finds a
 * candidate but no free channel and changes nothing, the next pass repeats
 * it exactly and the source never returns; the model reports that state as
 * `Spins` instead of looping, and otherwise proves the loop ends.
 */
module Allocator {
  import opened ImuseState
  import opened ChannelPool

  /** A part seen during a pass, with the priority it had then. */
  datatype Pick = Pick(ref: PartRef, priority: int)

  /**
   * What a pass tracks: `best` and `lowest` are the source's candidate and
   * holder pointers; `cands` and `held` are every part that reached the
   * candidate and the holder comparison, in scan order.
   */
  datatype ScanAcc = ScanAcc(best: Option<Pick>, lowest: Option<Pick>, cands: seq<Pick>, held: seq<Pick>)

  const EmptyAcc: ScanAcc := ScanAcc(None, None, [], [])

  /** Result of running the allocator until it stops, or of finding that it never does. */
  datatype Outcome = Settled(state: Mixer) | Spins(state: Mixer)

  /** Everything a pass observes: the state after the scan, the scan's picks, the channel found, the state after binding. */
  datatype PassResult = PassResult(scanned: Mixer, acc: ScanAcc, free: Option<nat>, next: Mixer)

  /** A part that wants a channel: active, audible player, nonzero trim and volume. */
  predicate Eligible(s: Mixer, r: PartRef)
    requires ValidRef(s, r)
  {
    && PartAt(s, r).partStatus != 0
    && PlayerOf(s, r).groupVolume != 0
    && PartAt(s, r).partTrim != 0
    && PartAt(s, r).partVolume != 0
  }

  /** A part the volume code releases: its player, trim or volume is zero. */
  predicate Silent(s: Mixer, r: PartRef)
    requires ValidRef(s, r)
  {
    PlayerOf(s, r).groupVolume == 0 || PartAt(s, r).partTrim == 0 || PartAt(s, r).partVolume == 0
  }

  /** The allocator's test and the volume code's release test agree: an eligible part is an active one the volume code keeps. */
  lemma EligibleIsAudible(s: Mixer, r: PartRef)
    requires ValidRef(s, r)
    ensures Eligible(s, r) <==> PartAt(s, r).partStatus != 0 && !Silent(s, r)
  {
  }

  /** Every eligible part is driven by a channel. */
  ghost predicate AllServed(s: Mixer) {
    forall q :: ValidRef(s, q) && Eligible(s, q) ==> PartAt(s, q).data.Some?
  }

  /** A channel without the fields the allocator writes. */
  predicate SameStatic(a: MidiChannel, b: MidiChannel) {
    && a.sharedMidiChannel == b.sharedMidiChannel
    && a.channelId == b.channelId
    && a.sustain == b.sustain
    && a.instrumentMask == b.instrumentMask
    && a.instrumentMask2 == b.instrumentMask2
    && a.sharedPart == b.sharedPart
  }

  /**
   * How the allocator may change a state: only part-to-channel links,
   * channel back links and channel volumes move; no part loses its channel,
   * no channel returns to the pool, and a silent idle part stays idle.
   */
  ghost predicate Grows(s: Mixer, t: Mixer) {
    && WellFormed(t)
    && SamePlayers(s, t)
    && t.groups == s.groups
    && (forall q :: ValidRef(s, q) ==> ValidRef(t, q) && SameButChannel(PartAt(t, q), PartAt(s, q)))
    && |t.midiChannels| == |s.midiChannels| == MidiChannelCount
    && (forall j :: 0 <= j < MidiChannelCount ==> SameStatic(t.midiChannels[j], s.midiChannels[j]))
    && Unassigned(t) <= Unassigned(s)
    && FreeSet(t) <= FreeSet(s)
    && (forall q :: ValidRef(s, q) && Silent(s, q) && PartAt(s, q).data.None? ==> PartAt(t, q).data.None?)
  }

  /** Two steps that each leave the state alone or link an idle part compose to one. */
  lemma ShrinkTrans(s: Mixer, t: Mixer, u: Mixer)
    requires t == s || Unassigned(t) < Unassigned(s)
    requires u == t || Unassigned(u) < Unassigned(t)
    ensures u == s || Unassigned(u) < Unassigned(s)
  {
  }

  /** Growth only shrinks the idle parts and the pool. */
  lemma GrowsShrinks(s: Mixer, t: Mixer)
    requires WellFormed(s) && Grows(s, t)
    ensures Unassigned(t) <= Unassigned(s) && FreeSet(t) <= FreeSet(s)
  {
  }

  lemma GrowsRefl(s: Mixer)
    requires WellFormed(s)
    ensures Grows(s, s)
  {
  }

  lemma GrowsTrans(s: Mixer, t: Mixer, u: Mixer)
    requires WellFormed(s) && Grows(s, t) && Grows(t, u)
    ensures Grows(s, u)
  {
    forall q | ValidRef(s, q) && Silent(s, q) && PartAt(s, q).data.None?
      ensures PartAt(u, q).data.None?
    {
      assert Silent(t, q);
    }
  }

  /** Linking a part that is not silent, on behalf of some player, is a growth step. */
  lemma AssignGrows(s: Mixer, player: nat, r: PartRef, c: nat)
    requires WellFormed(s) && ValidRef(s, r) && c < MidiChannelCount && !Silent(s, r)
    ensures Grows(s, AssignMidiChannel(s, Some(player), Some(r), Some(c)))
  {
    var t := AssignMidiChannel(s, Some(player), Some(r), Some(c));
    forall j | 0 <= j < MidiChannelCount
      ensures SameStatic(t.midiChannels[j], s.midiChannels[j])
    {
      if j != c {
        assert SameButVolume(t.midiChannels[j], s.midiChannels[j]);
      }
    }
  }

  /** The candidate comparison: a later part wins only on strictly greater priority. */
  function Better(best: Option<Pick>, c: Pick): Option<Pick> {
    if best.None? || c.priority > best.value.priority then Some(c) else best
  }

  /** The holder comparison: a later part wins unless its priority is strictly greater. */
  function Lower(lowest: Option<Pick>, c: Pick): Option<Pick> {
    if lowest.Some? && c.priority > lowest.value.priority then lowest else Some(c)
  }

  function SelectBest(cs: seq<Pick>): Option<Pick>
    decreases |cs|
  {
    if |cs| == 0 then None else Better(SelectBest(cs[..|cs| - 1]), cs[|cs| - 1])
  }

  function SelectLowest(cs: seq<Pick>): Option<Pick>
    decreases |cs|
  {
    if |cs| == 0 then None else Lower(SelectLowest(cs[..|cs| - 1]), cs[|cs| - 1])
  }

  predicate AccOk(acc: ScanAcc) {
    acc.best == SelectBest(acc.cands) && acc.lowest == SelectLowest(acc.held)
  }

  /** Strictly earlier in list order than slot `m` of player `p`. */
  predicate Before(r: PartRef, p: nat, m: nat) {
    r.player < p || (r.player == p && r.slot < m)
  }

  predicate InScanOrder(cs: seq<Pick>) {
    forall i, j :: 0 <= i < j < |cs| ==> Before(cs[i].ref, cs[j].ref.player, cs[j].ref.slot)
  }

  /** The parts a sequence of picks names. */
  function Refs(cs: seq<Pick>): set<PartRef> {
    set k | 0 <= k < |cs| :: cs[k].ref
  }

  /** `cs[i]` has the highest priority in `cs`, and every earlier entry a strictly lower one. */
  predicate IsFirstMax(cs: seq<Pick>, i: int) {
    && 0 <= i < |cs|
    && (forall j :: 0 <= j < i ==> cs[j].priority < cs[i].priority)
    && (forall j :: i < j < |cs| ==> cs[j].priority <= cs[i].priority)
  }

  /** `cs[i]` has the lowest priority in `cs`, and every later entry a strictly higher one. */
  predicate IsLastMin(cs: seq<Pick>, i: int) {
    && 0 <= i < |cs|
    && (forall j :: 0 <= j < i ==> cs[j].priority >= cs[i].priority)
    && (forall j :: i < j < |cs| ==> cs[j].priority > cs[i].priority)
  }

  /** The best candidate is the first one of maximal priority. */
  lemma {:induction false} SelectBestIsFirstMax(cs: seq<Pick>)
    ensures SelectBest(cs).None? <==> |cs| == 0
    ensures SelectBest(cs).Some? ==> exists i :: IsFirstMax(cs, i) && cs[i] == SelectBest(cs).value
    decreases |cs|
  {
    if |cs| > 0 {
      var n := |cs| - 1;
      var init := cs[..n];
      assert forall j :: 0 <= j < n ==> init[j] == cs[j];
      SelectBestIsFirstMax(init);
      var last := cs[n];
      assert SelectBest(cs) == Better(SelectBest(init), last);
      if SelectBest(init).None? {
        assert IsFirstMax(cs, n);
      } else {
        var i :| IsFirstMax(init, i) && init[i] == SelectBest(init).value;
        if last.priority > init[i].priority {
          assert IsFirstMax(cs, n);
        } else {
          assert IsFirstMax(cs, i);
        }
      }
    }
  }

  /** The tracked holder is the last one of minimal priority. */
  lemma {:induction false} SelectLowestIsLastMin(cs: seq<Pick>)
    ensures SelectLowest(cs).None? <==> |cs| == 0
    ensures SelectLowest(cs).Some? ==> exists i :: IsLastMin(cs, i) && cs[i] == SelectLowest(cs).value
    decreases |cs|
  {
    if |cs| > 0 {
      var n := |cs| - 1;
      var init := cs[..n];
      assert forall j :: 0 <= j < n ==> init[j] == cs[j];
      SelectLowestIsLastMin(init);
      var last := cs[n];
      assert SelectLowest(cs) == Lower(SelectLowest(init), last);
      if SelectLowest(init).None? {
        assert IsLastMin(cs, n);
      } else {
        var i :| IsLastMin(init, i) && init[i] == SelectLowest(init).value;
        if last.priority > init[i].priority {
          assert IsLastMin(cs, i);
        } else {
          assert IsLastMin(cs, n);
        }
      }
    }
  }

  /** Slot `m` of player `p` holds a channel and its counterpart is idle and eligible. */
  predicate HandsOver(s: Mixer, p: nat, m: nat)
    requires WellFormed(s) && p < |s.players| && m < PartCount
  {
    && s.players[p].sharedPart.Some?
    && PartAt(s, PartRef(p, m)).data.Some?
    && PartAt(s, PartRef(s.players[p].sharedPart.value, 0)).data.None?
    && Eligible(s, PartRef(s.players[p].sharedPart.value, 0))
  }

  /** Slot `m` of player `p` is idle and eligible and its counterpart holds a channel. */
  predicate TakesShared(s: Mixer, p: nat, m: nat)
    requires WellFormed(s) && p < |s.players| && m < PartCount
  {
    && s.players[p].sharedPart.Some?
    && PartAt(s, PartRef(p, m)).data.None?
    && Eligible(s, PartRef(p, m))
    && PartAt(s, PartRef(s.players[p].sharedPart.value, 0)).data.Some?
  }

  /**
   * The shared-part reconciliation for slot `m` of player `p`. The
   * counterpart is always part 0 of the shared player, whatever `m` is. A
   * part holding a channel hands it to an idle, eligible counterpart; an
   * idle, eligible part takes the shared channel of the counterpart's
   * channel.
   */
  function ShareStep(s: Mixer, p: nat, m: nat): (t: Mixer)
    requires WellFormed(s) && p < |s.players| && m < PartCount
    ensures Grows(s, t)
    ensures t == s || Unassigned(t) < Unassigned(s)
    ensures HandsOver(s, p, m) ==>
      var c := PartAt(s, PartRef(p, m)).data.value;
      var sr := PartRef(s.players[p].sharedPart.value, 0);
      && PartAt(t, sr).data == Some(c)
      && t.midiChannels[c].player == s.players[p].sharedPart
      && t.midiChannels[c].channel == Some(sr)
    ensures TakesShared(s, p, m) ==>
      var sr := PartRef(s.players[p].sharedPart.value, 0);
      var c := s.midiChannels[PartAt(s, sr).data.value].sharedMidiChannel;
      && PartAt(t, PartRef(p, m)).data == Some(c)
      && t.midiChannels[c].player == Some(p)
      && t.midiChannels[c].channel == Some(PartRef(p, m))
    ensures !HandsOver(s, p, m) && !TakesShared(s, p, m) ==> t == s
  {
    var player := s.players[p];
    var r := PartRef(p, m);
    var ch := PartAt(s, r);
    if player.sharedPart.None? then
      s
    else
      var q := player.sharedPart.value;
      var sr := PartRef(q, 0);
      var sc := PartAt(s, sr);
      if ch.data.Some? && sc.data.None? && sc.partStatus != 0 then
        if s.players[q].groupVolume != 0 && sc.partTrim != 0 && sc.partVolume != 0 then
          AssignGrows(s, q, sr, ch.data.value);
          AssignMidiChannel(s, Some(q), Some(sr), ch.data)
        else
          s
      else if ch.data.None? && sc.data.Some? && ch.partStatus != 0 && player.groupVolume != 0
              && ch.partTrim != 0 && ch.partVolume != 0 then
        var shared := s.midiChannels[sc.data.value].sharedMidiChannel;
        AssignGrows(s, p, r, shared);
        AssignMidiChannel(s, Some(p), Some(r), Some(shared))
      else
        s
  }

  /** One iteration of the scan body: reconcile, then classify the part. */
  function Step(s: Mixer, p: nat, m: nat, acc: ScanAcc): (r: (Mixer, ScanAcc))
    requires WellFormed(s) && p < |s.players| && m < PartCount && AccOk(acc)
    ensures Grows(s, r.0)
    ensures r.0 == s || Unassigned(r.0) < Unassigned(s)
    ensures AccOk(r.1)
    ensures r.1.cands == acc.cands || r.1.cands == acc.cands + [Pick(PartRef(p, m), PartAt(s, PartRef(p, m)).priority)]
    ensures r.1.cands != acc.cands ==> PartRef(p, m) in Unassigned(s) && Eligible(s, PartRef(p, m))
    ensures r.1.cands == acc.cands && Eligible(r.0, PartRef(p, m)) ==> PartAt(r.0, PartRef(p, m)).data.Some?
  {
    var t := ShareStep(s, p, m);
    var here := PartRef(p, m);
    var ch := PartAt(t, here);
    var pick := Pick(here, ch.priority);
    var sharedOutranks :=
      && t.players[p].sharedPart.Some?
      && PartAt(t, PartRef(t.players[p].sharedPart.value, 0)).data.Some?
      && PartAt(t, PartRef(t.players[p].sharedPart.value, 0)).priority > ch.priority;
    if ch.data.Some? then
      if sharedOutranks then (t, acc)
      else (t, acc.(lowest := Lower(acc.lowest, pick), held := acc.held + [pick]))
    else if Eligible(t, here) then
      (t, acc.(best := Better(acc.best, pick), cands := acc.cands + [pick]))
    else
      (t, acc)
  }

  /**
   * The scan of one pass from slot `m` of player `p` to the end of the
   * list. Returns the state and the picks.
   */
  function Scan(s: Mixer, p: nat, m: nat, acc: ScanAcc): (r: (Mixer, ScanAcc))
    requires WellFormed(s) && p <= |s.players| && m < PartCount && (p == |s.players| ==> m == 0)
    requires AccOk(acc)
    ensures Grows(s, r.0)
    ensures r.0 == s || Unassigned(r.0) < Unassigned(s)
    ensures AccOk(r.1)
    decreases |s.players| - p, PartCount - m, 1
  {
    if p == |s.players| then
      GrowsRefl(s);
      (s, acc)
    else
      ScanSlot(s, p, m, acc)
  }

  /**
   * The scan from a slot that exists: the step at that slot, then the rest
   * of the scan. Kept apart from `Scan` so that unfolding a scan once does
   * not unfold a step.
   */
  function ScanSlot(s: Mixer, p: nat, m: nat, acc: ScanAcc): (r: (Mixer, ScanAcc))
    requires WellFormed(s) && p < |s.players| && m < PartCount
    requires AccOk(acc)
    ensures Grows(s, r.0)
    ensures r.0 == s || Unassigned(r.0) < Unassigned(s)
    ensures AccOk(r.1)
    decreases |s.players| - p, PartCount - m, 0
  {
    var step := Step(s, p, m, acc);
    var next := NextSlot(p, m);
    var rest := Scan(step.0, next.0, next.1, step.1);
    GrowsTrans(s, step.0, rest.0);
    ShrinkTrans(s, step.0, rest.0);
    rest
  }

  /** The slot after slot `m` of player `p` in list order. */
  function NextSlot(p: nat, m: nat): (n: (nat, nat))
    requires m < PartCount
    ensures n.1 < PartCount && Before(PartRef(p, m), n.0, n.1)
    ensures forall q: PartRef :: q.slot < PartCount && !Before(q, p, m) && q != PartRef(p, m) ==> !Before(q, n.0, n.1)
  {
    if m + 1 < PartCount then (p, m + 1) else (p + 1, 0)
  }

  /** A scan only appends candidates to the ones it started with. */
  lemma {:induction false} ScanExtends(s: Mixer, p: nat, m: nat, acc: ScanAcc)
    requires WellFormed(s) && p <= |s.players| && m < PartCount && (p == |s.players| ==> m == 0)
    requires AccOk(acc)
    ensures var r := Scan(s, p, m, acc);
      && |r.1.cands| >= |acc.cands|
      && forall k :: 0 <= k < |acc.cands| ==> r.1.cands[k] == acc.cands[k]
    decreases |s.players| - p, PartCount - m
  {
    if p < |s.players| {
      var step := Step(s, p, m, acc);
      var next := NextSlot(p, m);
      ScanExtends(step.0, next.0, next.1, step.1);
      assert Scan(step.0, next.0, next.1, step.1) == ScanSlot(s, p, m, acc);
    }
  }

  /** A scan collects its candidates in list order, all at or after its starting slot. */
  lemma {:induction false} ScanOrder(s: Mixer, p: nat, m: nat, acc: ScanAcc)
    requires WellFormed(s) && p <= |s.players| && m < PartCount && (p == |s.players| ==> m == 0)
    requires AccOk(acc) && InScanOrder(acc.cands)
    requires forall k :: 0 <= k < |acc.cands| ==> Before(acc.cands[k].ref, p, m)
    ensures InScanOrder(Scan(s, p, m, acc).1.cands)
    decreases |s.players| - p, PartCount - m
  {
    if p < |s.players| {
      var step := Step(s, p, m, acc);
      var next := NextSlot(p, m);
      OrderStep(acc.cands, step.1.cands, p, m, next.0, next.1, PartAt(s, PartRef(p, m)).priority);
      ScanOrder(step.0, next.0, next.1, step.1);
      assert Scan(step.0, next.0, next.1, step.1) == ScanSlot(s, p, m, acc);
    }
  }

  /**
   * Each candidate a scan adds was idle and eligible when the scan began,
   * at or after its starting slot, with the priority it had then.
   */
  lemma {:induction false} ScanNew(s: Mixer, p: nat, m: nat, acc: ScanAcc)
    requires WellFormed(s) && p <= |s.players| && m < PartCount && (p == |s.players| ==> m == 0)
    requires AccOk(acc)
    ensures var r := Scan(s, p, m, acc);
      forall k :: |acc.cands| <= k < |r.1.cands| ==>
        var c := r.1.cands[k].ref;
        && ValidRef(s, c) && !Before(c, p, m) && c in Unassigned(s) && Eligible(s, c)
        && r.1.cands[k].priority == PartAt(s, c).priority
    decreases |s.players| - p, PartCount - m
  {
    if p < |s.players| {
      var step := Step(s, p, m, acc);
      var next := NextSlot(p, m);
      ScanExtends(step.0, next.0, next.1, step.1);
      ScanNew(step.0, next.0, next.1, step.1);
      var rest := Scan(step.0, next.0, next.1, step.1);
      assert rest == ScanSlot(s, p, m, acc);
      ScanNewCands(s, p, m, acc, step.0, step.1, next.0, next.1, rest.1);
    }
  }

  /** A scan that adds no candidate leaves every eligible part it walked over served. */
  lemma {:induction false} ScanNoneServed(s: Mixer, p: nat, m: nat, acc: ScanAcc)
    requires WellFormed(s) && p <= |s.players| && m < PartCount && (p == |s.players| ==> m == 0)
    requires AccOk(acc)
    ensures var r := Scan(s, p, m, acc);
      |r.1.cands| == |acc.cands| ==>
        forall q :: ValidRef(s, q) && !Before(q, p, m) && Eligible(r.0, q) ==> PartAt(r.0, q).data.Some?
    decreases |s.players| - p, PartCount - m
  {
    if p < |s.players| {
      var step := Step(s, p, m, acc);
      var next := NextSlot(p, m);
      var rest := Scan(step.0, next.0, next.1, step.1);
      assert rest == ScanSlot(s, p, m, acc);
      if |rest.1.cands| == |acc.cands| {
        ScanExtends(step.0, next.0, next.1, step.1);
        assert step.1.cands == acc.cands;
        ScanNoneServed(step.0, next.0, next.1, step.1);
        ScanServed(s, p, m, step.0, next.0, next.1, rest.0);
      }
    }
  }

  /**
   * Every part a scan walks over that is eligible and idle at its end was
   * collected as a candidate.
   */
  lemma {:induction false} ScanCollects(s: Mixer, p: nat, m: nat, acc: ScanAcc)
    requires WellFormed(s) && p <= |s.players| && m < PartCount && (p == |s.players| ==> m == 0)
    requires AccOk(acc)
    ensures var r := Scan(s, p, m, acc);
      forall q :: ValidRef(s, q) && !Before(q, p, m) && Eligible(r.0, q) && PartAt(r.0, q).data.None? ==> q in Refs(r.1.cands)
    decreases |s.players| - p, PartCount - m
  {
    if p < |s.players| {
      var step := Step(s, p, m, acc);
      var next := NextSlot(p, m);
      var rest := Scan(step.0, next.0, next.1, step.1);
      assert rest == ScanSlot(s, p, m, acc);
      ScanExtends(step.0, next.0, next.1, step.1);
      ScanCollects(step.0, next.0, next.1, step.1);
      CollectStep(s, p, m, acc, step.0, step.1, next.0, next.1, rest.0, rest.1);
    }
  }

  /** Appending the slot just scanned keeps the candidates in scan order and before the next slot. */
  lemma OrderStep(cs: seq<Pick>, cs': seq<Pick>, p: nat, m: nat, p': nat, m': nat, prio: int)
    requires InScanOrder(cs) && forall k :: 0 <= k < |cs| ==> Before(cs[k].ref, p, m)
    requires m < PartCount && (p', m') == NextSlot(p, m)
    requires cs' == cs || cs' == cs + [Pick(PartRef(p, m), prio)]
    ensures InScanOrder(cs') && forall k :: 0 <= k < |cs'| ==> Before(cs'[k].ref, p', m')
  {
  }

  /** The candidates found after a step are candidates of the whole scan from before it. */
  lemma ScanNewCands(s: Mixer, p: nat, m: nat, acc: ScanAcc, t: Mixer, acc1: ScanAcc, p': nat, m': nat, acc2: ScanAcc)
    requires WellFormed(s) && p < |s.players| && m < PartCount && Grows(s, t)
    requires m < PartCount && (p', m') == NextSlot(p, m)
    requires acc1.cands == acc.cands || acc1.cands == acc.cands + [Pick(PartRef(p, m), PartAt(s, PartRef(p, m)).priority)]
    requires acc1.cands != acc.cands ==> PartRef(p, m) in Unassigned(s) && Eligible(s, PartRef(p, m))
    requires |acc2.cands| >= |acc1.cands| && forall k :: 0 <= k < |acc1.cands| ==> acc2.cands[k] == acc1.cands[k]
    requires forall k :: |acc1.cands| <= k < |acc2.cands| ==>
      var c := acc2.cands[k].ref;
      && ValidRef(t, c) && !Before(c, p', m') && c in Unassigned(t) && Eligible(t, c)
      && acc2.cands[k].priority == PartAt(t, c).priority
    ensures forall k :: |acc.cands| <= k < |acc2.cands| ==>
      var c := acc2.cands[k].ref;
      && ValidRef(s, c) && !Before(c, p, m) && c in Unassigned(s) && Eligible(s, c)
      && acc2.cands[k].priority == PartAt(s, c).priority
  {
    forall k | |acc.cands| <= k < |acc2.cands|
      ensures ValidRef(s, acc2.cands[k].ref) && !Before(acc2.cands[k].ref, p, m)
      ensures acc2.cands[k].ref in Unassigned(s) && Eligible(s, acc2.cands[k].ref)
      ensures acc2.cands[k].priority == PartAt(s, acc2.cands[k].ref).priority
    {
      if k < |acc1.cands| {
        assert acc2.cands[k] == acc1.cands[k];
      } else {
        assert ValidRef(t, acc2.cands[k].ref);
      }
    }
  }

  /** With no candidate from a step onwards, the slot of that step is served at the end as well. */
  lemma ScanServed(s: Mixer, p: nat, m: nat, t: Mixer, p': nat, m': nat, u: Mixer)
    requires WellFormed(s) && p < |s.players| && m < PartCount && Grows(s, t) && Grows(t, u)
    requires m < PartCount && (p', m') == NextSlot(p, m)
    requires Eligible(t, PartRef(p, m)) ==> PartAt(t, PartRef(p, m)).data.Some?
    requires forall q :: ValidRef(t, q) && !Before(q, p', m') && Eligible(u, q) ==> PartAt(u, q).data.Some?
    ensures forall q :: ValidRef(s, q) && !Before(q, p, m) && Eligible(u, q) ==> PartAt(u, q).data.Some?
  {
    forall q | ValidRef(s, q) && !Before(q, p, m) && Eligible(u, q)
      ensures PartAt(u, q).data.Some?
    {
      if q == PartRef(p, m) {
        assert Eligible(t, q);
        assert q !in Unassigned(t);
      }
    }
  }

  /** A part collected by the rest of a scan, or left idle by the step at its own slot, is collected by the whole scan. */
  lemma CollectStep(s: Mixer, p: nat, m: nat, acc: ScanAcc, t: Mixer, acc1: ScanAcc, p': nat, m': nat, u: Mixer, acc2: ScanAcc)
    requires WellFormed(s) && p < |s.players| && m < PartCount && Grows(s, t) && Grows(t, u)
    requires (p', m') == NextSlot(p, m)
    requires acc1.cands == acc.cands || acc1.cands == acc.cands + [Pick(PartRef(p, m), PartAt(s, PartRef(p, m)).priority)]
    requires acc1.cands == acc.cands && Eligible(t, PartRef(p, m)) ==> PartAt(t, PartRef(p, m)).data.Some?
    requires |acc2.cands| >= |acc1.cands| && forall k :: 0 <= k < |acc1.cands| ==> acc2.cands[k] == acc1.cands[k]
    requires forall q :: ValidRef(t, q) && !Before(q, p', m') && Eligible(u, q) && PartAt(u, q).data.None? ==> q in Refs(acc2.cands)
    ensures forall q :: ValidRef(s, q) && !Before(q, p, m) && Eligible(u, q) && PartAt(u, q).data.None? ==> q in Refs(acc2.cands)
  {
    forall q | ValidRef(s, q) && !Before(q, p, m) && Eligible(u, q) && PartAt(u, q).data.None?
      ensures q in Refs(acc2.cands)
    {
      if q == PartRef(p, m) {
        if acc1.cands == acc.cands {
          // the step would have served it, and nothing after it unlinks a part
          assert false;
        } else {
          var k := |acc.cands|;
          assert acc2.cands[k] == acc1.cands[k];
          assert acc2.cands[k].ref == q;
        }
      }
    }
  }

  /** The scan of a whole pass, from the head of the list. */
  function ScanAll(s: Mixer): (r: (Mixer, ScanAcc))
    requires WellFormed(s)
    ensures Grows(s, r.0)
    ensures r.0 == s || Unassigned(r.0) < Unassigned(s)
    ensures AccOk(r.1)
  {
    Scan(s, 0, 0, EmptyAcc)
  }

  /**
   * A whole-list scan collects, in list order, only parts idle and
   * eligible at its start, each with its priority then; when it collects
   * none, every eligible part is served at its end.
   */
  lemma ScanAllCandidates(s: Mixer)
    requires WellFormed(s)
    ensures var r := ScanAll(s);
      && InScanOrder(r.1.cands)
      && (forall k :: 0 <= k < |r.1.cands| ==>
           && ValidRef(s, r.1.cands[k].ref) && r.1.cands[k].ref in Unassigned(s) && Eligible(s, r.1.cands[k].ref)
           && r.1.cands[k].priority == PartAt(s, r.1.cands[k].ref).priority)
      && (|r.1.cands| == 0 ==> AllServed(r.0))
  {
    ScanOrder(s, 0, 0, EmptyAcc);
    ScanNew(s, 0, 0, EmptyAcc);
    ScanNoneServed(s, 0, 0, EmptyAcc);
    var (t, acc) := Scan(s, 0, 0, EmptyAcc);
    if |acc.cands| == 0 {
      NoCandidateMeansServed(s, t, acc.cands);
    }
  }

  /** One pass of the allocator loop: scan the whole list, then bind the best candidate if a channel is free. */
  function RunPass(s: Mixer): (r: PassResult)
    requires WellFormed(s)
    ensures Grows(s, r.scanned) && Grows(s, r.next)
    ensures r.scanned == s || Unassigned(r.scanned) < Unassigned(s)
    ensures AccOk(r.acc)
  {
    var (t, acc) := ScanAll(s);
    ScanAllCandidates(s);
    SelectBestIsFirstMax(acc.cands);
    if acc.best.None? then
      PassResult(t, acc, None, t)
    else
      var free := GetFreeMidiChannel(t);
      BestIsEligible(s, t, acc.cands);
      PassResult(t, acc, free, Bind(s, t, acc.best.value, free))
  }

  /**
   * The candidates of a pass are the parts that were idle and eligible at
   * the start, in list order, each with its priority; the one chosen is the
   * first of the highest priority; with none, every eligible part is served.
   */
  lemma PassCandidates(s: Mixer)
    requires WellFormed(s)
    ensures var r := RunPass(s);
      && InScanOrder(r.acc.cands)
      && (forall k :: 0 <= k < |r.acc.cands| ==>
           && ValidRef(s, r.acc.cands[k].ref) && r.acc.cands[k].ref in Unassigned(s) && Eligible(s, r.acc.cands[k].ref)
           && r.acc.cands[k].priority == PartAt(s, r.acc.cands[k].ref).priority)
      && (r.acc.best.Some? ==> exists i :: IsFirstMax(r.acc.cands, i) && r.acc.cands[i] == r.acc.best.value)
      && (r.acc.best.None? ==> |r.acc.cands| == 0 && r.next == r.scanned && r.free.None? && AllServed(r.next))
  {
    var (t, acc) := ScanAll(s);
    ScanAllCandidates(s);
    SelectBestIsFirstMax(acc.cands);
  }

  /**
   * Every part still idle and eligible when a whole-list scan ends was
   * collected, so the best candidate has a priority at least as high as any
   * of them.
   */
  lemma ScanAllOutranks(s: Mixer)
    requires WellFormed(s)
    ensures var r := ScanAll(s);
      forall q :: ValidRef(r.0, q) && Eligible(r.0, q) && PartAt(r.0, q).data.None? ==>
        && q in Refs(r.1.cands)
        && r.1.best.Some?
        && PartAt(r.0, q).priority <= r.1.best.value.priority
  {
    var (t, acc) := ScanAll(s);
    ScanCollects(s, 0, 0, EmptyAcc);
    ScanNew(s, 0, 0, EmptyAcc);
    forall q | ValidRef(t, q) && Eligible(t, q) && PartAt(t, q).data.None?
      ensures q in Refs(acc.cands) && acc.best.Some?
      ensures PartAt(t, q).priority <= acc.best.value.priority
    {
      assert ValidRef(s, q) && !Before(q, 0, 0);
      assert SameButChannel(PartAt(t, q), PartAt(s, q));
      BestOutranks(acc.cands, q, PartAt(s, q).priority);
    }
  }

  /** A part collected with priority `prio` is outranked by, or ties with, the best pick. */
  lemma BestOutranks(cs: seq<Pick>, q: PartRef, prio: int)
    requires q in Refs(cs)
    requires forall k :: 0 <= k < |cs| && cs[k].ref == q ==> cs[k].priority == prio
    ensures SelectBest(cs).Some? && prio <= SelectBest(cs).value.priority
  {
    SelectBestIsFirstMax(cs);
    var k :| 0 <= k < |cs| && cs[k].ref == q;
    var i :| IsFirstMax(cs, i) && cs[i] == SelectBest(cs).value;
    assert k < i ==> cs[k].priority < cs[i].priority;
  }

  /**
   * The part a pass chooses outranks, or ties with, every part still
   * waiting when the scan ends; each of those was collected as a candidate.
   */
  lemma PassOutranksWaiting(s: Mixer)
    requires WellFormed(s)
    ensures var r := RunPass(s);
      forall q :: ValidRef(r.scanned, q) && Eligible(r.scanned, q) && PartAt(r.scanned, q).data.None? ==>
        && q in Refs(r.acc.cands)
        && r.acc.best.Some?
        && PartAt(r.scanned, q).priority <= r.acc.best.value.priority
  {
    ScanAllOutranks(s);
    assert RunPass(s).scanned == ScanAll(s).0 && RunPass(s).acc == ScanAll(s).1;
  }

  /**
   * The binding of a pass: with a candidate, the pool is asked for the
   * lowest free channel; when it has one, the chosen part takes it and it
   * leaves the pool, and when it has none nothing is bound.
   */
  lemma PassBinding(s: Mixer)
    requires WellFormed(s)
    ensures var r := RunPass(s);
      && (r.acc.best.Some? ==> r.free == GetFreeMidiChannel(r.scanned))
      && (r.acc.best.Some? && r.free.None? ==> r.next == r.scanned)
      && (r.acc.best.Some? && r.free.Some? ==>
           && ValidRef(r.next, r.acc.best.value.ref)
           && PartAt(r.next, r.acc.best.value.ref).data == r.free
           && r.next.midiChannels[r.free.value].channel == Some(r.acc.best.value.ref)
           && FreeSet(r.next) == FreeSet(r.scanned) - {r.free.value})
  {
  }

  /** A whole-list scan that collects no candidate leaves every eligible part served. */
  lemma NoCandidateMeansServed(s: Mixer, t: Mixer, cs: seq<Pick>)
    requires WellFormed(s) && Grows(s, t) && |cs| == 0
    requires |cs| == 0 ==> forall q :: ValidRef(s, q) && !Before(q, 0, 0) && Eligible(t, q) ==> PartAt(t, q).data.Some?
    ensures AllServed(t)
  {
  }

  /**
   * The binding at the end of a pass: the chosen part takes `free`, when
   * there is one, on behalf of its own player.
   */
  function Bind(s: Mixer, t: Mixer, pick: Pick, free: Option<nat>): (next: Mixer)
    requires WellFormed(s) && Grows(s, t) && ValidRef(t, pick.ref) && !Silent(t, pick.ref)
    requires free.Some? ==> free.value < MidiChannelCount && free.value in FreeSet(t)
    ensures Grows(s, next)
    ensures free.None? ==> next == t
    ensures free.Some? ==>
      && ValidRef(next, pick.ref)
      && PartAt(next, pick.ref).data == free
      && next.midiChannels[free.value].player == Some(pick.ref.player)
      && next.midiChannels[free.value].channel == Some(pick.ref)
      && FreeSet(next) == FreeSet(t) - {free.value}
  {
    if free.Some? then
      var next := AssignMidiChannel(t, Some(pick.ref.player), Some(pick.ref), free);
      AssignGrows(t, pick.ref.player, pick.ref, free.value);
      GrowsTrans(s, t, next);
      next
    else
      AssignMidiChannel(t, None, None, free)
  }

  /** The best candidate of a scan from `s` is a valid part that is still eligible in the scanned state `t`. */
  lemma BestIsEligible(s: Mixer, t: Mixer, cs: seq<Pick>)
    requires WellFormed(s) && Grows(s, t) && SelectBest(cs).Some?
    requires forall k :: 0 <= k < |cs| ==> ValidRef(s, cs[k].ref) && Eligible(s, cs[k].ref)
    ensures ValidRef(t, SelectBest(cs).value.ref) && !Silent(t, SelectBest(cs).value.ref)
  {
    SelectBestIsFirstMax(cs);
    var i :| IsFirstMax(cs, i) && cs[i] == SelectBest(cs).value;
    assert ValidRef(s, cs[i].ref) && Eligible(s, cs[i].ref);
  }

  /**
   * `ImMidiSetupParts`: runs passes until one finds no candidate. Each pass
   * that binds a channel takes one from the pool, and each other pass that
   * changes the state links an idle part, so the loop ends unless a pass
   * finds a candidate, no channel, and changes nothing; that state is
   * returned as `Spins`.
   */
  function SetupParts(s: Mixer): (o: Outcome)
    requires WellFormed(s)
    ensures WellFormed(o.state)
    decreases |Unassigned(s)| + |FreeSet(s)|, 1
  {
    SetupLoop(s)
  }

  /**
   * The `while (player)` loop of lines 500-583 entered at the head of the
   * list with no candidate recorded: one pass, then either the end of the
   * loop or, after a binding, the loop again from the head (lines 577-581).
   */
  function SetupLoop(s: Mixer): (o: Outcome)
    requires WellFormed(s)
    ensures WellFormed(o.state)
    decreases |Unassigned(s)| + |FreeSet(s)|, 0
  {
    var pass := RunPass(s);
    if pass.acc.best.None? then
      Settled(pass.next)
    else if pass.free.None? && pass.next == s then
      Spins(s)
    else
      PassMeasure(s);
      SetupParts(pass.next)
  }

  /**
   * The allocator only links idle parts to pool channels, and when it
   * returns every part that may sound has a channel.
   */
  lemma {:induction false} SetupPartsGrows(s: Mixer)
    requires WellFormed(s)
    ensures Grows(s, SetupParts(s).state)
    ensures SetupParts(s).Settled? ==> AllServed(SetupParts(s).state)
    decreases |Unassigned(s)| + |FreeSet(s)|
  {
    assert SetupParts(s) == SetupLoop(s);
    var pass := RunPass(s);
    if pass.acc.best.None? {
      PassCandidates(s);
    } else if pass.free.None? && pass.next == s {
      GrowsRefl(s);
    } else {
      PassMeasure(s);
      SetupPartsGrows(pass.next);
      GrowsTrans(s, pass.next, SetupParts(pass.next).state);
    }
  }

  /**
   * A pass that finds a candidate and either binds it or changes the state
   * at all takes a channel from the pool or links an idle part, so the
   * loop's measure drops.
   */
  lemma PassMeasure(s: Mixer)
    requires WellFormed(s)
    requires RunPass(s).acc.best.Some? && (RunPass(s).free.Some? || RunPass(s).next != s)
    ensures |Unassigned(RunPass(s).next)| + |FreeSet(RunPass(s).next)| < |Unassigned(s)| + |FreeSet(s)|
  {
    PassBinding(s);
    var pass := RunPass(s);
    GrowsShrinks(s, pass.next);
    if pass.free.Some? {
      SubsetCard(Unassigned(pass.next), Unassigned(s));
      assert pass.free.value in FreeSet(pass.scanned);
      StrictSubsetCard(FreeSet(pass.next), FreeSet(s));
    } else {
      SubsetCard(FreeSet(pass.next), FreeSet(s));
      StrictSubsetCard(Unassigned(pass.next), Unassigned(s));
    }
  }

  /**
   * A state the source's loop never leaves: an eligible part waits, no
   * channel is free, and a pass from here comes back to exactly here.
   */
  ghost predicate Stuck(s: Mixer)
    requires WellFormed(s)
  {
    && !AllServed(s)
    && FreeSet(s) == {}
    && RunPass(s).next == s
  }

  /** `SetupParts` gives up only on a state the source would loop on forever. */
  lemma {:induction false} SetupPartsSpins(s: Mixer)
    requires WellFormed(s)
    ensures SetupParts(s).Spins? ==> Stuck(SetupParts(s).state)
    decreases |Unassigned(s)| + |FreeSet(s)|
  {
    assert SetupParts(s) == SetupLoop(s);
    var pass := RunPass(s);
    if pass.acc.best.Some? {
      if pass.free.None? && pass.next == s {
        StuckWitness(s, pass);
      } else {
        PassMeasure(s);
        SetupPartsSpins(pass.next);
      }
    }
  }

  /** A state on which the allocator gives up at once, handing the state back unchanged. */
  ghost predicate SpinsAt(s: Mixer) {
    WellFormed(s) && SetupParts(s) == Spins(s)
  }

  /** When the allocator gives up, running it again on what it returned gives up again at once. */
  lemma {:induction false} SetupPartsSpinsAt(s: Mixer)
    requires WellFormed(s)
    ensures SetupParts(s).Spins? ==> SpinsAt(SetupParts(s).state)
    decreases |Unassigned(s)| + |FreeSet(s)|
  {
    assert SetupParts(s) == SetupLoop(s);
    var pass := RunPass(s);
    if pass.acc.best.Some? && !(pass.free.None? && pass.next == s) {
      PassMeasure(s);
      SetupPartsSpinsAt(pass.next);
    }
  }

  /** A state the allocator gives up on at once is one the source loops on forever. */
  lemma SpinsAtIsStuck(s: Mixer)
    requires SpinsAt(s)
    ensures Stuck(s)
  {
    SetupPartsSpins(s);
  }

  lemma StuckWitness(s: Mixer, pass: PassResult)
    requires WellFormed(s) && pass == RunPass(s)
    requires pass.acc.best.Some? && pass.free.None? && pass.next == s
    ensures Stuck(s)
  {
    PassCandidates(s);
    PassBinding(s);
    SelectBestIsFirstMax(pass.acc.cands);
    var c := pass.acc.cands[0].ref;
    assert c in Unassigned(s) && Eligible(s, c);
  }
}
