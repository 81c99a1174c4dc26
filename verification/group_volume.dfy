/**
 * The two group-volume tables: the configured volume of every group and the
 * resolved volume the players read. Group 0 is the master group.
 */
module GroupVolume {
  import opened ImuseState

  /** A status-or-value reply: `ArgErr` is the source's argument-error code. */
  datatype Reply = Ok(value: int) | ArgErr

  /**
   * The product `a * b` as repeated addition. The volume formulas multiply
   * two unknowns; the bound proofs go through this function, one linear
   * step at a time, and `TimesIsProduct` carries the result back to `*`.
   */
  function Times(a: int, b: int): int
    decreases if a < 0 then -a else a
  {
    if a == 0 then 0
    else if a > 0 then Times(a - 1, b) + b
    else Times(a + 1, b) - b
  }

  lemma {:induction false} TimesIsProduct(a: int, b: int)
    ensures Times(a, b) == a * b
    decreases if a < 0 then -a else a
  {
    if a > 0 {
      TimesIsProduct(a - 1, b);
    } else if a < 0 {
      TimesIsProduct(a + 1, b);
    }
  }

  /** Repeated addition of a non-negative amount grows with the count. */
  lemma {:induction false} TimesMonotone(a: int, b: int, x: int)
    requires 0 <= a <= b && 0 <= x
    ensures 0 <= Times(a, x) <= Times(b, x)
    decreases b
  {
    if a < b {
      TimesMonotone(a, b - 1, x);
    } else if a > 0 {
      TimesMonotone(a - 1, a - 1, x);
    }
  }

  /**
   * `((level + 1) * x) >> 7`, the scaling every level of the hierarchy uses.
   * An arithmetic shift right is a floor division, which is what `/` is in
   * Dafny for a positive divisor, so negative products round the same way.
   */
  function Attenuate(level: int, x: int): int {
    (level + 1) * x / 128
  }

  /** The static initialisers: nothing configured, every resolved entry 127. */
  const InitialTables: GroupTables := GroupTables(seq(GroupMaxCount, _ => 0), seq(GroupMaxCount, _ => MaxVolume))

  /** `ImGetGroupVolume`: the resolved volume of a group, or an argument error past the table. */
  function GetGroupVolume(g: GroupTables, group: int): (r: Reply)
    requires TablesOk(g) && group >= 0
    ensures r.ArgErr? <==> group >= GroupMaxCount
    ensures r.Ok? ==> r.value == g.resolved[group]
  {
    if group >= GroupMaxCount then ArgErr else Ok(g.resolved[group])
  }

  /**
   * The table update of `ImSetGroupVol` for a valid group and a volume that
   * is not the query value. Setting the master recomputes every other
   * group's resolved entry from that group's configured volume; setting any
   * other group recomputes only its own entry, from the master's configured
   * volume. The two branches put the `+ 1` on different operands.
   */
  function SetGroupTables(g: GroupTables, group: nat, volume: int): (t: GroupTables)
    requires TablesOk(g) && group < GroupMaxCount
    ensures TablesOk(t)
    ensures t.configured[group] == volume
    ensures forall i :: 0 <= i < GroupMaxCount && i != group ==> t.configured[i] == g.configured[i]
    ensures group == GroupMaster ==> t.resolved[GroupMaster] == 0
    ensures group == GroupMaster ==>
      forall i :: 1 <= i < GroupMaxCount ==> t.resolved[i] == Attenuate(g.configured[i], volume)
    ensures group != GroupMaster ==> t.resolved[group] == Attenuate(g.configured[GroupMaster], volume)
    ensures group != GroupMaster ==>
      forall i :: 0 <= i < GroupMaxCount && i != group ==> t.resolved[i] == g.resolved[i]
  {
    var configured := g.configured[group := volume];
    if group == GroupMaster then
      GroupTables(configured, seq(GroupMaxCount, i requires 0 <= i < GroupMaxCount =>
        if i == GroupMaster then 0 else Attenuate(configured[i], volume)))
    else
      GroupTables(configured, g.resolved[group := Attenuate(configured[GroupMaster], volume)])
  }

  /**
   * The relation a master set establishes between the tables: master
   * resolves to 0, every other group to its configured volume scaled by the
   * master.
   */
  predicate Coherent(g: GroupTables)
    requires TablesOk(g)
  {
    && g.resolved[GroupMaster] == 0
    && forall i :: 1 <= i < GroupMaxCount ==> g.resolved[i] == Attenuate(g.configured[i], g.configured[GroupMaster])
  }

  predicate InRange(g: GroupTables)
    requires TablesOk(g)
  {
    forall i :: 0 <= i < GroupMaxCount ==> 0 <= g.configured[i] <= MaxVolume && 0 <= g.resolved[i] <= MaxVolume
  }

  /** Scaling by a level in [0,127] never amplifies and never goes negative. */
  lemma AttenuateBounds(level: int, x: int)
    requires 0 <= level <= MaxVolume && 0 <= x
    ensures 0 <= Attenuate(level, x) <= x
  {
    TimesMonotone(level + 1, 128, x);
    TimesIsProduct(level + 1, x);
    TimesIsProduct(128, x);
  }

  /** Setting the master, whatever the tables held before, makes them coherent. */
  lemma MasterSetIsCoherent(g: GroupTables, volume: int)
    requires TablesOk(g)
    ensures Coherent(SetGroupTables(g, GroupMaster, volume))
  {
  }

  /** Setting a non-master group keeps coherence only where both formulas agree. */
  lemma GroupSetCoherentIff(g: GroupTables, group: nat, volume: int)
    requires TablesOk(g) && Coherent(g) && 1 <= group < GroupMaxCount
    ensures Coherent(SetGroupTables(g, group, volume))
        <==> Attenuate(g.configured[GroupMaster], volume) == Attenuate(volume, g.configured[GroupMaster])
  {
    var t := SetGroupTables(g, group, volume);
    assert t.configured[GroupMaster] == g.configured[GroupMaster];
    if Attenuate(g.configured[GroupMaster], volume) == Attenuate(volume, g.configured[GroupMaster]) {
      forall i | 1 <= i < GroupMaxCount
        ensures t.resolved[i] == Attenuate(t.configured[i], t.configured[GroupMaster])
      {
        if i != group {
          assert t.resolved[i] == g.resolved[i];
        }
      }
    }
  }

  /**
   * The resolved table depends on the order of calls: master 64 then group
   * 1 at 63 resolves group 1 to 31; the other order resolves it to 32.
   */
  lemma SetOrderMatters()
    ensures SetGroupTables(SetGroupTables(InitialTables, GroupMaster, 64), 1, 63).resolved[1] == 31
    ensures SetGroupTables(SetGroupTables(InitialTables, 1, 63), GroupMaster, 64).resolved[1] == 32
  {
    var a := SetGroupTables(InitialTables, GroupMaster, 64);
    assert a.configured[GroupMaster] == 64;
    var b := SetGroupTables(InitialTables, 1, 63);
    assert b.configured[1] == 63;
  }

  /** Volumes in [0,127] keep both tables in [0,127]. */
  lemma SetGroupTablesInRange(g: GroupTables, group: nat, volume: int)
    requires TablesOk(g) && InRange(g) && group < GroupMaxCount && 0 <= volume <= MaxVolume
    ensures InRange(SetGroupTables(g, group, volume))
  {
    var t := SetGroupTables(g, group, volume);
    forall i | 0 <= i < GroupMaxCount
      ensures 0 <= t.resolved[i] <= MaxVolume
    {
      if group == GroupMaster && i != GroupMaster {
        AttenuateBounds(g.configured[i], volume);
      } else if group != GroupMaster && i == group {
        AttenuateBounds(g.configured[GroupMaster], volume);
      }
    }
  }

  /** Writing the same volume twice is the same as writing it once. */
  lemma SetGroupTablesIdempotent(g: GroupTables, group: nat, volume: int)
    requires TablesOk(g) && group < GroupMaxCount
    ensures SetGroupTables(SetGroupTables(g, group, volume), group, volume) == SetGroupTables(g, group, volume)
  {
    var t := SetGroupTables(g, group, volume);
    var u := SetGroupTables(t, group, volume);
    assert u.configured == t.configured;
    if group == GroupMaster {
      assert u.resolved == t.resolved;
    } else {
      assert t.configured[GroupMaster] == g.configured[GroupMaster];
      assert u.resolved == t.resolved;
    }
  }
}
