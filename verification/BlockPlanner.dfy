/** planBlockReads: points grouped by function code, sorted by address, merged. */
module BlockPlanner {
  import opened Ints
  import opened Registers
  import opened BlockPlan
  import opened BlockPlanOptimal
  import opened BlockPlanTail
  import opened BlockPlanTies

  function GroupOf(ps: seq<DataPoint>, fc: Byte): seq<DataPoint> {
    if ps == [] then []
    else
      var last := ps[|ps| - 1];
      if last.functionCode == fc then GroupOf(ps[..|ps| - 1], fc) + [last] else GroupOf(ps[..|ps| - 1], fc)
  }

  function BlocksFor(bs: seq<Block>, fc: Byte): seq<Block> {
    if bs == [] then []
    else
      var last := bs[|bs| - 1];
      if last.functionCode == fc then BlocksFor(bs[..|bs| - 1], fc) + [last] else BlocksFor(bs[..|bs| - 1], fc)
  }

  predicate BitAccess(fc: Byte) {
    fc == READ_COILS || fc == READ_DISCRETE
  }

  /** One block per known point, for coils and discrete inputs. */
  function Singles(fc: Byte, ks: seq<DataPoint>): seq<Block> {
    if ks == [] then []
    else Singles(fc, ks[..|ks| - 1]) + [Block(fc, ks[|ks| - 1].address, Regs(ks[|ks| - 1]), [ks[|ks| - 1]])]
  }

  /** The blocks of one function code come from its points in some address order. The sort is
      not stable, so points at one address may come in any order. */
  ghost predicate PlannedFrom(bs: seq<Block>, group: seq<DataPoint>, fc: Byte) {
    if BitAccess(fc) then bs == Singles(fc, KnownOf(group))
    else exists g :: Sorted(g) && multiset(g) == multiset(group) && bs == Blocks(Merge(fc, KnownOf(g)))
  }

  // ---------------------------------------------------------------------------

  lemma {:induction false} BlocksForAppend(a: seq<Block>, b: seq<Block>, fc: Byte)
    ensures BlocksFor(a + b, fc) == BlocksFor(a, fc) + BlocksFor(b, fc)
  {
    if b == [] {
      assert a + b == a;
    } else {
      var n := |b| - 1;
      BlocksForAppend(a, b[..n], fc);
      assert (a + b)[..|a + b| - 1] == a + b[..n];
    }
  }

  lemma {:induction false} BlocksForUniform(b: seq<Block>, fc: Byte, other: Byte)
    requires forall x <- b :: x.functionCode == fc
    ensures BlocksFor(b, other) == if other == fc then b else []
  {
    if b != [] {
      BlocksForUniform(b[..|b| - 1], fc, other);
    }
  }

  lemma {:induction false} SinglesUniform(fc: Byte, ks: seq<DataPoint>)
    ensures forall b <- Singles(fc, ks) :: b.functionCode == fc
  {
    if ks != [] {
      SinglesUniform(fc, ks[..|ks| - 1]);
    }
  }

  // ---------------------------------------------------------------------------
  // The methods

  lemma KnownSnoc(g: seq<DataPoint>, i: nat)
    requires i < |g|
    ensures KnownOf(g[..i + 1]) == if Known(g[i]) then KnownOf(g[..i]) + [g[i]] else KnownOf(g[..i])
  {
    assert g[..i + 1][..i] == g[..i];
  }

  lemma MergeSnoc(fc: Byte, ks: seq<DataPoint>, p: DataPoint)
    ensures Merge(fc, ks + [p]) == Step(fc, Merge(fc, ks), p)
    ensures Singles(fc, ks + [p]) == Singles(fc, ks) + [Block(fc, p.address, Regs(p), [p])]
  {
    hide Step;
    assert (ks + [p])[..|ks|] == ks;
  }

  /** sort.Slice: callers may rely on order and content, not on stability. */
  method SortByAddress(group: seq<DataPoint>) returns (g: seq<DataPoint>)
    ensures Sorted(g) && multiset(g) == multiset(group)
  {
    hide Sorted;
    g := [];
    assert Sorted(g) by { EmptySorted(); }
    for i := 0 to |group|
      invariant Sorted(g) && multiset(g) == multiset(group[..i])
    {
      g := InsertByAddress(g, group[i]);
      assert group[..i + 1] == group[..i] + [group[i]];
    }
    assert group[..|group|] == group;
  }

  lemma EmptySorted()
    ensures Sorted([])
  {
  }

  method InsertByAddress(g: seq<DataPoint>, p: DataPoint) returns (out: seq<DataPoint>)
    requires Sorted(g)
    ensures Sorted(out) && multiset(out) == multiset(g) + multiset{p}
  {
    var at := 0;
    while at < |g| && g[at].address <= p.address
      invariant 0 <= at <= |g|
      invariant forall j :: 0 <= j < at ==> g[j].address <= p.address
    {
      at := at + 1;
    }
    out := g[..at] + [p] + g[at..];
    assert g == g[..at] + g[at..];
    InsertedSorted(g, at, p);
  }

  lemma InsertedSorted(g: seq<DataPoint>, at: nat, p: DataPoint)
    requires Sorted(g) && at <= |g|
    requires forall j :: 0 <= j < at ==> g[j].address <= p.address
    requires at < |g| ==> p.address < g[at].address
    ensures Sorted(g[..at] + [p] + g[at..])
  {
    var out := g[..at] + [p] + g[at..];
    assert forall j :: 0 <= j < |out| ==> out[j] == if j < at then g[j] else if j == at then p else g[j - 1];
  }

  /** The body of the merging loop: extend the pending block, or close it and open another. */
  method Place(fc: Byte, closed: seq<Block>, open: Option<Block>, p: DataPoint, count: nat)
    returns (blocks: seq<Block>, pending: Option<Block>)
    requires RegisterCount(p.dataType) == Some(count)
    ensures Plan(blocks, pending) == Step(fc, Plan(closed, open), p)
  {
    hide W16;
    assert Regs(p) == count;
    blocks, pending := closed, open;
    var end := W16(p.address + count);
    if pending.Some?
       && p.address <= W16(pending.value.start + pending.value.quantity + MAX_GAP_REGISTERS)
       && W16(end - pending.value.start) <= MAX_REGISTERS_PER_BLOCK
    {
      var b := pending.value;
      if end > W16(b.start + b.quantity) {
        b := b.(quantity := W16(end - b.start));
      }
      pending := Some(b.(points := b.points + [p]));
      return;
    }
    if pending.Some? {
      blocks := blocks + [pending.value];
    }
    pending := Some(Block(fc, p.address, count, [p]));
  }

  /** The merging loop for one register function code. */
  method MergeGroup(fc: Byte, g: seq<DataPoint>) returns (blocks: seq<Block>)
    ensures blocks == Blocks(Merge(fc, KnownOf(g)))
  {
    hide KnownOf;
    hide Merge;
    hide Step;
    blocks := [];
    var pending: Option<Block> := None;
    NothingMerged(fc);
    assert g[..0] == [];
    for i := 0 to |g|
      invariant Plan(blocks, pending) == Merge(fc, KnownOf(g[..i]))
    {
      KnownSnoc(g, i);
      MergeSnoc(fc, KnownOf(g[..i]), g[i]);
      var count := RegisterCount(g[i].dataType);
      if count.None? {
        continue;
      }
      blocks, pending := Place(fc, blocks, pending, g[i], count.value);
    }
    assert g[..|g|] == g;
    if pending.Some? {
      blocks := blocks + [pending.value];
    }
  }

  lemma NothingMerged(fc: Byte)
    ensures KnownOf([]) == [] && Merge(fc, []) == Plan([], None) && Singles(fc, []) == []
  {
  }

  /** One block per point, for bit-wide function codes. */
  method SingleBlocks(fc: Byte, group: seq<DataPoint>) returns (blocks: seq<Block>)
    ensures blocks == Singles(fc, KnownOf(group))
  {
    hide KnownOf;
    hide Singles;
    blocks := [];
    NothingMerged(fc);
    assert group[..0] == [];
    for i := 0 to |group|
      invariant blocks == Singles(fc, KnownOf(group[..i]))
    {
      var p := group[i];
      KnownSnoc(group, i);
      MergeSnoc(fc, KnownOf(group[..i]), p);
      var count := RegisterCount(p.dataType);
      if count.None? {
        continue;
      }
      blocks := blocks + [Block(fc, p.address, count.value, [p])];
    }
    assert group[..|group|] == group;
  }

  method GroupByCode(ps: seq<DataPoint>) returns (byFC: map<Byte, seq<DataPoint>>)
    ensures forall fc: Byte :: GroupOf(ps, fc) == if fc in byFC then byFC[fc] else []
  {
    byFC := map[];
    for i := 0 to |ps|
      invariant forall fc: Byte :: GroupOf(ps[..i], fc) == if fc in byFC then byFC[fc] else []
    {
      var p := ps[i];
      assert ps[..i + 1][..i] == ps[..i];
      var before := if p.functionCode in byFC then byFC[p.functionCode] else [];
      byFC := byFC[p.functionCode := before + [p]];
    }
    assert ps[..|ps|] == ps;
  }

  /** planBlockReads. Go's map iteration order is any, so is the order of function codes here. */
  method PlanBlockReads(ps: seq<DataPoint>) returns (blocks: seq<Block>)
    ensures forall fc: Byte :: PlannedFrom(BlocksFor(blocks, fc), GroupOf(ps, fc), fc)
  {
    hide *;
    var byFC := GroupByCode(ps);
    blocks := [];
    var todo := byFC.Keys;
    forall fc: Byte ensures PlannedFrom([], [], fc) && BlocksFor([], fc) == [] {
      NothingPlannedFor(fc);
    }
    while todo != {}
      invariant todo <= byFC.Keys
      invariant forall fc: Byte :: fc in todo ==> BlocksFor(blocks, fc) == []
      invariant forall fc: Byte :: fc !in todo ==> PlannedFrom(BlocksFor(blocks, fc), GroupOf(ps, fc), fc)
      decreases |todo|
    {
      var fc :| fc in todo;
      todo := todo - {fc};
      var more := PlanGroup(fc, byFC[fc]);
      ghost var before := blocks;
      blocks := blocks + more;
      forall other: Byte ensures BlocksFor(blocks, other) == if other == fc then BlocksFor(before, fc) + more else BlocksFor(before, other) {
        BlocksForMore(before, more, fc, other);
      }
      assert [] + more == more;
    }
  }

  /** Blocks of one function code are added to that code's only. */
  lemma BlocksForMore(before: seq<Block>, more: seq<Block>, fc: Byte, other: Byte)
    requires forall b <- more :: b.functionCode == fc
    ensures BlocksFor(before + more, other) ==
            if other == fc then BlocksFor(before, fc) + more else BlocksFor(before, other)
  {
    BlocksForAppend(before, more, other);
    BlocksForUniform(more, fc, other);
  }

  method PlanGroup(fc: Byte, group: seq<DataPoint>) returns (blocks: seq<Block>)
    ensures PlannedFrom(blocks, group, fc) && forall b <- blocks :: b.functionCode == fc
  {
    if BitAccess(fc) {
      blocks := SingleBlocks(fc, group);
      SinglesUniform(fc, KnownOf(group));
    } else {
      var g := SortByAddress(group);
      blocks := MergeGroup(fc, g);
      MergeKeepsPoints(fc, KnownOf(g));
    }
  }

  lemma NothingPlannedFor(fc: Byte)
    ensures PlannedFrom([], [], fc) && BlocksFor([], fc) == []
  {
    var g: seq<DataPoint> := [];
    assert Sorted(g) && multiset(g) == multiset(g) && Blocks(Merge(fc, KnownOf(g))) == [];
  }

  // ---------------------------------------------------------------------------
  // What every plan satisfies

  lemma {:induction false} KnownCount(ps: seq<DataPoint>, p: DataPoint)
    ensures multiset(KnownOf(ps))[p] == if Known(p) then multiset(ps)[p] else 0
  {
    if ps != [] {
      var n := |ps| - 1;
      KnownCount(ps[..n], p);
      assert ps == ps[..n] + [ps[n]];
    }
  }

  lemma {:induction false} KnownSorted(ps: seq<DataPoint>)
    requires Sorted(ps)
    ensures Sorted(KnownOf(ps))
  {
    if ps != [] {
      var n := |ps| - 1;
      KnownSorted(ps[..n]);
      var ks := KnownOf(ps[..n]);
      forall i | 0 <= i < |ks| ensures ks[i].address <= ps[n].address {
        assert ks[i] in ps[..n];
      }
    }
  }

  lemma {:induction false} SinglesFacts(fc: Byte, ks: seq<DataPoint>)
    requires AllKnown(ks)
    ensures Flat(Singles(fc, ks)) == ks && AllValid(Singles(fc, ks)) && |Singles(fc, ks)| == |ks|
  {
    if ks != [] {
      var n := |ks| - 1;
      var b := Block(fc, ks[n].address, Regs(ks[n]), [ks[n]]);
      SinglesFacts(fc, ks[..n]);
      FlatSnoc(Singles(fc, ks[..n]), b);
      LastBlockValid(Singles(fc, ks[..n]), b);
      hide AllValid;
      hide Flat;
      assert ks == ks[..n] + [ks[n]];
      assert Known(ks[n]);
    }
  }

  /** Each known point is read by exactly one block of its function code, unknown ones by
      none; and if every known register point ends at or below 65535, every block has 1 to
      125 registers and contains its points whole. */
  lemma PlanValid(bs: seq<Block>, group: seq<DataPoint>, fc: Byte)
    requires PlannedFrom(bs, group, fc)
    ensures multiset(Flat(bs)) == multiset(KnownOf(group))
    ensures (forall p <- group :: Known(p) ==> End(p) <= TWO16 - 1) ==> AllValid(bs)
  {
    hide Merge;
    hide KnownOf;
    hide Flat;
    hide AllValid;
    hide Singles;
    hide Sorted;
    if BitAccess(fc) {
      SinglesFacts(fc, KnownOf(group));
    } else {
      var g :| Sorted(g) && multiset(g) == multiset(group) && bs == Blocks(Merge(fc, KnownOf(g)));
      var ks := KnownOf(g);
      MergeKeepsPoints(fc, ks);
      KnownPermuted(g, group);
      KnownSorted(g);
      CoverageIff(fc, ks);
      if forall p <- group :: Known(p) ==> End(p) <= TWO16 - 1 {
        NothingWrapped(fc, g, group);
      }
    }
  }

  lemma KnownPermuted(g: seq<DataPoint>, group: seq<DataPoint>)
    requires multiset(g) == multiset(group)
    ensures multiset(KnownOf(g)) == multiset(KnownOf(group))
  {
    hide KnownOf;
    forall p ensures multiset(KnownOf(g))[p] == multiset(KnownOf(group))[p] {
      KnownCount(g, p);
      KnownCount(group, p);
    }
  }

  lemma NothingWrapped(fc: Byte, g: seq<DataPoint>, group: seq<DataPoint>)
    requires multiset(g) == multiset(group)
    requires forall p <- group :: Known(p) ==> End(p) <= TWO16 - 1
    ensures forall i :: 0 <= i < |KnownOf(g)| ==> !MergesWrapped(fc, KnownOf(g), i)
  {
    hide Merge;
    hide KnownOf;
    var ks := KnownOf(g);
    forall i | 0 <= i < |ks| ensures !MergesWrapped(fc, ks, i) {
      assert ks[i] in g;
      assert ks[i] in multiset(group);
    }
  }

  /** A plan that reads all its points has the fewest blocks possible, whichever way ties are
      sorted, if and only if no block is wasted past 65527; so always when no point of the
      function code ends there. */
  lemma PlanFewest(bs: seq<Block>, group: seq<DataPoint>, fc: Byte) returns (g: seq<DataPoint>)
    requires PlannedFrom(bs, group, fc) && !BitAccess(fc) && AllValid(bs)
    ensures Sorted(g) && multiset(g) == multiset(group) && bs == Blocks(Merge(fc, KnownOf(g)))
    ensures forall g' :: Sorted(g') && multiset(g') == multiset(group) ==>
              (Fewest(KnownOf(g'), |bs|) <==> NoBlockWasted(fc, KnownOf(g)))
    ensures (forall p <- group :: Known(p) ==> End(p) <= SAFE_END) ==> NoBlockWasted(fc, KnownOf(g))
  {
    hide Merge;
    hide Fewest;
    hide KnownOf;
    hide Sorted;
    hide NoBlockWasted;
    hide AllValid;
    g :| Sorted(g) && multiset(g) == multiset(group) && bs == Blocks(Merge(fc, KnownOf(g)));
    var ks := KnownOf(g);
    KnownSorted(g);
    CoverageIff(fc, ks);
    PlanIsOptimalIff(fc, ks);
    forall g' | Sorted(g') && multiset(g') == multiset(group)
      ensures Fewest(KnownOf(g'), |bs|) <==> Fewest(ks, |bs|)
    {
      SameFewest(g, g', |bs|);
    }
    if forall p <- group :: Known(p) ==> End(p) <= SAFE_END {
      NoneHigh(fc, g, group);
    }
  }

  lemma SameFewest(g: seq<DataPoint>, g': seq<DataPoint>, n: nat)
    requires Sorted(g) && Sorted(g') && multiset(g) == multiset(g')
    ensures Fewest(KnownOf(g'), n) <==> Fewest(KnownOf(g), n)
  {
    hide Fewest;
    hide KnownOf;
    KnownPermuted(g, g');
    KnownSorted(g);
    KnownSorted(g');
    if Fewest(KnownOf(g), n) {
      FewestRearranged(KnownOf(g), KnownOf(g'), n);
    }
    if Fewest(KnownOf(g'), n) {
      FewestRearranged(KnownOf(g'), KnownOf(g), n);
    }
  }

  lemma NoneHigh(fc: Byte, g: seq<DataPoint>, group: seq<DataPoint>)
    requires multiset(g) == multiset(group) && forall p <- group :: Known(p) ==> End(p) <= SAFE_END
    ensures NoBlockWasted(fc, KnownOf(g))
  {
    hide KnownOf;
    var ks := KnownOf(g);
    forall i | 0 <= i < |ks| ensures End(ks[i]) <= SAFE_END {
      assert ks[i] in g;
      assert ks[i] in multiset(group);
    }
    var t := FirstHigh(ks);
  }
}
