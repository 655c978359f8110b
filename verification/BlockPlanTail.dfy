/** When the plan is the smallest possible: exactly, for every plan that reads its points. */
module BlockPlanTail {
  import opened Ints
  import opened BlockPlan
  import opened BlockPlanOptimal

  /** The first point, in address order, that ends past 65527. */
  function FirstHigh(ks: seq<DataPoint>): (t: nat)
    ensures t <= |ks| && (forall i :: 0 <= i < t ==> End(ks[i]) <= SAFE_END)
    ensures t < |ks| ==> End(ks[t]) > SAFE_END
  {
    if ks == [] then 0
    else
      var t := FirstHigh(ks[..|ks| - 1]);
      if t < |ks| - 1 || End(ks[|ks| - 1]) > SAFE_END then t else |ks|
  }

  /** Points that join one block: none but the last ends past 65527, and each starts at most
      8 registers after the furthest end before it. */
  ghost predicate Joins(ks: seq<DataPoint>) {
    && (forall i :: 0 <= i < |ks| - 1 ==> End(ks[i]) <= SAFE_END)
    && (forall i :: 1 <= i < |ks| ==> ks[i].address <= MaxEnd(ks[..i]) + MAX_GAP_REGISTERS)
  }

  /** Where the block that reaches past 65527 starts. */
  function HighStart(fc: Byte, ks: seq<DataPoint>): int {
    var pending := IdealMerge(fc, ks).pending;
    if pending.Some? then pending.value.start else 0
  }

  /** The condition: nothing follows the first point past 65527, or what follows is a single
      block that the span limit would have forced anyway. */
  ghost predicate NoBlockWasted(fc: Byte, ks: seq<DataPoint>) {
    var t := FirstHigh(ks);
    t + 1 >= |ks| ||
    var front, tail := ks[..t + 1], ks[t + 1..];
    Joins(tail) && exists r <- tail :: End(r) - HighStart(fc, front) > MAX_REGISTERS_PER_BLOCK
  }

  // ---------------------------------------------------------------------------
  // The uint16 plan: past 65527 it starts over

  function After(bs: seq<Block>, plan: Plan): Plan {
    plan.(closed := bs + plan.closed)
  }

  lemma StepAfter(fc: Byte, bs: seq<Block>, plan: Plan, p: DataPoint)
    requires plan.pending.Some?
    ensures Step(fc, After(bs, plan), p) == After(bs, Step(fc, plan, p))
    ensures Fits(After(bs, plan), p) == Fits(plan, p)
  {
    hide W16;
    assert bs + plan.closed + [plan.pending.value] == bs + (plan.closed + [plan.pending.value]);
  }

  /** If the first point of the tail is refused, the tail is planned as if by itself. */
  lemma {:induction false} RefusedStartsOver(fc: Byte, front: seq<DataPoint>, tail: seq<DataPoint>)
    requires tail != [] && !Fits(Merge(fc, front), tail[0])
    ensures Merge(fc, front + tail) == After(Blocks(Merge(fc, front)), Merge(fc, tail))
    ensures Merge(fc, tail).pending.Some?
    decreases |tail|
  {
    hide W16;
    hide Fits;
    var n := |tail| - 1;
    var init, p := tail[..n], tail[n];
    assert (front + tail)[..|front + tail| - 1] == front + init;
    if n == 0 {
      assert front + init == front && tail[..0] == [];
      assert !Fits(Plan([], None), p) by { NothingFits(p); }
      assert Blocks(Merge(fc, front)) + [] == Blocks(Merge(fc, front));
    } else {
      RefusedStartsOver(fc, front, init);
      StepAfter(fc, Blocks(Merge(fc, front)), Merge(fc, init), p);
      StepPending(fc, Merge(fc, init), p);
      hide Step;
    }
  }

  lemma NothingFits(p: DataPoint)
    ensures !Fits(Plan([], None), p)
  {
  }

  /** Once a block ends past 65527, the wrapped gap test refuses every address up there. */
  lemma HighRefuses(plan: Plan, p: DataPoint)
    requires plan.pending.Some? && SAFE_END < plan.pending.value.start + plan.pending.value.quantity <= TWO16 + 3
    requires p.address >= SAFE_END - 3
    ensures !Fits(plan, p)
  {
    var e := plan.pending.value.start + plan.pending.value.quantity;
    assert W16(e + MAX_GAP_REGISTERS) == e + MAX_GAP_REGISTERS - TWO16;
  }

  /** The points up to the first past 65527 are planned ideally, and nothing joins them. */
  lemma FrontIsIdeal(fc: Byte, ks: seq<DataPoint>)
    requires Sorted(ks) && AllKnown(ks) && NeverMergesWrapped(fc, ks) && FirstHigh(ks) < |ks|
    ensures var front := ks[..FirstHigh(ks) + 1];
            && Merge(fc, front) == IdealMerge(fc, front)
            && forall p: DataPoint :: p.address >= SAFE_END - 3 ==> !Fits(Merge(fc, front), p)
  {
    var t := FirstHigh(ks);
    var front := ks[..t + 1];
    SortedPrefix(ks, t + 1);
    assert !MergesWrapped(fc, ks, t);
    assert front[..t] == ks[..t];
    MergeIsIdeal(fc, front);
    PendingTracksMax(fc, front);
    HighEnd(front);
    hide IdealMerge;
    hide Merge;
    hide Fits;
    hide MaxEnd;
    forall p: DataPoint | p.address >= SAFE_END - 3 ensures !Fits(Merge(fc, front), p) {
      HighRefuses(Merge(fc, front), p);
    }
  }

  lemma HighEnd(front: seq<DataPoint>)
    requires front != [] && End(front[|front| - 1]) > SAFE_END
    requires forall i :: 0 <= i < |front| - 1 ==> End(front[i]) <= SAFE_END
    ensures SAFE_END < MaxEnd(front) <= TWO16 + 3
  {
    LowEnds(front[..|front| - 1]);
  }

  lemma {:induction false} LowEnds(ks: seq<DataPoint>)
    requires forall i :: 0 <= i < |ks| ==> End(ks[i]) <= SAFE_END
    ensures MaxEnd(ks) <= SAFE_END
  {
    if ks != [] {
      LowEnds(ks[..|ks| - 1]);
    }
  }

  /** All that follows lies at 65524 or above. */
  lemma TailIsHigh(ks: seq<DataPoint>, t: nat)
    requires Sorted(ks) && t < |ks| && End(ks[t]) > SAFE_END
    ensures forall r <- ks[t + 1..] :: r.address >= SAFE_END - 3
  {
    assert ks[t].address >= SAFE_END - 3;
  }

  lemma MergeSplits(fc: Byte, ks: seq<DataPoint>)
    requires Sorted(ks) && AllKnown(ks) && NeverMergesWrapped(fc, ks) && FirstHigh(ks) + 1 < |ks|
    ensures var t := FirstHigh(ks);
            var front, tail := ks[..t + 1], ks[t + 1..];
            && |Blocks(Merge(fc, ks))| == |Blocks(IdealMerge(fc, front))| + |Blocks(Merge(fc, tail))|
            && |Blocks(Merge(fc, tail))| >= 1
            && NeverMergesWrapped(fc, tail)
  {
    hide Merge;
    hide IdealMerge;
    hide Fits;
    hide FirstHigh;
    var t := FirstHigh(ks);
    var front, tail := ks[..t + 1], ks[t + 1..];
    assert ks == front + tail;
    FrontIsIdeal(fc, ks);
    TailIsHigh(ks, t);
    assert tail[0] in tail;
    RefusedStartsOver(fc, front, tail);
    hide Sorted;
    hide AllKnown;
    hide MergesWrapped;
    forall i | 0 <= i < |tail| ensures !MergesWrapped(fc, tail, i) {
      TailWraps(fc, front, tail, i);
    }
  }

  lemma TailWraps(fc: Byte, front: seq<DataPoint>, tail: seq<DataPoint>, i: nat)
    requires i < |tail| && !Fits(Merge(fc, front), tail[0]) && NeverMergesWrapped(fc, front + tail)
    ensures !MergesWrapped(fc, tail, i)
  {
    hide W16;
    if i > 0 {
      RefusedStartsOver(fc, front, tail[..i]);
      assert (front + tail)[..|front| + i] == front + tail[..i];
      assert (front + tail)[|front| + i] == tail[i];
      StepAfter(fc, Blocks(Merge(fc, front)), Merge(fc, tail[..i]), tail[i]);
      hide Merge;
      hide Fits;
      assert !MergesWrapped(fc, front + tail, |front| + i);
    } else {
      assert tail[..0] == [];
      NothingFits(tail[0]);
    }
  }

  // ---------------------------------------------------------------------------
  // The ideal plan: one block more at most

  ghost predicate Overreaches(start: int, tail: seq<DataPoint>) {
    exists r <- tail :: End(r) - start > MAX_REGISTERS_PER_BLOCK
  }

  /** The ideal plan some way into the tail: `base` blocks before it, one more if some point
      overreached. */
  ghost predicate InTail(plan: Plan, start: int, base: nat, over: bool) {
    && plan.pending.Some?
    && |Blocks(plan)| == base + (if over then 1 else 0)
    && (if over then plan.pending.value.start >= SAFE_END - 3 else plan.pending.value.start == start)
    && plan.pending.value.start + plan.pending.value.quantity > SAFE_END
    && plan.pending.value.quantity <= MAX_REGISTERS_PER_BLOCK
  }

  lemma {:induction false} IdealTail(fc: Byte, front: seq<DataPoint>, tail: seq<DataPoint>)
    requires Sorted(front + tail) && AllKnown(front + tail) && front != [] && SAFE_END < MaxEnd(front)
    requires forall r <- tail :: r.address >= SAFE_END - 3
    ensures InTail(IdealMerge(fc, front + tail), HighStart(fc, front), |Blocks(IdealMerge(fc, front))|,
                   Overreaches(HighStart(fc, front), tail))
    decreases |tail|
  {
    hide IdealStep;
    hide MaxEnd;
    hide Overreaches;
    hide InTail;
    hide HighStart;
    hide Sorted;
    var start := HighStart(fc, front);
    if tail == [] {
      assert front + tail == front;
      TailBegins(fc, front);
    } else {
      var n := |tail| - 1;
      var init, r := tail[..n], tail[n];
      assert (front + tail)[..|front + tail| - 1] == front + init;
      SortedPrefix(front + tail, |front| + n);
      IdealTail(fc, front, init);
      assert r in tail && Known((front + tail)[|front| + n]);
      OverreachSnoc(start, init, r);
      assert tail == init + [r];
      hide AllKnown;
      IdealTailStep(fc, IdealMerge(fc, front + init), start, |Blocks(IdealMerge(fc, front))|, Overreaches(start, init), r);
    }
  }

  lemma TailBegins(fc: Byte, front: seq<DataPoint>)
    requires Sorted(front) && AllKnown(front) && front != [] && SAFE_END < MaxEnd(front)
    ensures var start := HighStart(fc, front);
            InTail(IdealMerge(fc, front), start, |Blocks(IdealMerge(fc, front))|, Overreaches(start, []))
  {
    PendingTracksMax(fc, front);
    hide IdealMerge;
    hide MaxEnd;
  }

  lemma OverreachSnoc(start: int, init: seq<DataPoint>, r: DataPoint)
    ensures Overreaches(start, init + [r]) <==> Overreaches(start, init) || End(r) - start > MAX_REGISTERS_PER_BLOCK
  {
    assert forall x :: x in init + [r] <==> x in init || x == r;
  }

  lemma IdealTailStep(fc: Byte, plan: Plan, start: int, base: nat, over: bool, r: DataPoint)
    requires InTail(plan, start, base, over) && r.address >= SAFE_END - 3 && Known(r)
    ensures InTail(IdealStep(fc, plan, r), start, base, over || End(r) - start > MAX_REGISTERS_PER_BLOCK)
  {
  }

  // ---------------------------------------------------------------------------
  // When the tail is one block

  /** High points make one ideal block if and only if no gap is too wide. */
  lemma {:induction false} OneIdealBlockIff(fc: Byte, ks: seq<DataPoint>)
    requires Sorted(ks) && AllKnown(ks) && ks != [] && forall r <- ks :: r.address >= SAFE_END - 3
    ensures |Blocks(IdealMerge(fc, ks))| == 1 <==>
            forall i :: 1 <= i < |ks| ==> ks[i].address <= MaxEnd(ks[..i]) + MAX_GAP_REGISTERS
    ensures |Blocks(IdealMerge(fc, ks))| >= 1
  {
    hide MaxEnd;
    hide IdealFits;
    hide IdealStep;
    hide Sorted;
    var n := |ks| - 1;
    if n == 0 {
      OneBlock(fc, ks);
    } else {
      var init := ks[..n];
      SortedPrefix(ks, n);
      OneIdealBlockIff(fc, init);
      HighFitsIff(fc, init, ks[n]);
      StepCount(fc, IdealMerge(fc, init), ks[n]);
      hide AllKnown;
      hide Blocks;
      GapsSnoc(ks, n);
    }
  }

  lemma HighFitsIff(fc: Byte, init: seq<DataPoint>, p: DataPoint)
    requires Sorted(init) && AllKnown(init) && init != [] && forall r <- init :: r.address >= SAFE_END - 3
    ensures IdealFits(IdealMerge(fc, init), p) <==> p.address <= MaxEnd(init) + MAX_GAP_REGISTERS
  {
    PendingTracksMax(fc, init);
    hide IdealMerge;
    hide MaxEnd;
    var opens := Opens(fc, init);
    assert init[opens[|opens| - 1]] in init;
  }

  lemma StepCount(fc: Byte, plan: Plan, p: DataPoint)
    ensures |Blocks(IdealStep(fc, plan, p))| == |Blocks(plan)| + if IdealFits(plan, p) then 0 else 1
  {
  }

  lemma GapsSnoc(ks: seq<DataPoint>, n: nat)
    requires n + 1 == |ks| && n > 0
    ensures (forall i :: 1 <= i < |ks| ==> ks[i].address <= MaxEnd(ks[..i]) + MAX_GAP_REGISTERS) <==>
            && (forall i :: 1 <= i < n ==> ks[..n][i].address <= MaxEnd(ks[..n][..i]) + MAX_GAP_REGISTERS)
            && ks[n].address <= MaxEnd(ks[..n]) + MAX_GAP_REGISTERS
  {
    hide MaxEnd;
    assert forall i :: 1 <= i < n ==> ks[..n][i] == ks[i] && ks[..n][..i] == ks[..i];
  }

  lemma OneBlock(fc: Byte, ks: seq<DataPoint>)
    requires |ks| == 1
    ensures |Blocks(IdealMerge(fc, ks))| == 1
  {
    assert ks[..0] == [];
  }

  /** The tail is planned as one block if and only if its points join. */
  lemma OneTailBlockIff(fc: Byte, tail: seq<DataPoint>)
    requires Sorted(tail) && AllKnown(tail) && NeverMergesWrapped(fc, tail) && tail != []
    requires forall r <- tail :: r.address >= SAFE_END - 3
    ensures |Blocks(Merge(fc, tail))| == 1 <==> Joins(tail)
  {
    hide Merge;
    hide IdealMerge;
    hide MaxEnd;
    hide FirstHigh;
    var t := FirstHigh(tail);
    if t + 1 >= |tail| {
      assert !MergesWrapped(fc, tail, |tail| - 1);
      MergeIsIdeal(fc, tail);
      OneIdealBlockIff(fc, tail);
    } else {
      MergeSplits(fc, tail);
      SortedPrefix(tail, t + 1);
      assert forall r <- tail[..t + 1] :: r in tail;
      OneIdealBlockIff(fc, tail[..t + 1]);
      assert End(tail[t]) > SAFE_END;
    }
  }

  // ---------------------------------------------------------------------------

  /** For every plan that reads all its points, the planner uses the fewest blocks the limits
      allow if and only if no block is wasted past 65527. */
  lemma PlanIsOptimalIff(fc: Byte, ks: seq<DataPoint>)
    requires Sorted(ks) && AllKnown(ks) && NeverMergesWrapped(fc, ks)
    ensures Fewest(ks, |Blocks(Merge(fc, ks))|) <==> NoBlockWasted(fc, ks)
  {
    hide Merge;
    hide IdealMerge;
    hide Fewest;
    hide FirstHigh;
    hide MaxEnd;
    hide Joins;
    FewestIff(fc, ks, |Blocks(Merge(fc, ks))|);
    var t := FirstHigh(ks);
    if t + 1 >= |ks| {
      assert ks != [] ==> !MergesWrapped(fc, ks, |ks| - 1);
      MergeIsIdeal(fc, ks);
    } else {
      CountsAgreeIff(fc, ks);
    }
  }

  /** With points after the first past 65527: the two plans have as many blocks exactly when
      the tail is one block in both. */
  lemma CountsAgreeIff(fc: Byte, ks: seq<DataPoint>)
    requires Sorted(ks) && AllKnown(ks) && NeverMergesWrapped(fc, ks) && FirstHigh(ks) + 1 < |ks|
    ensures var t := FirstHigh(ks);
            var front, tail := ks[..t + 1], ks[t + 1..];
            |Blocks(Merge(fc, ks))| == |Blocks(IdealMerge(fc, ks))| <==>
            Joins(tail) && Overreaches(HighStart(fc, front), tail)
  {
    hide Merge;
    hide IdealMerge;
    hide FirstHigh;
    hide MaxEnd;
    hide Joins;
    hide HighStart;
    hide Overreaches;
    hide Sorted;
    hide AllKnown;
    hide NeverMergesWrapped;
    hide Blocks;
    var t := FirstHigh(ks);
    var front, tail := ks[..t + 1], ks[t + 1..];
    assert ks == front + tail;
    MergeSplits(fc, ks);
    TailIsHigh(ks, t);
    TailSorted(ks, t);
    HighEnd(front);
    IdealTail(fc, front, tail);
    OneTailBlockIff(fc, tail);
  }

  lemma TailSorted(ks: seq<DataPoint>, t: nat)
    requires Sorted(ks) && AllKnown(ks) && t < |ks|
    ensures Sorted(ks[t + 1..]) && AllKnown(ks[t + 1..])
  {
  }
}
