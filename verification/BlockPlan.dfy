/** Grouping a device's data points into block reads, in the source's uint16 arithmetic. */
module BlockPlan {
  import opened Ints
  import opened Registers

  datatype DataPoint = DataPoint(
    id: Int64,
    functionCode: Byte,
    address: UInt16,
    dataType: DataType,
    byteOrder: seq<Byte>)

  datatype Block = Block(functionCode: Byte, start: int, quantity: int, points: seq<DataPoint>)

  const MAX_REGISTERS_PER_BLOCK := 125
  const MAX_GAP_REGISTERS := 8

  predicate Known(p: DataPoint) {
    RegisterCount(p.dataType).Some?
  }

  function Regs(p: DataPoint): (n: nat)
    ensures n <= 4 && (Known(p) <==> n >= 1)
  {
    if Known(p) then RegisterCount(p.dataType).value else 0
  }

  /** One past the last register of a point, as a number, not as a uint16. */
  function End(p: DataPoint): int {
    p.address + Regs(p)
  }

  function KnownOf(ps: seq<DataPoint>): (ks: seq<DataPoint>)
    ensures forall k <- ks :: Known(k) && k in ps
  {
    if ps == [] then []
    else if Known(ps[|ps| - 1]) then KnownOf(ps[..|ps| - 1]) + [ps[|ps| - 1]]
    else KnownOf(ps[..|ps| - 1])
  }

  ghost predicate AllKnown(ks: seq<DataPoint>) {
    forall k <- ks :: Known(k)
  }

  ghost predicate Sorted(ps: seq<DataPoint>) {
    forall i, j :: 0 <= i < j < |ps| ==> ps[i].address <= ps[j].address
  }

  /** Blocks already closed, and the one still being extended. */
  datatype Plan = Plan(closed: seq<Block>, pending: Option<Block>)

  function Blocks(plan: Plan): seq<Block> {
    if plan.pending.Some? then plan.closed + [plan.pending.value] else plan.closed
  }

  function W16(x: int): int {
    x % TWO16
  }

  function NewBlock(fc: Byte, plan: Plan, p: DataPoint): Plan {
    Plan(Blocks(plan), Some(Block(fc, p.address, Regs(p), [p])))
  }

  function Extended(b: Block, quantity: int, p: DataPoint): Block {
    b.(quantity := quantity, points := b.points + [p])
  }

  // ---------------------------------------------------------------------------
  // The planner, in uint16

  predicate Fits(plan: Plan, p: DataPoint) {
    plan.pending.Some? &&
    var b := plan.pending.value;
    p.address <= W16(b.start + b.quantity + MAX_GAP_REGISTERS) &&
    W16(W16(End(p)) - b.start) <= MAX_REGISTERS_PER_BLOCK
  }

  function Step(fc: Byte, plan: Plan, p: DataPoint): Plan {
    if Fits(plan, p) then
      var b, end := plan.pending.value, W16(End(p));
      plan.(pending := Some(Extended(b, if end > W16(b.start + b.quantity) then W16(end - b.start) else b.quantity, p)))
    else NewBlock(fc, plan, p)
  }

  function Merge(fc: Byte, ks: seq<DataPoint>): Plan {
    if ks == [] then Plan([], None) else Step(fc, Merge(fc, ks[..|ks| - 1]), ks[|ks| - 1])
  }

  // ---------------------------------------------------------------------------
  // The same rule over unbounded integers

  predicate IdealFits(plan: Plan, p: DataPoint) {
    plan.pending.Some? &&
    var b := plan.pending.value;
    p.address <= b.start + b.quantity + MAX_GAP_REGISTERS && End(p) - b.start <= MAX_REGISTERS_PER_BLOCK
  }

  function IdealStep(fc: Byte, plan: Plan, p: DataPoint): Plan {
    if IdealFits(plan, p) then
      var b := plan.pending.value;
      plan.(pending := Some(Extended(b, if End(p) > b.start + b.quantity then End(p) - b.start else b.quantity, p)))
    else NewBlock(fc, plan, p)
  }

  function IdealMerge(fc: Byte, ks: seq<DataPoint>): Plan {
    if ks == [] then Plan([], None) else IdealStep(fc, IdealMerge(fc, ks[..|ks| - 1]), ks[|ks| - 1])
  }

  // ---------------------------------------------------------------------------
  // What a plan must be

  predicate Inside(b: Block, p: DataPoint) {
    b.start <= p.address && End(p) <= b.start + b.quantity
  }

  ghost predicate ValidBlock(b: Block) {
    && 1 <= b.quantity <= 125
    && b.points != []
    && forall p <- b.points :: Inside(b, p)
  }

  ghost predicate AllValid(bs: seq<Block>) {
    forall b <- bs :: ValidBlock(b)
  }

  function Flat(bs: seq<Block>): seq<DataPoint> {
    if bs == [] then [] else Flat(bs[..|bs| - 1]) + bs[|bs| - 1].points
  }

  lemma FlatSnoc(bs: seq<Block>, b: Block)
    ensures Flat(bs + [b]) == Flat(bs) + b.points
  {
    assert (bs + [b])[..|bs|] == bs;
  }

  lemma SortedPrefix(ks: seq<DataPoint>, n: nat)
    requires n <= |ks| && Sorted(ks) && AllKnown(ks)
    ensures Sorted(ks[..n]) && AllKnown(ks[..n])
  {
  }

  /** Every step puts the point into the last block, so the blocks list the points in order. */
  lemma {:induction false} MergeKeepsPoints(fc: Byte, ks: seq<DataPoint>)
    ensures Flat(Blocks(Merge(fc, ks))) == ks
    ensures forall b <- Blocks(Merge(fc, ks)) :: b.functionCode == fc
    ensures Merge(fc, ks).pending.Some? <==> ks != []
  {
    hide W16;
    if ks != [] {
      var n := |ks| - 1;
      MergeKeepsPoints(fc, ks[..n]);
      var plan, next := Merge(fc, ks[..n]), Merge(fc, ks);
      assert ks == ks[..n] + [ks[n]];
      if Fits(plan, ks[n]) {
        FlatSnoc(plan.closed, plan.pending.value);
        FlatSnoc(plan.closed, next.pending.value);
        assert plan.pending.value in Blocks(plan);
      } else {
        FlatSnoc(next.closed, next.pending.value);
      }
    }
  }

  // ---------------------------------------------------------------------------
  // When uint16 does not matter

  const SAFE_END := 65527

  lemma StepIsIdeal(fc: Byte, plan: Plan, p: DataPoint)
    requires End(p) <= SAFE_END && Known(p)
    requires plan.pending.Some? ==>
               var b := plan.pending.value;
               0 <= b.start <= p.address && 1 <= b.quantity <= MAX_REGISTERS_PER_BLOCK && b.start + b.quantity <= SAFE_END
    ensures Step(fc, plan, p) == IdealStep(fc, plan, p)
    ensures var b := Step(fc, plan, p).pending.value;
            0 <= b.start <= p.address && 1 <= b.quantity <= MAX_REGISTERS_PER_BLOCK && b.start + b.quantity <= SAFE_END
  {
    assert W16(End(p)) == End(p);
    if plan.pending.Some? {
      var b := plan.pending.value;
      assert W16(b.start + b.quantity + MAX_GAP_REGISTERS) == b.start + b.quantity + MAX_GAP_REGISTERS;
      assert W16(b.start + b.quantity) == b.start + b.quantity;
      assert W16(End(p) - b.start) == End(p) - b.start;
    }
  }

  /** Up to 65527 nothing wraps, not even the gap test. */
  lemma {:induction false} MergeIsIdealBelow(fc: Byte, ks: seq<DataPoint>)
    requires Sorted(ks) && AllKnown(ks)
    requires forall k <- ks :: End(k) <= SAFE_END
    ensures Merge(fc, ks) == IdealMerge(fc, ks)
    ensures var pending := Merge(fc, ks).pending;
            && (pending.Some? <==> ks != [])
            && (pending.Some? ==>
                  var b := pending.value;
                  0 <= b.start <= ks[|ks| - 1].address && 1 <= b.quantity <= MAX_REGISTERS_PER_BLOCK && b.start + b.quantity <= SAFE_END)
  {
    hide Step;
    hide IdealStep;
    if ks != [] {
      var n := |ks| - 1;
      SortedPrefix(ks, n);
      MergeIsIdealBelow(fc, ks[..n]);
      assert ks[n] in ks;
      StepIsIdeal(fc, Merge(fc, ks[..n]), ks[n]);
      StepPending(fc, Merge(fc, ks[..n]), ks[n]);
    }
  }

  /** The step that takes the last point there, or opens a block past it. */
  lemma LastStepIsIdeal(fc: Byte, plan: Plan, p: DataPoint)
    requires Known(p) && (Fits(plan, p) ==> End(p) <= TWO16 - 1)
    requires plan.pending.Some? ==>
               var b := plan.pending.value;
               0 <= b.start <= p.address && 1 <= b.quantity <= MAX_REGISTERS_PER_BLOCK && b.start + b.quantity <= SAFE_END
    ensures Step(fc, plan, p) == IdealStep(fc, plan, p)
  {
    if plan.pending.Some? {
      var b := plan.pending.value;
      assert W16(b.start + b.quantity + MAX_GAP_REGISTERS) == b.start + b.quantity + MAX_GAP_REGISTERS;
      assert W16(b.start + b.quantity) == b.start + b.quantity;
      assert p.address <= b.start + b.quantity + MAX_GAP_REGISTERS ==> W16(W16(End(p)) - b.start) == End(p) - b.start;
      assert End(p) <= TWO16 - 1 ==> W16(End(p)) == End(p);
    }
  }

  /** If every point but the last in address order ends at or below 65527, and the last is not
      merged with an end that wraps, the planner follows the ideal rule. */
  lemma MergeIsIdeal(fc: Byte, ks: seq<DataPoint>)
    requires Sorted(ks) && AllKnown(ks) && (forall i :: 0 <= i < |ks| - 1 ==> End(ks[i]) <= SAFE_END)
    requires ks != [] ==> !MergesWrapped(fc, ks, |ks| - 1)
    ensures Merge(fc, ks) == IdealMerge(fc, ks)
  {
    if ks != [] {
      var n := |ks| - 1;
      SortedPrefix(ks, n);
      MergeIsIdealBelow(fc, ks[..n]);
      assert Known(ks[n]);
      assert n > 0 ==> ks[..n][n - 1] == ks[n - 1];
      LastStepIsIdeal(fc, Merge(fc, ks[..n]), ks[n]);
    }
  }

  lemma StepPending(fc: Byte, plan: Plan, p: DataPoint)
    ensures Step(fc, plan, p).pending.Some?
  {
  }

  // ---------------------------------------------------------------------------
  // Coverage, exactly

  /** A block that does not reach past register 65534, and covers exactly its points that do
      not either; or a single point opened at the very end. */
  ghost predicate CodeShape(b: Block) {
    && b.points != [] && 0 <= b.start < TWO16
    && 1 <= b.quantity <= MAX_REGISTERS_PER_BLOCK
    && (forall p <- b.points :: b.start <= p.address)
    && (b.start + b.quantity <= TWO16 - 1 ==>
          forall p <- b.points :: End(p) <= b.start + b.quantity <==> End(p) <= TWO16 - 1)
    && (b.start + b.quantity > TWO16 - 1 ==>
          |b.points| == 1 && b.start == b.points[0].address && b.start + b.quantity == End(b.points[0]))
  }

  /** The guard of the branch that goes wrong: a point whose end wraps is merged. */
  ghost predicate MergesWrapped(fc: Byte, ks: seq<DataPoint>, i: nat)
    requires i < |ks|
  {
    Fits(Merge(fc, ks[..i]), ks[i]) && End(ks[i]) > TWO16 - 1
  }

  /** uint16 arithmetic on a merge: the block it goes into has not wrapped, and the end is
      either exact or a small number. */
  lemma MergeArithmetic(start: int, quantity: int, address: int, end: int)
    requires 0 <= start <= address < TWO16 && 1 <= quantity <= MAX_REGISTERS_PER_BLOCK && address < end <= address + 4
    requires start + quantity > TWO16 - 1 ==> quantity <= 4
    requires address <= W16(start + quantity + MAX_GAP_REGISTERS)
    requires W16(W16(end) - start) <= MAX_REGISTERS_PER_BLOCK
    ensures start + quantity <= TWO16 - 1
    ensures W16(start + quantity) == start + quantity
    ensures end <= TWO16 - 1 ==> W16(end) == end && W16(end - start) == end - start <= MAX_REGISTERS_PER_BLOCK
    ensures end > TWO16 - 1 ==> W16(end) < start + quantity
  {
  }

  lemma ExtendShape(b: Block, p: DataPoint, plan: Plan)
    requires CodeShape(b) && Known(p) && plan.pending == Some(b) && Fits(plan, p)
    requires b.start <= p.address
    ensures var end := W16(End(p));
            var b' := Extended(b, if end > W16(b.start + b.quantity) then W16(end - b.start) else b.quantity, p);
            && CodeShape(b') && b'.start + b'.quantity <= TWO16 - 1
            && (ValidBlock(b') <==> ValidBlock(b) && End(p) <= TWO16 - 1)
  {
    MergeArithmetic(b.start, b.quantity, p.address, End(p));
    hide W16;
    hide Regs;
    var b' := Extended(b, if W16(End(p)) > W16(b.start + b.quantity) then W16(W16(End(p)) - b.start) else b.quantity, p);
    assert forall q <- b'.points :: q in b.points || q == p;
    assert p in b'.points;
    assert forall q <- b.points :: q in b'.points;
  }

  ghost predicate NeverMergesWrapped(fc: Byte, ks: seq<DataPoint>) {
    forall i :: 0 <= i < |ks| ==> !MergesWrapped(fc, ks, i)
  }

  lemma NeverMergesWrappedSnoc(fc: Byte, ks: seq<DataPoint>, n: nat)
    requires n + 1 == |ks|
    ensures NeverMergesWrapped(fc, ks) <==> NeverMergesWrapped(fc, ks[..n]) && !MergesWrapped(fc, ks, n)
  {
    hide Merge;
    forall i | 0 <= i < n ensures MergesWrapped(fc, ks, i) <==> MergesWrapped(fc, ks[..n], i) {
      assert ks[..n][..i] == ks[..i];
    }
  }

  /** Every block is valid if and only if no point whose end wraps is merged into one. */
  lemma {:induction false} CoverageIff(fc: Byte, ks: seq<DataPoint>)
    requires Sorted(ks) && AllKnown(ks)
    ensures AllValid(Blocks(Merge(fc, ks))) <==> NeverMergesWrapped(fc, ks)
    ensures forall b <- Blocks(Merge(fc, ks)) :: CodeShape(b)
    ensures var pending := Merge(fc, ks).pending;
            && (pending.Some? <==> ks != [])
            && (pending.Some? ==> pending.value.start <= ks[|ks| - 1].address)
  {
    hide W16;
    hide CodeShape;
    hide ValidBlock;
    hide NeverMergesWrapped;
    hide AllValid;
    if ks == [] {
      NothingPlanned(fc);
    } else {
      var n := |ks| - 1;
      SortedPrefix(ks, n);
      CoverageIff(fc, ks[..n]);
      NeverMergesWrappedSnoc(fc, ks, n);
      var plan, next, p := Merge(fc, ks[..n]), Merge(fc, ks), ks[n];
      assert ks[..n] != [] ==> ks[n - 1].address <= p.address;
      if Fits(plan, p) {
        assert plan.pending.value in Blocks(plan);
        ExtendShape(plan.pending.value, p, plan);
        LastBlockValid(plan.closed, plan.pending.value);
      } else {
        SingleShape(fc, p);
      }
      LastBlockValid(next.closed, next.pending.value);
    }
  }

  lemma NothingPlanned(fc: Byte)
    ensures AllValid([]) && NeverMergesWrapped(fc, [])
  {
  }

  lemma SingleShape(fc: Byte, p: DataPoint)
    requires Known(p)
    ensures var b := Block(fc, p.address, Regs(p), [p]);
            CodeShape(b) && ValidBlock(b)
  {
  }

  lemma LastBlockValid(closed: seq<Block>, b: Block)
    ensures AllValid(closed + [b]) <==> AllValid(closed) && ValidBlock(b)
  {
    assert b in closed + [b];
  }
}
