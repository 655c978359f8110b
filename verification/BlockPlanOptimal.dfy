/** The greedy plan uses the fewest blocks the two limits allow. */
module BlockPlanOptimal {
  import opened Ints
  import opened Registers
  import opened BlockPlan

  // ---------------------------------------------------------------------------
  // The limits, for any way of sharing out points sorted by address

  ghost predicate Together(assign: seq<nat>, i: nat, j: nat)
    requires i < |assign| && j < |assign|
  {
    assign[i] == assign[j]
  }

  /** Points read together span at most 125 registers. */
  ghost predicate SpanOk(ks: seq<DataPoint>, assign: seq<nat>)
    requires |assign| == |ks|
  {
    forall i, j :: 0 <= i < |ks| && 0 <= j < |ks| && Together(assign, i, j) ==>
      End(ks[j]) - ks[i].address <= 125
  }

  /** A point that is not the first of its block starts at most 8 registers after the end of
      some point before it in the block. */
  ghost predicate GapOk(ks: seq<DataPoint>, assign: seq<nat>)
    requires |assign| == |ks|
  {
    forall h, j :: 0 <= h < j < |ks| && Together(assign, h, j) ==>
      exists i :: 0 <= i < j && Together(assign, i, j) && ks[j].address <= End(ks[i]) + 8
  }

  /** `assign` shares the points out into at most n blocks within the limits. */
  ghost predicate Feasible(ks: seq<DataPoint>, assign: seq<nat>, n: nat) {
    && |assign| == |ks| && (forall i :: 0 <= i < |assign| ==> assign[i] < n)
    && SpanOk(ks, assign) && GapOk(ks, assign)
  }

  // ---------------------------------------------------------------------------
  // Where the greedy plan opens blocks

  function MaxEnd(ks: seq<DataPoint>): int {
    if ks == [] then 0
    else
      var before, e := MaxEnd(ks[..|ks| - 1]), End(ks[|ks| - 1]);
      if e > before then e else before
  }

  /** The index of the first point of each block. */
  function Opens(fc: Byte, ks: seq<DataPoint>): seq<nat> {
    if ks == [] then []
    else
      var n := |ks| - 1;
      if IdealFits(IdealMerge(fc, ks[..n]), ks[n]) then Opens(fc, ks[..n]) else Opens(fc, ks[..n]) + [n]
  }

  lemma {:induction false} MaxEndBounds(ks: seq<DataPoint>, i: nat)
    requires i < |ks|
    ensures End(ks[i]) <= MaxEnd(ks)
  {
    var n := |ks| - 1;
    if i < n {
      MaxEndBounds(ks[..n], i);
    }
  }

  /** The block being extended starts at the last opening point and ends where the furthest
      point so far ends. */
  lemma {:induction false} PendingTracksMax(fc: Byte, ks: seq<DataPoint>)
    requires Sorted(ks) && AllKnown(ks) && ks != []
    ensures var plan, opens := IdealMerge(fc, ks), Opens(fc, ks);
            && |opens| == |Blocks(plan)| >= 1
            && opens[|opens| - 1] < |ks|
            && plan.pending.Some?
            && var b := plan.pending.value;
               && b.start == ks[opens[|opens| - 1]].address <= ks[|ks| - 1].address
               && b.start + b.quantity == MaxEnd(ks)
               && 1 <= b.quantity <= MAX_REGISTERS_PER_BLOCK
  {
    var n := |ks| - 1;
    assert Known(ks[n]);
    if n > 0 {
      SortedPrefix(ks, n);
      PendingTracksMax(fc, ks[..n]);
      assert ks[..n][n - 1] == ks[n - 1];
    } else {
      assert ks[..0] == [];
    }
  }

  /** Why the point at x opened a block after the one opened at a: too far from everything
      before it, or the block would have grown too long. Either way it ends past everything
      before it. */
  ghost predicate Apart(ks: seq<DataPoint>, a: nat, x: nat)
    requires a < x < |ks|
  {
    && End(ks[x]) > MaxEnd(ks[..x])
    && (ks[x].address > MaxEnd(ks[..x]) + MAX_GAP_REGISTERS || End(ks[x]) - ks[a].address > MAX_REGISTERS_PER_BLOCK)
  }

  /** The point that does not fit the block in progress. */
  lemma MisfitApart(fc: Byte, ks: seq<DataPoint>, n: nat)
    requires Sorted(ks) && AllKnown(ks) && n + 1 == |ks| && n > 0
    requires !IdealFits(IdealMerge(fc, ks[..n]), ks[n])
    ensures var opens := Opens(fc, ks[..n]);
            |opens| >= 1 && opens[|opens| - 1] < n && Apart(ks, opens[|opens| - 1], n)
  {
    hide Opens;
    hide IdealMerge;
    SortedPrefix(ks, n);
    PendingTracksMax(fc, ks[..n]);
    assert Known(ks[n]);
    assert ks[..n][n - 1] == ks[n - 1];
  }

  lemma {:induction false} OpensApart(fc: Byte, ks: seq<DataPoint>, b: nat)
    requires Sorted(ks) && AllKnown(ks) && b + 1 < |Opens(fc, ks)|
    ensures var opens := Opens(fc, ks);
            opens[b] < opens[b + 1] < |ks| && Apart(ks, opens[b], opens[b + 1])
  {
    hide IdealMerge;
    hide IdealFits;
    hide MaxEnd;
    var n := |ks| - 1;
    var init, opens := ks[..n], Opens(fc, ks[..n]);
    SortedPrefix(ks, n);
    if b + 1 < |opens| {
      OpensApart(fc, init, b);
      assert init[..opens[b + 1]] == ks[..opens[b + 1]];
    } else {
      MisfitApart(fc, ks, n);
    }
  }

  lemma {:induction false} OpensAscend(fc: Byte, ks: seq<DataPoint>, b1: nat, b2: nat)
    requires Sorted(ks) && AllKnown(ks) && b1 < b2 < |Opens(fc, ks)|
    ensures Opens(fc, ks)[b1] < Opens(fc, ks)[b2] < |ks|
    ensures End(ks[Opens(fc, ks)[b1]]) < End(ks[Opens(fc, ks)[b2]])
    decreases b2 - b1
  {
    hide Opens;
    var opens := Opens(fc, ks);
    OpensApart(fc, ks, b1);
    MaxEndBounds(ks[..opens[b1 + 1]], opens[b1]);
    if b1 + 1 < b2 {
      OpensAscend(fc, ks, b1 + 1, b2);
    }
  }

  // ---------------------------------------------------------------------------
  // Two opening points never share a block

  lemma LeastTogether(assign: seq<nat>, x: nat, y: nat, c: nat) returns (p: nat)
    requires x <= y < |assign| && assign[y] == c
    ensures x <= p <= y && assign[p] == c && forall i :: x <= i < p ==> assign[i] != c
  {
    p := x;
    while assign[p] != c
      invariant x <= p <= y && forall i :: x <= i < p ==> assign[i] != c
      decreases y - p
    {
      p := p + 1;
    }
  }

  /** In a feasible sharing nothing reaches across a gap of more than 8 registers. */
  lemma GapSeparates(ks: seq<DataPoint>, assign: seq<nat>, n: nat, a: nat, x: nat, y: nat)
    requires Sorted(ks) && Feasible(ks, assign, n) && a < x <= y < |ks|
    requires ks[x].address > MaxEnd(ks[..x]) + MAX_GAP_REGISTERS
    ensures assign[a] != assign[y]
  {
    if assign[a] == assign[y] {
      var p := LeastTogether(assign, x, y, assign[y]);
      assert Together(assign, a, p);
      var q :| 0 <= q < p && Together(assign, q, p) && ks[p].address <= End(ks[q]) + MAX_GAP_REGISTERS;
      assert q < x;
      MaxEndBounds(ks[..x], q);
      assert false;
    }
  }

  lemma OpenersNeverShare(fc: Byte, ks: seq<DataPoint>, assign: seq<nat>, n: nat, b1: nat, b2: nat)
    requires Sorted(ks) && AllKnown(ks) && Feasible(ks, assign, n)
    requires b1 < b2 < |Opens(fc, ks)|
    ensures Opens(fc, ks)[b1] < Opens(fc, ks)[b2] < |ks|
    ensures assign[Opens(fc, ks)[b1]] != assign[Opens(fc, ks)[b2]]
  {
    hide Opens;
    hide GapOk;
    var opens := Opens(fc, ks);
    OpensAscend(fc, ks, b1, b2);
    OpensApart(fc, ks, b1);
    if b1 + 1 < b2 {
      OpensAscend(fc, ks, b1 + 1, b2);
    }
    var a, x, y := opens[b1], opens[b1 + 1], opens[b2];
    if ks[x].address > MaxEnd(ks[..x]) + MAX_GAP_REGISTERS {
      GapSeparates(ks, assign, n, a, x, y);
    } else {
      assert End(ks[y]) - ks[a].address > MAX_REGISTERS_PER_BLOCK;
      assert !Together(assign, a, y);
    }
  }

  function Below(n: nat): (r: set<nat>)
    ensures |r| == n && forall i: nat :: i in r <==> i < n
  {
    if n == 0 then {} else Below(n - 1) + {n - 1}
  }

  function Elements(xs: seq<nat>): (r: set<nat>)
    ensures forall x :: x in r <==> x in xs
  {
    if xs == [] then {}
    else
      assert xs == xs[..|xs| - 1] + [xs[|xs| - 1]];
      Elements(xs[..|xs| - 1]) + {xs[|xs| - 1]}
  }

  lemma {:induction false} DistinctCount(xs: seq<nat>)
    requires forall i, j :: 0 <= i < j < |xs| ==> xs[i] != xs[j]
    ensures |Elements(xs)| == |xs|
  {
    if xs != [] {
      DistinctCount(xs[..|xs| - 1]);
    }
  }

  lemma Pigeonhole(xs: seq<nat>, n: nat)
    requires forall i :: 0 <= i < |xs| ==> xs[i] < n
    requires forall i, j :: 0 <= i < j < |xs| ==> xs[i] != xs[j]
    ensures |xs| <= n
  {
    DistinctCount(xs);
    assert Elements(xs) <= Below(n);
    assert Below(n) == Elements(xs) + (Below(n) - Elements(xs));
  }

  lemma {:induction false} OneOpenPerBlock(fc: Byte, ks: seq<DataPoint>)
    requires Sorted(ks) && AllKnown(ks)
    ensures |Opens(fc, ks)| == |Blocks(IdealMerge(fc, ks))|
    ensures forall b :: 0 <= b < |Opens(fc, ks)| ==> Opens(fc, ks)[b] < |ks|
  {
    if ks != [] {
      PendingTracksMax(fc, ks);
      OneOpenPerBlock(fc, ks[..|ks| - 1]);
    }
  }

  /** No sharing within the limits uses fewer blocks than the ideal greedy rule. */
  lemma IdealIsLeast(fc: Byte, ks: seq<DataPoint>, assign: seq<nat>, n: nat)
    requires Sorted(ks) && AllKnown(ks) && Feasible(ks, assign, n)
    ensures |Blocks(IdealMerge(fc, ks))| <= n
  {
    hide Opens;
    OneOpenPerBlock(fc, ks);
    var opens := Opens(fc, ks);
    var xs := seq(|opens|, b requires 0 <= b < |opens| => assign[opens[b]]);
    forall i, j | 0 <= i < j < |xs| ensures xs[i] != xs[j] {
      OpenersNeverShare(fc, ks, assign, n, i, j);
    }
    Pigeonhole(xs, n);
  }

  // ---------------------------------------------------------------------------
  // And it is within them itself

  /** The number of the block each point is read in. */
  function Placed(fc: Byte, ks: seq<DataPoint>): (assign: seq<nat>)
    ensures |assign| == |ks|
  {
    if ks == [] then []
    else
      var n := |ks| - 1;
      Placed(fc, ks[..n]) + [if |Opens(fc, ks)| == 0 then 0 else |Opens(fc, ks)| - 1]
  }

  /** The block in progress begins at its lowest address and reaches the furthest end. */
  ghost predicate InProgress(ks: seq<DataPoint>, assign: seq<nat>, opens: seq<nat>)
    requires |assign| == |ks|
  {
    ks != [] ==>
      && |opens| >= 1 && opens[|opens| - 1] < |ks|
      && (forall i :: 0 <= i < |ks| && assign[i] == |opens| - 1 ==> ks[opens[|opens| - 1]].address <= ks[i].address)
      && (exists i :: 0 <= i < |ks| && assign[i] == |opens| - 1 && End(ks[i]) == MaxEnd(ks))
  }

  /** Joining the last block. */
  lemma JoinFeasible(ks: seq<DataPoint>, assign: seq<nat>, m: nat, start: int, w: nat)
    requires Sorted(ks) && |ks| == |assign| + 1 && m >= 1 && Feasible(ks[..|assign|], assign, m)
    requires forall i :: 0 <= i < |assign| && assign[i] == m - 1 ==> start <= ks[i].address
    requires w < |assign| && assign[w] == m - 1
    requires ks[|assign|].address <= End(ks[w]) + MAX_GAP_REGISTERS
    requires End(ks[|assign|]) - start <= MAX_REGISTERS_PER_BLOCK
    ensures Feasible(ks, assign + [m - 1], m)
  {
    var n := |assign|;
    var init, next := ks[..n], assign + [m - 1];
    forall i, j | 0 <= i < |ks| && 0 <= j < |ks| && Together(next, i, j)
      ensures End(ks[j]) - ks[i].address <= MAX_REGISTERS_PER_BLOCK
    {
      if i < n && j < n {
        assert Together(assign, i, j);
        assert End(init[j]) - init[i].address <= MAX_REGISTERS_PER_BLOCK;
      }
    }
    forall h, j | 0 <= h < j < |ks| && Together(next, h, j)
      ensures exists i :: 0 <= i < j && Together(next, i, j) && ks[j].address <= End(ks[i]) + MAX_GAP_REGISTERS
    {
      if j < n {
        assert Together(assign, h, j);
        var i :| 0 <= i < j && Together(assign, i, j) && init[j].address <= End(init[i]) + MAX_GAP_REGISTERS;
        assert Together(next, i, j);
      } else {
        assert Together(next, w, j);
      }
    }
  }

  /** Opening a block of one's own. */
  lemma OpenFeasible(ks: seq<DataPoint>, assign: seq<nat>, m: nat)
    requires |ks| == |assign| + 1 && Feasible(ks[..|assign|], assign, m)
    ensures Feasible(ks, assign + [m], m + 1)
  {
    var n := |assign|;
    var init, next := ks[..n], assign + [m];
    forall i, j | 0 <= i < |ks| && 0 <= j < |ks| && Together(next, i, j)
      ensures End(ks[j]) - ks[i].address <= MAX_REGISTERS_PER_BLOCK
    {
      if i < n && j < n {
        assert Together(assign, i, j);
        assert End(init[j]) - init[i].address <= MAX_REGISTERS_PER_BLOCK;
      }
    }
    forall h, j | 0 <= h < j < |ks| && Together(next, h, j)
      ensures exists i :: 0 <= i < j && Together(next, i, j) && ks[j].address <= End(ks[i]) + MAX_GAP_REGISTERS
    {
      assert j < n && Together(assign, h, j);
      var i :| 0 <= i < j && Together(assign, i, j) && init[j].address <= End(init[i]) + MAX_GAP_REGISTERS;
      assert Together(next, i, j);
    }
  }

  lemma {:induction false} PlacedFacts(fc: Byte, ks: seq<DataPoint>)
    requires Sorted(ks) && AllKnown(ks)
    ensures Feasible(ks, Placed(fc, ks), |Opens(fc, ks)|)
    ensures InProgress(ks, Placed(fc, ks), Opens(fc, ks))
  {
    hide Feasible;
    hide InProgress;
    hide IdealMerge;
    hide IdealFits;
    hide MaxEnd;
    if ks == [] {
      NothingPlaced();
    } else {
      var n := |ks| - 1;
      SortedPrefix(ks, n);
      PlacedFacts(fc, ks[..n]);
      var assign, opens := Placed(fc, ks[..n]), Opens(fc, ks[..n]);
      if IdealFits(IdealMerge(fc, ks[..n]), ks[n]) {
        JoinPlaced(fc, ks, n, assign, opens);
      } else {
        OpenFeasible(ks, assign, |opens|);
        OpenPlaced(fc, ks, n, assign, opens);
      }
    }
  }

  lemma NothingPlaced()
    ensures Feasible([], [], 0) && InProgress([], [], [])
  {
  }

  /** What fitting means for the block in progress. */
  lemma JoinFacts(fc: Byte, ks: seq<DataPoint>, n: nat) returns (a: nat)
    requires Sorted(ks) && AllKnown(ks) && n + 1 == |ks| && IdealFits(IdealMerge(fc, ks[..n]), ks[n])
    ensures n > 0 && var opens := Opens(fc, ks[..n]);
            && |opens| >= 1 && a == opens[|opens| - 1] < n
            && ks[n].address <= MaxEnd(ks[..n]) + MAX_GAP_REGISTERS
            && End(ks[n]) - ks[a].address <= MAX_REGISTERS_PER_BLOCK
            && ks[a].address <= ks[n].address
  {
    hide Opens;
    assert n > 0;
    SortedPrefix(ks, n);
    PendingTracksMax(fc, ks[..n]);
    hide IdealMerge;
    a := Opens(fc, ks[..n])[|Opens(fc, ks[..n])| - 1];
  }

  lemma JoinProgress(ks: seq<DataPoint>, n: nat, assign: seq<nat>, opens: seq<nat>, w: nat)
    requires n + 1 == |ks| && |assign| == n && |opens| >= 1 && opens[|opens| - 1] < n
    requires forall i :: 0 <= i < n && assign[i] == |opens| - 1 ==> ks[opens[|opens| - 1]].address <= ks[i].address
    requires ks[opens[|opens| - 1]].address <= ks[n].address
    requires w < n && assign[w] == |opens| - 1 && End(ks[w]) == MaxEnd(ks[..n])
    ensures InProgress(ks, assign + [|opens| - 1], opens)
  {
    hide End;
    var next := assign + [|opens| - 1];
    var top := if End(ks[n]) > MaxEnd(ks[..n]) then n else w;
    assert next[top] == |opens| - 1 && End(ks[top]) == MaxEnd(ks);
  }

  lemma JoinPlaced(fc: Byte, ks: seq<DataPoint>, n: nat, assign: seq<nat>, opens: seq<nat>)
    requires Sorted(ks) && AllKnown(ks) && n + 1 == |ks| && |assign| == n
    requires opens == Opens(fc, ks[..n]) && IdealFits(IdealMerge(fc, ks[..n]), ks[n])
    requires Feasible(ks[..n], assign, |opens|) && InProgress(ks[..n], assign, opens)
    ensures |opens| >= 1 && Feasible(ks, assign + [|opens| - 1], |opens|) && InProgress(ks, assign + [|opens| - 1], opens)
  {
    hide Feasible;
    hide Opens;
    hide IdealMerge;
    hide IdealFits;
    hide Sorted;
    hide AllKnown;
    hide MaxEnd;
    hide End;
    var init, m := ks[..n], |opens|;
    var a := JoinFacts(fc, ks, n);
    var w :| 0 <= w < n && assign[w] == m - 1 && End(init[w]) == MaxEnd(init);
    forall i | 0 <= i < n && assign[i] == m - 1 ensures ks[a].address <= ks[i].address {
      assert init[a].address <= init[i].address;
    }
    hide InProgress;
    JoinFeasible(ks, assign, m, ks[a].address, w);
    JoinProgress(ks, n, assign, opens, w);
  }

  lemma OpenPlaced(fc: Byte, ks: seq<DataPoint>, n: nat, assign: seq<nat>, opens: seq<nat>)
    requires Sorted(ks) && AllKnown(ks) && n + 1 == |ks| && |assign| == n
    requires opens == Opens(fc, ks[..n]) && !IdealFits(IdealMerge(fc, ks[..n]), ks[n])
    requires Feasible(ks[..n], assign, |opens|)
    ensures InProgress(ks, assign + [|opens|], opens + [n])
  {
    hide Opens;
    hide SpanOk;
    hide GapOk;
    if n > 0 {
      MisfitApart(fc, ks, n);
    }
    hide IdealMerge;
    assert Known(ks[n]);
    var next := assign + [|opens|];
    assert next[n] == |opens| && End(ks[n]) == MaxEnd(ks);
  }

  // ---------------------------------------------------------------------------

  /** The points can be shared out into n blocks within the limits, and into no fewer. */
  ghost predicate Fewest(ks: seq<DataPoint>, n: nat) {
    (exists assign :: Feasible(ks, assign, n)) && forall assign, m :: Feasible(ks, assign, m) ==> n <= m
  }

  /** The fewest is what the ideal greedy rule uses, for all points whatever. */
  lemma FewestIff(fc: Byte, ks: seq<DataPoint>, n: nat)
    requires Sorted(ks) && AllKnown(ks)
    ensures Fewest(ks, n) <==> n == |Blocks(IdealMerge(fc, ks))|
  {
    hide Feasible;
    hide IdealMerge;
    OneOpenPerBlock(fc, ks);
    PlacedFacts(fc, ks);
    var m := |Blocks(IdealMerge(fc, ks))|;
    assert Feasible(ks, Placed(fc, ks), m);
    forall assign, n': nat | Feasible(ks, assign, n') ensures m <= n' {
      IdealIsLeast(fc, ks, assign, n');
    }
  }

  /** Past 65527 the gap test wraps: two adjacent points get two blocks though one would do. */
  lemma OptimalityIsSharp()
    ensures var p := DataPoint(1, 3, 65527, UINT16, []);
            var q := DataPoint(2, 3, 65528, UINT16, []);
            && End(p) == SAFE_END + 1
            && |Blocks(Merge(3, [p, q]))| == 2
            && Feasible([p, q], [0, 0], 1)
  {
    var p := DataPoint(1, 3, 65527, UINT16, []);
    var q := DataPoint(2, 3, 65528, UINT16, []);
    assert [p, q][..1] == [p] && [p][..0] == [];
    assert Merge(3, [p]) == Plan([], Some(Block(3, 65527, 1, [p])));
    assert !Fits(Merge(3, [p]), q);
    assert Together([0, 0], 0, 1);
  }

  /** A UINT16 at the last register, merged with one nine registers below, is left out of
      the block that is supposed to read it. */
  lemma CoverageIsSharp()
    ensures var p := DataPoint(1, 3, 65526, UINT16, []);
            var q := DataPoint(2, 3, 65535, UINT16, []);
            && Blocks(Merge(3, [p, q])) == [Block(3, 65526, 1, [p, q])]
            && !Inside(Block(3, 65526, 1, [p, q]), q)
  {
    var p := DataPoint(1, 3, 65526, UINT16, []);
    var q := DataPoint(2, 3, 65535, UINT16, []);
    assert [p, q][..1] == [p] && [p][..0] == [];
    assert Merge(3, [p]) == Plan([], Some(Block(3, 65526, 1, [p])));
    assert Fits(Merge(3, [p]), q);
    assert [p] + [q] == [p, q];
  }
}
