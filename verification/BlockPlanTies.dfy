/** Points at one address may be sorted in any order: the fewest blocks are the same. */
module BlockPlanTies {
  import opened BlockPlan
  import opened BlockPlanOptimal

  /** `places` says where in `a` each element of `b` comes from, each place once. */
  ghost predicate Rearranges(a: seq<DataPoint>, b: seq<DataPoint>, places: seq<nat>) {
    && |places| == |a| == |b|
    && (forall i :: 0 <= i < |places| ==> places[i] < |a| && b[i] == a[places[i]])
    && forall i, j :: 0 <= i < j < |places| ==> places[i] != places[j]
  }

  lemma {:induction false} RearrangementExists(a: seq<DataPoint>, b: seq<DataPoint>) returns (places: seq<nat>)
    requires multiset(a) == multiset(b)
    ensures Rearranges(a, b, places)
    decreases |b|
  {
    if b == [] {
      assert |multiset(a)| == 0;
      places := [];
    } else {
      var n := |b| - 1;
      var init, x := b[..n], b[n];
      assert b == init + [x];
      assert x in multiset(a);
      var k :| 0 <= k < |a| && a[k] == x;
      var rest := a[..k] + a[k + 1..];
      WithoutOne(a, k);
      OneLess(multiset(rest), multiset(init), x);
      var before := RearrangementExists(rest, init);
      places := seq(n, i requires 0 <= i < n => if before[i] < k then before[i] else before[i] + 1) + [k];
      MovedPlaces(a, k, init, before, places);
    }
  }

  lemma OneLess(a: multiset<DataPoint>, b: multiset<DataPoint>, x: DataPoint)
    requires a + multiset{x} == b + multiset{x}
    ensures a == b
  {
    assert a == (a + multiset{x}) - multiset{x};
    assert b == (b + multiset{x}) - multiset{x};
  }

  lemma WithoutOne(a: seq<DataPoint>, k: nat)
    requires k < |a|
    ensures multiset(a) == multiset(a[..k] + a[k + 1..]) + multiset{a[k]}
  {
    assert a == (a[..k] + [a[k]]) + a[k + 1..];
  }

  lemma MovedPlaces(a: seq<DataPoint>, k: nat, init: seq<DataPoint>, before: seq<nat>, places: seq<nat>)
    requires k < |a| && |places| == |init| + 1
    requires Rearranges(a[..k] + a[k + 1..], init, before)
    requires forall i :: 0 <= i < |init| ==> places[i] == if before[i] < k then before[i] else before[i] + 1
    requires places[|init|] == k
    ensures Rearranges(a, init + [a[k]], places)
  {
    var rest := a[..k] + a[k + 1..];
    forall i | 0 <= i < |init| ensures places[i] < |a| && init[i] == a[places[i]] {
      assert init[i] == rest[before[i]];
    }
    forall i, j | 0 <= i < j < |places| ensures places[i] != places[j] {
      if j < |init| {
        assert before[i] != before[j];
      }
    }
  }

  /** Every place is taken. */
  lemma PlaceTaken(a: seq<DataPoint>, b: seq<DataPoint>, places: seq<nat>, x: nat) returns (i: nat)
    requires Rearranges(a, b, places) && x < |a|
    ensures i < |places| && places[i] == x
  {
    DistinctCount(places);
    FillsUp(Elements(places), Below(|a|));
    hide Rearranges;
    assert x in Elements(places);
    i :| 0 <= i < |places| && places[i] == x;
  }

  lemma FillsUp(xs: set<nat>, ys: set<nat>)
    requires xs <= ys && |xs| == |ys|
    ensures xs == ys
  {
    assert ys == xs + (ys - xs);
    assert |ys - xs| == 0;
  }

  function Moved(assign: seq<nat>, places: seq<nat>): (out: seq<nat>)
    requires forall i :: 0 <= i < |places| ==> places[i] < |assign|
    ensures |out| == |places| && forall i :: 0 <= i < |places| ==> out[i] == assign[places[i]]
  {
    seq(|places|, i requires 0 <= i < |places| => assign[places[i]])
  }

  lemma FeasibleMoved(ks: seq<DataPoint>, ks': seq<DataPoint>, places: seq<nat>, assign: seq<nat>, n: nat)
    requires Sorted(ks) && Sorted(ks') && AllKnown(ks) && Rearranges(ks, ks', places) && Feasible(ks, assign, n)
    ensures Feasible(ks', Moved(assign, places), n)
  {
    var next := Moved(assign, places);
    forall i, j | 0 <= i < |ks'| && 0 <= j < |ks'| && Together(next, i, j)
      ensures End(ks'[j]) - ks'[i].address <= MAX_REGISTERS_PER_BLOCK
    {
      assert Together(assign, places[i], places[j]);
    }
    hide SpanOk;
    forall h, j | 0 <= h < j < |ks'| && Together(next, h, j)
      ensures exists i :: 0 <= i < j && Together(next, i, j) && ks'[j].address <= End(ks'[i]) + MAX_GAP_REGISTERS
    {
      var i := GapMoved(ks, ks', places, assign, n, h, j);
    }
  }

  /** The point that bridges the gap before j: a tie with it does, or one strictly before the
      first point at j's address, which precedes j in any order. */
  lemma GapMoved(ks: seq<DataPoint>, ks': seq<DataPoint>, places: seq<nat>, assign: seq<nat>, n: nat, h: nat, j: nat)
    returns (i: nat)
    requires Sorted(ks) && Sorted(ks') && AllKnown(ks) && Rearranges(ks, ks', places) && Feasible(ks, assign, n)
    requires h < j < |ks'| && assign[places[h]] == assign[places[j]]
    ensures i < j && assign[places[i]] == assign[places[j]] && ks'[j].address <= End(ks'[i]) + MAX_GAP_REGISTERS
  {
    hide SpanOk;
    var a := ks'[j].address;
    if ks'[h].address == a {
      i := h;
    } else {
      var first := FirstAt(ks, assign, places[j]);
      assert places[h] < first;
      assert Together(assign, places[h], first);
      var x :| 0 <= x < first && Together(assign, x, first) && ks[first].address <= End(ks[x]) + MAX_GAP_REGISTERS;
      assert ks[x].address < a;
      i := PlaceTaken(ks, ks', places, x);
    }
  }

  /** The first point of j's block at j's address. */
  lemma FirstAt(ks: seq<DataPoint>, assign: seq<nat>, j: nat) returns (f: nat)
    requires Sorted(ks) && |assign| == |ks| && j < |ks|
    ensures f <= j && assign[f] == assign[j] && ks[f].address == ks[j].address
    ensures forall i :: 0 <= i < f && assign[i] == assign[j] ==> ks[i].address < ks[j].address
  {
    f := 0;
    while assign[f] != assign[j] || ks[f].address != ks[j].address
      invariant 0 <= f <= j
      invariant forall i :: 0 <= i < f ==> assign[i] != assign[j] || ks[i].address != ks[j].address
      decreases j - f
    {
      f := f + 1;
    }
  }

  /** So the fewest blocks do not depend on how ties are sorted. */
  lemma FewestRearranged(ks: seq<DataPoint>, ks': seq<DataPoint>, n: nat)
    requires Sorted(ks) && Sorted(ks') && AllKnown(ks) && multiset(ks) == multiset(ks') && Fewest(ks, n)
    ensures Fewest(ks', n)
  {
    hide Feasible;
    forall k | k in ks' ensures Known(k) {
      assert k in multiset(ks);
    }
    var places := RearrangementExists(ks, ks');
    var back := RearrangementExists(ks', ks);
    var assign :| Feasible(ks, assign, n);
    AssignsAll(ks, assign, n);
    FeasibleMoved(ks, ks', places, assign, n);
    forall other, m: nat | Feasible(ks', other, m) ensures n <= m {
      AssignsAll(ks', other, m);
      FeasibleMoved(ks', ks, back, other, m);
    }
  }

  lemma AssignsAll(ks: seq<DataPoint>, assign: seq<nat>, n: nat)
    requires Feasible(ks, assign, n)
    ensures |assign| == |ks|
  {
  }
}
