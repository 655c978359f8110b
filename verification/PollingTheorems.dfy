/** What holds of every trace of the polling goroutine. */
module PollingTheorems {
  import opened Ints
  import opened Registers
  import opened BlockPlan
  import opened BlockPlanner
  import opened BlockReads
  import opened Polling

  /** The unit id in force: the last one set. */
  function UnitAfter(events: seq<Event>): Option<Byte> {
    if events == [] then None
    else
      var last := events[|events| - 1];
      if last.SetUnit? then Some(last.unit) else UnitAfter(events[..|events| - 1])
  }

  lemma {:induction false} UnitKept(before: seq<Event>, more: seq<Event>)
    requires forall e <- more :: !e.SetUnit?
    ensures UnitAfter(before + more) == UnitAfter(before)
  {
    if more == [] {
      assert before + more == before;
    } else {
      var n := |more| - 1;
      UnitKept(before, more[..n]);
      assert (before + more)[..|before + more| - 1] == before + more[..n];
      assert more[n] in more;
    }
  }

  // ---------------------------------------------------------------------------
  // One visit

  /** A visit only reads and emits, and reads exactly its planned blocks. */
  lemma {:induction false} VisitOnlyReads(d: Device, bs: seq<Block>, results: seq<ReadResult>)
    requires |results| == |bs| && Addressable(bs)
    ensures forall e <- VisitEvents(d, bs, results) ::
              e.Emit? || exists b <- bs :: e == Read(b.functionCode, b.start, b.quantity)
  {
    if bs != [] {
      var n := |bs| - 1;
      VisitOnlyReads(d, bs[..n], results[..n]);
      assert bs == bs[..n] + [bs[n]];
      var before := VisitEvents(d, bs[..n], results[..n]);
      forall e | e in VisitEvents(d, bs, results)
        ensures e.Emit? || exists b <- bs :: e == Read(b.functionCode, b.start, b.quantity)
      {
        if e in before && !e.Emit? {
          var b :| b in bs[..n] && e == Read(b.functionCode, b.start, b.quantity);
          assert b in bs;
        } else if e == Read(bs[n].functionCode, bs[n].start, bs[n].quantity) {
          assert bs[n] in bs;
        }
      }
    }
  }

  /** Each answer belongs to its point and carries a value exactly when it is good. */
  lemma AnswerOk(d: Device, b: Block, r: ReadResult, p: DataPoint)
    requires 0 <= b.start < TWO16
    ensures var x := Answer(d, b, r, p);
            x.deviceId == d.id && x.datapointId == p.id && (x.value.Some? <==> x.quality == GoodQuality)
  {
    hide Decoded;
  }

  lemma {:induction false} ReadingsFollowPoints(d: Device, bs: seq<Block>, results: seq<ReadResult>)
    requires |results| == |bs| && Addressable(bs)
    ensures var rs := VisitReadings(d, bs, results);
            && |rs| == |Flat(bs)|
            && forall i :: 0 <= i < |rs| ==>
                 rs[i].deviceId == d.id && rs[i].datapointId == Flat(bs)[i].id
                 && (rs[i].value.Some? <==> rs[i].quality == GoodQuality)
  {
    hide Answer;
    if bs != [] {
      var n := |bs| - 1;
      ReadingsFollowPoints(d, bs[..n], results[..n]);
      forall i | 0 <= i < |bs[n].points|
        ensures var x := Answers(d, bs[n], results[n])[i];
                x.deviceId == d.id && x.datapointId == bs[n].points[i].id && (x.value.Some? <==> x.quality == GoodQuality)
      {
        AnswerOk(d, bs[n], results[n], bs[n].points[i]);
      }
    }
  }

  function Emitted(events: seq<Event>): seq<Reading> {
    if events == [] then []
    else
      var last := events[|events| - 1];
      if last.Emit? then Emitted(events[..|events| - 1]) + [last.reading] else Emitted(events[..|events| - 1])
  }

  lemma {:induction false} EmittedAppend(a: seq<Event>, b: seq<Event>)
    ensures Emitted(a + b) == Emitted(a) + Emitted(b)
  {
    if b == [] {
      assert a + b == a;
    } else {
      EmittedAppend(a, b[..|b| - 1]);
      assert (a + b)[..|a + b| - 1] == a + b[..|b| - 1];
    }
  }

  lemma {:induction false} EmittedEmits(rs: seq<Reading>)
    ensures Emitted(Emits(rs)) == rs
  {
    if rs != [] {
      var n := |rs| - 1;
      EmittedEmits(rs[..n]);
      assert Emits(rs)[..n] == Emits(rs[..n]);
      assert rs == rs[..n] + [rs[n]];
    }
  }

  lemma {:induction false} VisitEmits(d: Device, bs: seq<Block>, results: seq<ReadResult>)
    requires |results| == |bs| && Addressable(bs)
    ensures Emitted(VisitEvents(d, bs, results)) == VisitReadings(d, bs, results)
  {
    if bs != [] {
      var n := |bs| - 1;
      VisitEmits(d, bs[..n], results[..n]);
      var before := VisitEvents(d, bs[..n], results[..n]);
      var read := [Read(bs[n].functionCode, bs[n].start, bs[n].quantity)];
      var answers := Answers(d, bs[n], results[n]);
      EmittedAppend(before + read, Emits(answers));
      EmittedAppend(before, read);
      EmittedEmits(answers);
      assert Emitted(read) == [];
      assert Emitted(before) + [] == Emitted(before);
    }
  }

  // ---------------------------------------------------------------------------
  // The blocks of a visit hold each known point once

  lemma {:induction false} GroupCount(ps: seq<DataPoint>, fc: Byte, p: DataPoint)
    ensures multiset(GroupOf(ps, fc))[p] == if p.functionCode == fc then multiset(ps)[p] else 0
  {
    if ps != [] {
      var n := |ps| - 1;
      GroupCount(ps[..n], fc, p);
      assert ps == ps[..n] + [ps[n]];
    }
  }

  /** A point occurs only in blocks of its own function code. */
  lemma {:induction false} FlatCount(bs: seq<Block>, p: DataPoint)
    requires forall b <- bs :: b.functionCode != p.functionCode ==> p !in b.points
    ensures multiset(Flat(bs))[p] == multiset(Flat(BlocksFor(bs, p.functionCode)))[p]
  {
    if bs != [] {
      var n := |bs| - 1;
      assert bs == bs[..n] + [bs[n]];
      FlatCount(bs[..n], p);
      if bs[n].functionCode == p.functionCode {
        FlatSnoc(BlocksFor(bs[..n], p.functionCode), bs[n]);
      } else {
        assert p !in multiset(bs[n].points);
        assert BlocksFor(bs, p.functionCode) == BlocksFor(bs[..n], p.functionCode);
      }
      assert multiset(Flat(bs)) == multiset(Flat(bs[..n])) + multiset(bs[n].points);
    }
  }

  lemma CodesMatch(d: Device, bs: seq<Block>, b: Block, p: DataPoint)
    requires forall fc: Byte :: PlannedFrom(BlocksFor(bs, fc), GroupOf(d.points, fc), fc)
    requires b in bs && p in b.points
    ensures p.functionCode == b.functionCode
  {
    hide PlannedFrom;
    hide AllValid;
    var fc := b.functionCode;
    InBlocksFor(bs, b);
    InFlat(BlocksFor(bs, fc), b, p);
    PlanValid(BlocksFor(bs, fc), GroupOf(d.points, fc), fc);
    assert p in multiset(Flat(BlocksFor(bs, fc)));
    KnownCount(GroupOf(d.points, fc), p);
    GroupCount(d.points, fc, p);
  }

  lemma VisitCoversPoints(d: Device, bs: seq<Block>)
    requires forall fc: Byte :: PlannedFrom(BlocksFor(bs, fc), GroupOf(d.points, fc), fc)
    ensures multiset(Flat(bs)) == multiset(KnownOf(d.points))
  {
    hide PlannedFrom;
    hide AllValid;
    forall p: DataPoint ensures multiset(Flat(bs))[p] == multiset(KnownOf(d.points))[p] {
      forall b | b in bs && p in b.points ensures p.functionCode == b.functionCode {
        CodesMatch(d, bs, b, p);
      }
      FlatCount(bs, p);
      PlanValid(BlocksFor(bs, p.functionCode), GroupOf(d.points, p.functionCode), p.functionCode);
      KnownCount(GroupOf(d.points, p.functionCode), p);
      GroupCount(d.points, p.functionCode, p);
      KnownCount(d.points, p);
    }
  }

  /** A device visit emits exactly one reading per known-type point, whatever each read's
      outcome, and a value is present exactly when the quality is good. */
  lemma OneReadingPerPoint(d: Device, bs: seq<Block>, results: seq<ReadResult>)
    requires PlannedVisit(d, bs, results)
    ensures var rs := Emitted(VisitEvents(d, bs, results));
            && |rs| == |Flat(bs)| && multiset(Flat(bs)) == multiset(KnownOf(d.points))
            && forall i :: 0 <= i < |rs| ==>
                 rs[i].deviceId == d.id && rs[i].datapointId == Flat(bs)[i].id
                 && (rs[i].value.Some? <==> rs[i].quality == GoodQuality)
  {
    hide PlannedFrom;
    VisitCoversPoints(d, bs);
    VisitEmits(d, bs, results);
    ReadingsFollowPoints(d, bs, results);
  }

  // ---------------------------------------------------------------------------
  // What the readings say

  /** The reading of a point from a block: the read's own quality if it failed; else the value
      of the point's bytes in the answer, or invalid if they are not there or do not decode. */
  ghost predicate ReadingOf(d: Device, b: Block, r: ReadResult, p: DataPoint, x: Reading) {
    && x.deviceId == d.id && x.datapointId == p.id
    && match r
       case ReadError(q) => x.value == None && x.quality == q
       case Data(bytes) =>
         b.start <= p.address && Known(p) ==>
           var at, n := 2 * (p.address - b.start), 2 * Regs(p);
           if at + n <= |bytes| && Decoded(bytes[at..at + n], p.dataType, p.byteOrder).Some?
           then x.value == Decoded(bytes[at..at + n], p.dataType, p.byteOrder) && x.quality == GoodQuality
           else x.value == None && x.quality == InvalidQuality
  }

  lemma AnswerReads(d: Device, b: Block, r: ReadResult, p: DataPoint)
    requires 0 <= b.start < TWO16
    ensures ReadingOf(d, b, r, p, Answer(d, b, r, p))
  {
    hide Decoded;
    if Known(p) {
      WidthIsRegisters(p);
    }
    if b.start <= p.address {
      assert Sub16(p.address, b.start) == p.address - b.start;
    }
  }

  /** Block by block and point by point, a visit emits the readings of its answers. */
  lemma {:induction false} VisitSays(d: Device, bs: seq<Block>, results: seq<ReadResult>, i: nat, j: nat)
    requires |results| == |bs| && Addressable(bs) && i < |bs| && j < |bs[i].points|
    ensures var rs := Emitted(VisitEvents(d, bs, results));
            var k := |Flat(bs[..i])| + j;
            k < |rs| && ReadingOf(d, bs[i], results[i], bs[i].points[j], rs[k])
  {
    hide Answer;
    hide ReadingOf;
    hide Emitted;
    hide VisitEvents;
    hide Flat;
    VisitEmits(d, bs, results);
    var n := |bs| - 1;
    ReadingsFollowPoints(d, bs[..n], results[..n]);
    var before := VisitReadings(d, bs[..n], results[..n]);
    assert VisitReadings(d, bs, results) == before + Answers(d, bs[n], results[n]);
    hide VisitReadings;
    if i < n {
      VisitSays(d, bs[..n], results[..n], i, j);
      VisitEmits(d, bs[..n], results[..n]);
      assert bs[..n][..i] == bs[..i];
    } else {
      AnswerReads(d, bs[n], results[n], bs[n].points[j]);
    }
  }

  /** A register value for a value: what a good reading of a whole point carries, without a byte
      order, straight from the bank. */
  lemma GoodReadings(deviceId: Int64, p: DataPoint, bank: seq<UInt16>)
    requires Known(p) && End(p) <= |bank| && p.byteOrder == []
    ensures var x := FromBytes(deviceId, p, RegisterBytes(bank, p.address, Regs(p)));
            var a, first: int := p.address, bank[p.address];
            && x.deviceId == deviceId && x.datapointId == p.id && x.quality == GoodQuality
            && match p.dataType
               case UINT16 => x.value == Some(Integer(first))
               case INT16 => x.value == Some(Integer(if first < 32768 then first else first - 65536))
               case UINT32 => x.value == Some(Integer(first * 65536 + bank[a + 1]))
               case INT32 =>
                 var v := first * 65536 + bank[a + 1];
                 x.value == Some(Integer(if v < 2147483648 then v else v - 4294967296))
               case FLOAT32 => x.value == Some(Float32(first * 65536 + bank[a + 1]))
               case FLOAT64 =>
                 x.value == Some(Float64(((first * 65536 + bank[a + 1]) * 65536 + bank[a + 2]) * 65536 + bank[a + 3]))
               case Unknown(_) => false
  {
    hide RegisterBytes;
    hide Decoded;
    match p.dataType {
      case UINT16 => OneRegisterDecoded(bank, p.address);
      case INT16 => OneRegisterDecoded(bank, p.address);
      case FLOAT64 => FourRegistersDecoded(bank, p.address);
      case UINT32 => TwoRegistersDecoded(bank, p.address);
      case INT32 => TwoRegistersDecoded(bank, p.address);
      case FLOAT32 => TwoRegistersDecoded(bank, p.address);
    }
  }

  function PointsIn(ds: seq<Device>): nat {
    if ds == [] then 0 else PointsIn(ds[..|ds| - 1]) + |ds[|ds| - 1].points|
  }

  /** A failed connect emits one reading for each point of each device, without a value and with
      the quality of the failure, and nothing else. */
  lemma {:induction false} OfflineSays(ds: seq<Device>, q: BadQuality, i: nat, j: nat)
    requires i < |ds| && j < |ds[i].points|
    ensures var rs := Emitted(OfflineEvents(ds, q));
            var k := PointsIn(ds[..i]) + j;
            k < |rs| == PointsIn(ds) && rs[k] == Reading(ds[i].id, ds[i].points[j].id, None, q)
  {
    hide Emitted;
    hide OfflineEvents;
    hide PointsIn;
    var n := |ds| - 1;
    OfflineCount(ds, q);
    OfflineCount(ds[..n], q);
    OneDeviceMore(ds, q);
    if i < n {
      OfflineSays(ds[..n], q, i, j);
      assert ds[..n][..i] == ds[..i];
    }
  }

  lemma OneDeviceMore(ds: seq<Device>, q: BadQuality)
    requires ds != []
    ensures var n := |ds| - 1;
            Emitted(OfflineEvents(ds, q)) == Emitted(OfflineEvents(ds[..n], q)) + OfflineReadings(ds[n], q)
  {
    hide OfflineReadings;
    hide Emits;
    var n := |ds| - 1;
    var last := OfflineReadings(ds[n], q);
    EmittedAppend(OfflineEvents(ds[..n], q), Emits(last));
    EmittedEmits(last);
    hide Emitted;
  }

  lemma {:induction false} OfflineCount(ds: seq<Device>, q: BadQuality)
    ensures |Emitted(OfflineEvents(ds, q))| == PointsIn(ds)
  {
    if ds != [] {
      var n := |ds| - 1;
      OfflineCount(ds[..n], q);
      OneDeviceMore(ds, q);
    }
  }

  // ---------------------------------------------------------------------------
  // Whole traces

  lemma OrderlyPrefix(ds: seq<Device>, segs: seq<Segment>)
    requires Orderly(ds, segs) && segs != []
    ensures Orderly(ds, segs[..|segs| - 1]) && SegmentOk(ds, segs[|segs| - 1])
  {
    hide SegmentOk;
    hide Follows;
    var n := |segs| - 1;
    forall i | 0 <= i < n - 1 ensures Follows(ds, segs[..n][i], segs[..n][i + 1]) {
      assert Follows(ds, segs[i], segs[i + 1]);
    }
    assert segs[n] in segs;
  }

  lemma {:induction false} ConnectedBeforeVisit(ds: seq<Device>, segs: seq<Segment>)
    requires Orderly(ds, segs) && segs != [] && !segs[|segs| - 1].FailedConnect?
    ensures Connect(true) in RenderAll(ds, segs)
  {
    var n := |segs| - 1;
    OrderlyPrefix(ds, segs);
    if segs[n].Visit? {
      assert n > 0 && Follows(ds, segs[n - 1], segs[n]);
      ConnectedBeforeVisit(ds, segs[..n]);
    }
  }

  lemma {:induction false} OfflineOnlyEmits(ds: seq<Device>, q: BadQuality)
    ensures forall e <- OfflineEvents(ds, q) :: e.Emit?
  {
    if ds != [] {
      OfflineOnlyEmits(ds[..|ds| - 1], q);
    }
  }

  /** Every known point lies below the last register. */
  ghost predicate PointsFit(d: Device) {
    forall p <- d.points :: Known(p) ==> End(p) <= TWO16 - 1
  }

  /** A block of the device's own points of its function code, and, if the device's points
      fit, one that contains them whole. */
  ghost predicate BlockFor(d: Device, b: Block) {
    && b.points != []
    && (forall p <- b.points :: p in d.points && Known(p) && p.functionCode == b.functionCode)
    && (PointsFit(d) ==> forall p <- b.points :: Inside(b, p))
  }

  /** Event k belongs to segment n, a visit that plans block b, and reads b under the unit id
      of the visited device. */
  ghost predicate ReadsBlock(ds: seq<Device>, segs: seq<Segment>, k: nat, n: nat, b: Block)
    requires (forall g <- segs :: SegmentOk(ds, g)) && k < |RenderAll(ds, segs)|
  {
    var events := RenderAll(ds, segs);
    && n < |segs| && segs[n].Visit? && segs[n].index < |ds|
    && |RenderAll(ds, segs[..n])| <= k < |RenderAll(ds, segs[..n + 1])|
    && var d := ds[segs[n].index];
       && b in segs[n].blocks && BlockFor(d, b)
       && PlannedVisit(d, segs[n].blocks, segs[n].results)
       && events[k] == Read(b.functionCode, b.start, b.quantity)
       && UnitAfter(events[..k]) == Some(d.slaveId)
  }

  lemma BlockOfDevice(d: Device, bs: seq<Block>, results: seq<ReadResult>, b: Block)
    requires PlannedVisit(d, bs, results) && b in bs
    ensures BlockFor(d, b)
  {
    hide PlannedFrom;
    var fc := b.functionCode;
    VisitCoversPoints(d, bs);
    forall p | p in b.points ensures p in d.points && Known(p) && p.functionCode == fc {
      InFlat(bs, b, p);
      assert p in multiset(Flat(bs));
      assert p in multiset(KnownOf(d.points));
      assert p in KnownOf(d.points);
      CodesMatch(d, bs, b, p);
    }
    InBlocksFor(bs, b);
    assert PlannedFrom(BlocksFor(bs, fc), GroupOf(d.points, fc), fc);
    BlockNotEmpty(BlocksFor(bs, fc), GroupOf(d.points, fc), fc, b);
    if PointsFit(d) {
      BlockContains(d, BlocksFor(bs, fc), fc, b);
    }
  }

  lemma BlockContains(d: Device, bs: seq<Block>, fc: Byte, b: Block)
    requires PlannedFrom(bs, GroupOf(d.points, fc), fc) && b in bs && PointsFit(d)
    ensures forall p <- b.points :: Inside(b, p)
  {
    hide PlannedFrom;
    forall p | p in GroupOf(d.points, fc) ensures p in d.points {
      GroupCount(d.points, fc, p);
      assert p in multiset(GroupOf(d.points, fc));
      assert p in multiset(d.points);
    }
    hide GroupOf;
    PlanValid(bs, GroupOf(d.points, fc), fc);
    assert ValidBlock(b);
  }

  lemma BlockNotEmpty(bs: seq<Block>, group: seq<DataPoint>, fc: Byte, b: Block)
    requires PlannedFrom(bs, group, fc) && b in bs
    ensures b.points != []
  {
    if BitAccess(fc) {
      SinglesFacts(fc, KnownOf(group));
      assert ValidBlock(b);
    } else {
      var g :| Sorted(g) && multiset(g) == multiset(group) && bs == Blocks(Merge(fc, KnownOf(g)));
      KnownSorted(g);
      CoverageIff(fc, KnownOf(g));
      assert CodeShape(b);
    }
  }

  /** No read precedes a successful Connect, and every read is of a block planned for the
      device being visited, made under that device's unit id. */
  lemma {:induction false} ReadsAreInOrder(ds: seq<Device>, segs: seq<Segment>, k: nat) returns (n: nat, b: Block)
    requires Orderly(ds, segs) && k < |RenderAll(ds, segs)| && RenderAll(ds, segs)[k].Read?
    ensures Connect(true) in RenderAll(ds, segs)[..k]
    ensures ReadsBlock(ds, segs, k, n, b)
  {
    hide SegmentOk;
    hide Follows;
    hide Render;
    var last := |segs| - 1;
    OrderlyPrefix(ds, segs);
    var before, events := RenderAll(ds, segs[..last]), RenderAll(ds, segs);
    if k < |before| {
      n, b := ReadsAreInOrder(ds, segs[..last], k);
      assert events[..k] == before[..k];
      assert segs[..last][..n] == segs[..n] && segs[..last][..n + 1] == segs[..n + 1];
    } else {
      n := last;
      b := ReadInSegment(ds, segs, k);
    }
  }

  lemma UnitDuringVisit(before: seq<Event>, unit: Byte, visit: seq<Event>, j: nat)
    requires j <= |visit| && forall e <- visit :: !e.SetUnit?
    ensures UnitAfter((before + [SetUnit(unit)]) + visit[..j]) == Some(unit)
  {
    UnitKept(before + [SetUnit(unit)], visit[..j]);
  }

  /** The j-th event of a visit that follows `before`. */
  lemma ReadInVisit(ds: seq<Device>, before: seq<Event>, g: Segment, k: nat) returns (b: Block)
    requires g.Visit? && SegmentOk(ds, g)
    requires var events := before + Render(ds, g); |before| <= k < |events| && events[k].Read?
    ensures var events, d := before + Render(ds, g), ds[g.index];
            && b in g.blocks && BlockFor(d, b) && events[k] == Read(b.functionCode, b.start, b.quantity)
            && UnitAfter(events[..k]) == Some(d.slaveId)
  {
    hide PlannedFrom;
    var d, events := ds[g.index], before + Render(ds, g);
    var visit := VisitEvents(d, g.blocks, g.results);
    VisitOnlyReads(d, g.blocks, g.results);
    hide VisitEvents;
    var j := k - |before| - 1;
    assert events == (before + [SetUnit(d.slaveId)]) + visit;
    assert events[k] == visit[j] && events[..k] == (before + [SetUnit(d.slaveId)]) + visit[..j];
    UnitDuringVisit(before, d.slaveId, visit, j);
    assert events[k] in visit;
    b :| b in g.blocks && events[k] == Read(b.functionCode, b.start, b.quantity);
    BlockOfDevice(d, g.blocks, g.results, b);
    hide BlockFor;
  }

  lemma ReadInSegment(ds: seq<Device>, segs: seq<Segment>, k: nat) returns (b: Block)
    requires Orderly(ds, segs) && segs != []
    requires |RenderAll(ds, segs[..|segs| - 1])| <= k < |RenderAll(ds, segs)| && RenderAll(ds, segs)[k].Read?
    ensures Connect(true) in RenderAll(ds, segs)[..k]
    ensures ReadsBlock(ds, segs, k, |segs| - 1, b)
  {
    hide BlockFor;
    hide PlannedVisit;
    hide Render;
    var n := |segs| - 1;
    OrderlyPrefix(ds, segs);
    var before, events, g := RenderAll(ds, segs[..n]), RenderAll(ds, segs), segs[n];
    assert events == before + Render(ds, g);
    assert events[k] == Render(ds, g)[k - |before|];
    if !g.Visit? {
      OnlyVisitsRead(ds, g);
    }
    b := ReadInVisit(ds, before, g, k);
    assert segs[..|segs|] == segs;
    assert Follows(ds, segs[n - 1], segs[n]);
    ConnectedBeforeVisit(ds, segs[..n]);
    assert events[..k] == before + events[|before|..k];
  }

  lemma OnlyVisitsRead(ds: seq<Device>, g: Segment)
    requires SegmentOk(ds, g) && !g.Visit?
    ensures forall e <- Render(ds, g) :: !e.Read?
  {
    if g.FailedConnect? {
      OfflineOnlyEmits(ds, g.quality);
    }
  }
}
