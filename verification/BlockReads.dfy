/** Reading points out of a block gives what reading each one by itself would. */
module BlockReads {
  import opened Ints
  import opened Registers
  import opened BlockPlan
  import opened BlockPlanner

  datatype Quality = GoodQuality | TimedOut | CrcError | DeviceOffline | InvalidQuality

  /** What an error is classified as: never good. */
  type BadQuality = q: Quality | q != GoodQuality witness InvalidQuality

  datatype Reading = Reading(deviceId: Int64, datapointId: Int64, value: Option<Value>, quality: Quality)

  function BadReading(deviceId: Int64, p: DataPoint, q: BadQuality): Reading {
    Reading(deviceId, p.id, None, q)
  }

  /** decodeAndEmit: the point's own bytes out of the block's, decoded. */
  ghost function FromBlock(deviceId: Int64, p: DataPoint, raw: seq<Byte>, blockStart: UInt16): Reading {
    var width := ByteWidth(p.dataType);
    if width.None? then BadReading(deviceId, p, InvalidQuality)
    else
      var offset := 2 * Sub16(p.address, blockStart);
      if offset + width.value > |raw| then BadReading(deviceId, p, InvalidQuality)
      else FromBytes(deviceId, p, raw[offset..offset + width.value])
  }

  ghost function FromBytes(deviceId: Int64, p: DataPoint, bytes: seq<Byte>): Reading {
    var v := Decoded(bytes, p.dataType, p.byteOrder);
    if v.None? then BadReading(deviceId, p, InvalidQuality) else Reading(deviceId, p.id, v, GoodQuality)
  }

  method DecodeAndEmit(deviceId: Int64, p: DataPoint, raw: seq<Byte>, blockStart: UInt16) returns (r: Reading)
    ensures r == FromBlock(deviceId, p, raw, blockStart)
    ensures r.value.Some? <==> r.quality == GoodQuality
  {
    var width := ByteWidth(p.dataType);
    if width.None? {
      return BadReading(deviceId, p, InvalidQuality);
    }
    var offset := 2 * Sub16(p.address, blockStart);
    if offset + width.value > |raw| {
      return BadReading(deviceId, p, InvalidQuality);
    }
    var decoded := Decode(raw[offset..offset + width.value], p.dataType, p.byteOrder);
    if decoded.None? {
      return BadReading(deviceId, p, InvalidQuality);
    }
    r := Reading(deviceId, p.id, decoded, GoodQuality);
  }

  lemma WidthIsRegisters(p: DataPoint)
    requires Known(p)
    ensures ByteWidth(p.dataType) == Some(2 * Regs(p))
  {
  }

  /** For every register bank: the reading a point gets from a block that contains it equals
      the reading from a request of its own. */
  lemma BlockReadRefinesSingleRead(deviceId: Int64, b: Block, p: DataPoint, bank: seq<UInt16>)
    requires 0 <= b.start < TWO16 && 0 <= b.quantity && b.start + b.quantity <= |bank|
    requires Known(p) && Inside(b, p)
    ensures FromBlock(deviceId, p, RegisterBytes(bank, b.start, b.quantity), b.start)
            == FromBytes(deviceId, p, RegisterBytes(bank, p.address, Regs(p)))
  {
    hide RegisterBytes;
    WidthIsRegisters(p);
    SliceOfRead(bank, b.start, b.quantity, p.address, Regs(p));
  }

  /** And the other way round: a point the block does not contain gets an invalid reading from
      it, so the two agree if and only if the block contains the point or its own reading is
      invalid too. */
  lemma BlockReadRefinesIff(deviceId: Int64, b: Block, p: DataPoint, bank: seq<UInt16>)
    requires 0 <= b.start <= p.address && 0 <= b.quantity && b.start + b.quantity <= |bank|
    requires Known(p) && End(p) <= |bank|
    ensures var single := FromBytes(deviceId, p, RegisterBytes(bank, p.address, Regs(p)));
            FromBlock(deviceId, p, RegisterBytes(bank, b.start, b.quantity), b.start) == single <==>
            Inside(b, p) || single == BadReading(deviceId, p, InvalidQuality)
  {
    hide RegisterBytes;
    hide FromBytes;
    WidthIsRegisters(p);
    assert Sub16(p.address, b.start) == p.address - b.start;
    if Inside(b, p) {
      BlockReadRefinesSingleRead(deviceId, b, p, bank);
    }
  }

  // ---------------------------------------------------------------------------
  // Merging does not make readable registers unreadable

  /** The block ends where one of its points does. */
  ghost predicate Tight(b: Block) {
    exists p <- b.points :: End(p) == b.start + b.quantity
  }

  lemma ExtendTight(b: Block, p: DataPoint, plan: Plan)
    requires CodeShape(b) && Tight(b) && Known(p) && End(p) <= TWO16 - 1 && b.start <= p.address
    requires plan.pending == Some(b) && Fits(plan, p)
    ensures var end := W16(End(p));
            Tight(Extended(b, if end > W16(b.start + b.quantity) then W16(end - b.start) else b.quantity, p))
  {
    MergeArithmetic(b.start, b.quantity, p.address, End(p));
    hide W16;
    hide End;
    hide CodeShape;
    var top :| top in b.points && End(top) == b.start + b.quantity;
    var q := if End(p) > b.start + b.quantity then p else top;
    assert q in b.points + [p];
  }

  lemma {:induction false} MergeTight(fc: Byte, ks: seq<DataPoint>)
    requires Sorted(ks) && AllKnown(ks) && NeverMergesWrapped(fc, ks)
    ensures forall b <- Blocks(Merge(fc, ks)) :: Tight(b)
  {
    hide W16;
    hide Tight;
    hide CodeShape;
    hide End;
    if ks != [] {
      var n := |ks| - 1;
      var plan, p := Merge(fc, ks[..n]), ks[n];
      SortedPrefix(ks, n);
      NeverMergesWrappedSnoc(fc, ks, n);
      MergeTight(fc, ks[..n]);
      CoverageIff(fc, ks[..n]);
      assert p in ks;
      if Fits(plan, p) {
        assert plan.pending.value in Blocks(plan);
        assert ks[..n][n - 1] == ks[n - 1];
        ExtendTight(plan.pending.value, p, plan);
      } else {
        SingleTight(fc, p);
      }
    }
  }

  lemma SingleTight(fc: Byte, p: DataPoint)
    ensures Tight(Block(fc, p.address, Regs(p), [p]))
  {
    assert p in [p];
  }

  /** A slave that holds its registers in one bank answers a merged read exactly when it would
      answer every one of the single reads it replaces. */
  lemma BlockReadableIff(b: Block, bank: seq<UInt16>)
    requires ValidBlock(b) && Tight(b) && b.start >= 0 && forall p <- b.points :: Known(p)
    ensures Readable(bank, b.start, b.quantity) <==> forall p <- b.points :: Readable(bank, p.address, Regs(p))
  {
    var top :| top in b.points && End(top) == b.start + b.quantity;
    assert Inside(b, top);
    forall p | p in b.points ensures Inside(b, p) && 1 <= Regs(p) <= 4 {
    }
  }

  /** A whole plan that reads its points, against a bank: each block is answered exactly when
      each of its points would be, and then every point gets the reading of a request of its
      own. */
  lemma PlanRefinesSingleReads(deviceId: Int64, bs: seq<Block>, group: seq<DataPoint>, fc: Byte, bank: seq<UInt16>, b: Block)
    requires PlannedFrom(bs, group, fc) && !BitAccess(fc) && b in bs && AllValid(bs)
    ensures 0 <= b.start < TWO16 && b.quantity >= 1
    ensures Readable(bank, b.start, b.quantity) <==> forall p <- b.points :: Readable(bank, p.address, Regs(p))
    ensures Readable(bank, b.start, b.quantity) ==> forall p <- b.points ::
              FromBlock(deviceId, p, RegisterBytes(bank, b.start, b.quantity), b.start)
              == FromBytes(deviceId, p, RegisterBytes(bank, p.address, Regs(p)))
  {
    hide Merge;
    hide RegisterBytes;
    hide FromBlock;
    hide FromBytes;
    var g :| Sorted(g) && multiset(g) == multiset(group) && bs == Blocks(Merge(fc, KnownOf(g)));
    var ks := KnownOf(g);
    KnownSorted(g);
    CoverageIff(fc, ks);
    MergeTight(fc, ks);
    MergeKeepsPoints(fc, ks);
    assert CodeShape(b) && ValidBlock(b);
    forall p | p in b.points ensures Known(p) {
      InFlat(bs, b, p);
    }
    BlockReadableIff(b, bank);
    if Readable(bank, b.start, b.quantity) {
      forall p | p in b.points
        ensures FromBlock(deviceId, p, RegisterBytes(bank, b.start, b.quantity), b.start)
                == FromBytes(deviceId, p, RegisterBytes(bank, p.address, Regs(p)))
      {
        BlockReadRefinesSingleRead(deviceId, b, p, bank);
      }
    }
  }

  lemma {:induction false} InFlat(bs: seq<Block>, b: Block, p: DataPoint)
    requires b in bs && p in b.points
    ensures p in Flat(bs)
  {
    var n := |bs| - 1;
    if bs[n] != b {
      assert bs == bs[..n] + [bs[n]];
      InFlat(bs[..n], b, p);
    }
  }
}
