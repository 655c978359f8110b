/** The queue store as the object it is: every method as one call, uninterrupted. How calls
    interleave is the subject of the delivery protocol. */
module QueueStore {
  import opened Ints
  import opened ChunkCodec
  import opened QueueModel

  const MAX_EVICT_PASSES_PER_TICK := 5

  // ---------------------------------------------------------------------------
  // ReadBatch as a function of the rows scanned

  datatype ReadOutcome = ReadOutcome(disk: Disk, mem: Memory, chunks: Option<seq<Chunk>>)

  /** Walks the scanned rows, deleting and uncounting the corrupt ones; a discard whose
      transaction fails ends the read. */
  function ReadRows(z: Flate, d: Disk, m: Memory, raw: seq<Row>, failing: set<nat>): ReadOutcome
    decreases |raw|
  {
    if raw == [] then ReadOutcome(d, m, Some([]))
    else
      var before := ReadRows(z, d, m, raw[..|raw| - 1], failing);
      var row := raw[|raw| - 1];
      if before.chunks.None? then before
      else
        var rs := DecodeBlob(z, row.blob);
        if rs.Some? then before.(chunks := Some(before.chunks.value + [Chunk(row.seqNo, rs.value)]))
        else if row.seqNo in failing then before.(chunks := None)
        else before.(disk := Discard(before.disk, row.seqNo, row.n), mem := DropRow(before.disk, before.mem, row.seqNo, row.n))
  }

  /** What discard does in memory: a row that is already gone changes no counter. */
  function DropRow(d: Disk, m: Memory, q: nat, n: nat): Memory {
    if exists r <- d.rows :: r.seqNo == q then CountDeleted(m, 1, n).(dropped := m.dropped + n) else m
  }

  predicate Corrupt(z: Flate, r: Row) {
    DecodeBlob(z, r.blob).None?
  }

  /** The file stays consistent, keeps only rows it had, and every counter moves with it. */
  ghost predicate Tallied(d: Disk, m: Memory, d': Disk, m': Memory) {
    && Consistent(d')
    && d'.streamId == d.streamId && d'.nextSeq == d.nextSeq && d'.evictedReadings == d.evictedReadings
    && m'.buf == m.buf && m'.unflushed == m.unflushed && m'.evicted == m.evicted
    && m'.pendingChunks - m.pendingChunks == d'.pendingChunks - d.pendingChunks
    && m'.pendingReadings - m.pendingReadings == d'.pendingReadings - d.pendingReadings
    && m'.dropped + m'.pendingReadings == m.dropped + m.pendingReadings
    && forall r <- d'.rows :: r in d.rows
  }

  /** Only corrupt rows of `raw` are gone. */
  ghost predicate LostOnlyCorrupt(z: Flate, d: Disk, raw: seq<Row>, d': Disk) {
    forall r <- d.rows :: r in d'.rows || (r in raw && Corrupt(z, r))
  }

  ghost predicate CorruptGone(z: Flate, raw: seq<Row>, d': Disk) {
    forall r <- raw :: Corrupt(z, r) ==> r.seqNo !in RowSeqs(d'.rows)
  }

  /** A read loses nothing but the corrupt rows it scanned, and returns the others. */
  lemma {:induction false} ReadRowsFacts(z: Flate, d: Disk, m: Memory, raw: seq<Row>, failing: set<nat>)
    requires Consistent(d) && Ascending(raw) && forall r <- raw :: r in d.rows
    ensures var o := ReadRows(z, d, m, raw, failing);
            && Tallied(d, m, o.disk, o.mem)
            && LostOnlyCorrupt(z, d, raw, o.disk)
            && (o.chunks.Some? ==> o.chunks.value == Decoded(z, raw) && CorruptGone(z, raw, o.disk))
            && (o.chunks.None? <==> exists r <- raw :: Corrupt(z, r) && r.seqNo in failing)
    decreases |raw|
  {
    hide DecodeBlob;
    hide Tallied;
    hide LostOnlyCorrupt;
    hide CorruptGone;
    hide Consistent;
    hide Ascending;
    if raw == [] {
      NothingLost(z, d, m);
    } else {
      var n := |raw| - 1;
      var init, row := raw[..n], raw[n];
      assert raw == init + [row];
      PrefixAscending(raw, n);
      ReadRowsFacts(z, d, m, init, failing);
      var before := ReadRows(z, d, m, init, failing);
      LostSnoc(z, d, init, row, before.disk);
      if before.chunks.Some? && Corrupt(z, row) && row.seqNo !in failing {
        StillThere(z, d, init, row, before.disk);
        DiscardTallied(d, m, before.disk, before.mem, row);
        DiscardLoses(z, d, m, init, before.disk, before.mem, row);
      }
    }
  }

  lemma NothingLost(z: Flate, d: Disk, m: Memory)
    requires Consistent(d)
    ensures Tallied(d, m, d, m) && LostOnlyCorrupt(z, d, [], d) && CorruptGone(z, [], d)
  {
    hide DecodeBlob;
  }

  lemma PrefixAscending(rows: seq<Row>, n: nat)
    requires Ascending(rows) && n <= |rows|
    ensures Ascending(rows[..n])
  {
  }

  /** A row that is kept changes nothing. */
  lemma LostSnoc(z: Flate, d: Disk, init: seq<Row>, row: Row, d': Disk)
    requires LostOnlyCorrupt(z, d, init, d')
    ensures LostOnlyCorrupt(z, d, init + [row], d')
    ensures CorruptGone(z, init, d') && !Corrupt(z, row) ==> CorruptGone(z, init + [row], d')
  {
    hide DecodeBlob;
  }

  lemma StillThere(z: Flate, d: Disk, init: seq<Row>, row: Row, d': Disk)
    requires LostOnlyCorrupt(z, d, init, d') && row in d.rows && Ascending(init + [row])
    ensures row in d'.rows
  {
    hide DecodeBlob;
    assert (init + [row])[|init|] == row;
    assert forall i :: 0 <= i < |init| ==> (init + [row])[i] == init[i];
  }

  lemma DiscardTallied(d: Disk, m: Memory, e: Disk, me: Memory, row: Row)
    requires Consistent(d) && row in d.rows && Tallied(d, m, e, me)
    requires row in e.rows
    ensures Tallied(d, m, Discard(e, row.seqNo, row.n), DropRow(e, me, row.seqNo, row.n))
  {
    hide SumRows;
    SameKeySameRow(d, row);
    DiscardScanned(d, e, row);
    hide Consistent;
  }

  lemma DiscardLoses(z: Flate, d: Disk, m: Memory, init: seq<Row>, e: Disk, me: Memory, row: Row)
    requires Consistent(d) && row in d.rows && Tallied(d, m, e, me)
    requires LostOnlyCorrupt(z, d, init, e) && CorruptGone(z, init, e) && Corrupt(z, row)
    ensures var e' := Discard(e, row.seqNo, row.n);
            LostOnlyCorrupt(z, d, init + [row], e') && CorruptGone(z, init + [row], e')
  {
    hide DecodeBlob;
    hide SumRows;
    SameKeySameRow(d, row);
    DiscardScanned(d, e, row);
    hide Consistent;
    hide Discard;
    hide RowSeqs;
  }

  lemma SameKeySameRow(d: Disk, row: Row)
    requires Consistent(d) && row in d.rows
    ensures forall r <- d.rows :: r.seqNo == row.seqNo ==> r == row
  {
  }

  /** Discarding a scanned row: keys identify rows, so exactly that row goes. */
  lemma DiscardScanned(d: Disk, e: Disk, row: Row)
    requires Consistent(d) && Consistent(e) && row in d.rows
    requires forall r <- e.rows :: r in d.rows
    requires forall r <- d.rows :: r.seqNo == row.seqNo ==> r == row
    ensures var e' := Discard(e, row.seqNo, row.n);
            && Consistent(e') && (forall r <- e'.rows :: r in e.rows)
            && RowSeqs(e'.rows) == RowSeqs(e.rows) - {row.seqNo}
            && (forall r <- e.rows :: r in e'.rows || r == row)
  {
    DiscardConsistent(e, row.seqNo, row.n);
    var e' := Discard(e, row.seqNo, row.n);
    forall r | r in e.rows && r != row ensures r in e'.rows {
      assert r.seqNo in RowSeqs(e'.rows);
    }
  }

  lemma NothingRead(z: Flate, d: Disk, m: Memory, failing: set<nat>)
    ensures ReadRows(z, d, m, [], failing) == ReadOutcome(d, m, Some([]))
  {
  }

  lemma ReadOneMore(z: Flate, d: Disk, m: Memory, raw: seq<Row>, i: nat, failing: set<nat>)
    requires i < |raw|
    ensures var before, row := ReadRows(z, d, m, raw[..i], failing), raw[i];
            var rs := DecodeBlob(z, row.blob);
            before.chunks.Some? ==>
              ReadRows(z, d, m, raw[..i + 1], failing) ==
              if rs.Some? then before.(chunks := Some(before.chunks.value + [Chunk(row.seqNo, rs.value)]))
              else if row.seqNo in failing then before.(chunks := None)
              else before.(disk := Discard(before.disk, row.seqNo, row.n),
                           mem := DropRow(before.disk, before.mem, row.seqNo, row.n))
  {
    hide DecodeBlob;
    hide Discard;
    assert raw[..i + 1][..i] == raw[..i];
  }

  /** What a read keeps, without going into its rows. */
  lemma ReadSummary(z: Flate, d: Disk, m: Memory, max: int, failing: set<nat>)
    requires Consistent(d)
    ensures var o := ReadRows(z, d, m, Scan(d.rows, max), failing);
            && Consistent(o.disk) && o.disk.evictedReadings == d.evictedReadings
            && o.mem.buf == m.buf && o.mem.unflushed == m.unflushed && o.mem.evicted == m.evicted
            && o.mem.pendingChunks - m.pendingChunks == o.disk.pendingChunks - d.pendingChunks
            && o.mem.pendingReadings - m.pendingReadings == o.disk.pendingReadings - d.pendingReadings
            && o.mem.dropped + o.mem.pendingReadings == m.dropped + m.pendingReadings
  {
    hide ReadRows;
    var raw := Scan(d.rows, max);
    assert forall r <- raw :: r in d.rows;
    ReadRowsFacts(z, d, m, raw, failing);
  }

  // ---------------------------------------------------------------------------
  // Eviction estimate

  function CeilDiv(a: real, b: real): int
    requires b > 0.0
  {
    -((-(a / b)).Floor)
  }

  function Min(a: int, b: int): int {
    if a <= b then a else b
  }

  function AverageSize(size: int, chunks: int): real
    requires chunks > 0
  {
    var avg := (size as real) / (chunks as real);
    if avg <= 0.0 then 1.0 else avg
  }

  /** How many chunks one pass evicts: enough average-sized ones for the excess, plus one. */
  function EvictCount(excess: int, size: int, chunks: int): (k: int)
    requires chunks > 0 && excess > 0
    ensures 1 <= k <= chunks && k <= MAX_EVICT_CHUNKS_PER_PASS
  {
    var needed := CeilDiv(excess as real, AverageSize(size, chunks)) + 1;
    CeilPositive(excess as real, AverageSize(size, chunks));
    Min(Min(needed, MAX_EVICT_CHUNKS_PER_PASS), chunks)
  }

  lemma CeilPositive(a: real, b: real)
    requires a > 0.0 && b > 0.0
    ensures CeilDiv(a, b) >= 1 && (CeilDiv(a, b) as real) * b >= a
  {
    var q := a / b;
    assert q > 0.0 && q * b == a;
    assert (CeilDiv(a, b) as real) >= q;
    assert (CeilDiv(a, b) as real) * b >= q * b;
  }

  /** Bytes per chunk, or one if the file reports nothing. */
  ghost function MeanSize(size: int, chunks: int): real
    requires chunks > 0
  {
    if size > 0 then size as real / chunks as real else 1.0
  }

  lemma MeanIsAverage(size: int, chunks: int)
    requires chunks > 0
    ensures MeanSize(size, chunks) == AverageSize(size, chunks) > 0.0
  {
    var avg := (size as real) / (chunks as real);
    assert avg * (chunks as real) == size as real;
  }

  /** k is one chunk more than the least number that covers the excess at the average size, unless
      that hits the limit of a pass or takes the whole queue. */
  ghost predicate Estimated(k: int, excess: int, size: int, chunks: int)
    requires chunks > 0
  {
    && 1 <= k <= chunks && k <= 20000
    && (((k - 1) as real) * MeanSize(size, chunks) >= excess as real || k == 20000 || k == chunks)
    && ((k - 2) as real) * MeanSize(size, chunks) < excess as real
  }

  lemma EstimateCovers(excess: int, size: int, chunks: int)
    requires chunks > 0 && excess > 0
    ensures Estimated(EvictCount(excess, size, chunks), excess, size, chunks)
  {
    MeanIsAverage(size, chunks);
    var avg := MeanSize(size, chunks);
    var a := excess as real;
    CeilPositive(a, avg);
    CeilTight(a, avg);
    hide CeilDiv;
    hide AverageSize;
    hide MeanSize;
    var n := CeilDiv(a, avg);
    var k := EvictCount(excess, size, chunks);
    hide EvictCount;
    AtMostOneMore(k, n, a, avg);
  }

  lemma AtMostOneMore(k: int, n: int, a: real, b: real)
    requires b > 0.0 && k <= n + 1 && ((n - 1) as real) * b < a
    ensures ((k - 2) as real) * b < a
  {
    var x, y := (k - 2) as real, (n - 1) as real;
    assert x <= y;
    assert x * b <= y * b;
  }

  lemma CeilTight(a: real, b: real)
    requires a > 0.0 && b > 0.0
    ensures ((CeilDiv(a, b) - 1) as real) * b < a
  {
    var q := a / b;
    var n := CeilDiv(a, b);
    assert q * b == a;
    assert ((n - 1) as real) < q;
    assert ((n - 1) as real) * b < q * b;
  }

  // ---------------------------------------------------------------------------

  class Store {
    const z: Flate
    const maxUnflushed: nat
    var disk: Disk
    var buf: seq<Reading>
    var unflushed: seq<PendingChunk>
    var pendingChunks: int
    var pendingReadings: int
    var evicted: int
    var dropped: int

    ghost function Mem(): Memory
      reads this
    {
      Memory(buf, unflushed, pendingChunks, pendingReadings, evicted, dropped)
    }

    /** Between calls the counters in memory are the file's. */
    ghost predicate Valid()
      reads this
    {
      && Consistent(disk) && GoSized(buf)
      && pendingChunks == disk.pendingChunks && pendingReadings == disk.pendingReadings
      && evicted == disk.evictedReadings
    }

    /** Readings in the queue's care or given up by it. */
    ghost function Total(): int
      reads this
    {
      |buf| + SumPending(unflushed) + pendingReadings + evicted + dropped
    }

    /** Open on an existing file: counters from meta, no scan of the table. */
    constructor Open(z: Flate, maxUnflushed: nat, file: Disk)
      requires Consistent(file)
      ensures Valid() && disk == file && Mem() == Reopened(file)
      ensures this.z == z && this.maxUnflushed == maxUnflushed
      ensures pendingChunks == |file.rows| && pendingReadings == SumRows(file.rows)
    {
      this.z, this.maxUnflushed := z, maxUnflushed;
      disk := file;
      buf, unflushed := [], [];
      pendingChunks, pendingReadings := file.pendingChunks, file.pendingReadings;
      evicted, dropped := file.evictedReadings, 0;
    }

    method Append(r: Reading)
      requires Valid() && |r.quality| < TWO63 && |buf| + 1 < TWO63
      modifies this`buf
      ensures Valid() && buf == old(buf) + [r] && Total() == old(Total()) + 1
    {
      buf := buf + [r];
    }

    /** insertChunks: all rows and both counters in one transaction, or nothing. */
    method InsertChunks(batch: seq<PendingChunk>, fails: bool) returns (ok: bool)
      modifies this`disk
      ensures ok == !fails
      ensures disk == if ok then Insert(old(disk), batch) else old(disk)
    {
      var rows, next, readings := disk.rows, disk.nextSeq, 0;
      for i := 0 to |batch|
        invariant next == disk.nextSeq + i && disk == old(disk)
        invariant rows == disk.rows + Numbered(batch, disk.nextSeq)[..i]
        invariant readings == SumPending(batch[..i])
      {
        var c := batch[i];
        rows := rows + [Row(next, c.n, c.blob)];
        next := next + 1;
        readings := readings + c.n;
        assert batch[..i + 1] == batch[..i] + [c];
        SumPendingAppend(batch[..i], [c]);
        assert SumPending([c]) == c.n;
      }
      if fails {
        return false;
      }
      assert batch[..|batch|] == batch;
      disk := disk.(rows := rows, nextSeq := next,
                    pendingChunks := disk.pendingChunks + |batch|,
                    pendingReadings := disk.pendingReadings + readings);
      return true;
    }

    /** Flush. A failed write keeps the chunks for the next try, up to the backlog limit. */
    method Flush(fails: bool) returns (ok: bool)
      requires Valid()
      modifies this
      ensures Valid() && Total() == old(Total())
      ensures var m := Seal(z, old(Mem()));
              && ok == (m.unflushed == [] || !fails)
              && (m.unflushed == [] ==> disk == old(disk) && Mem() == m)
              && (m.unflushed != [] && ok ==> disk == Insert(old(disk), m.unflushed) && Mem() == CountWritten(m, m.unflushed))
              && (!ok ==> disk == old(disk) && Mem() == TrimBacklog(m, maxUnflushed))
    {
      SealBuffer();
      if |unflushed| == 0 {
        return true;
      }
      var batch := unflushed;
      InsertConsistent(disk, batch);
      ok := InsertChunks(batch, fails);
      if !ok {
        DropOverflow();
        return false;
      }
      CountBatch(batch);
    }

    /** Flush's first critical section. */
    method SealBuffer()
      requires Valid()
      modifies this`buf, this`unflushed, this`dropped
      ensures Valid() && Mem() == Seal(z, old(Mem())) && Total() == old(Total())
    {
      if |buf| > 0 {
        var readings := buf;
        buf := [];
        var blob := EncodeChunk(z, readings);
        if blob.None? {
          dropped := dropped + |readings|;
        } else {
          SumPendingAppend(unflushed, [PendingChunk(|readings|, blob.value)]);
          assert SumPending([PendingChunk(|readings|, blob.value)]) == |readings|;
          unflushed := unflushed + [PendingChunk(|readings|, blob.value)];
        }
      }
    }

    /** After a failed write: the oldest chunks beyond the limit are dropped. */
    method DropOverflow()
      requires Valid()
      modifies this`unflushed, this`dropped
      ensures Valid() && Mem() == TrimBacklog(old(Mem()), maxUnflushed) && Total() == old(Total())
    {
      var over := |unflushed| - maxUnflushed;
      if over > 0 {
        for i := 0 to over
          invariant unflushed == old(unflushed)
          invariant dropped == old(dropped) + SumPending(unflushed[..i])
        {
          assert unflushed[..i + 1] == unflushed[..i] + [unflushed[i]];
          SumPendingAppend(unflushed[..i], [unflushed[i]]);
          assert SumPending([unflushed[i]]) == unflushed[i].n;
          dropped := dropped + unflushed[i].n;
        }
        assert unflushed == unflushed[..over] + unflushed[over..];
        SumPendingAppend(unflushed[..over], unflushed[over..]);
        unflushed := unflushed[over..];
      }
    }

    /** After a successful write: the batch leaves the backlog and is counted as pending. */
    method CountBatch(batch: seq<PendingChunk>)
      requires batch == unflushed
      modifies this`unflushed, this`pendingChunks, this`pendingReadings
      ensures Mem() == CountWritten(old(Mem()), batch) && Total() == old(Total())
    {
      unflushed := unflushed[|batch|..];
      for i := 0 to |batch|
        invariant unflushed == []
        invariant pendingChunks == old(pendingChunks) + i
        invariant pendingReadings == old(pendingReadings) + SumPending(batch[..i])
      {
        assert batch[..i + 1] == batch[..i] + [batch[i]];
        SumPendingAppend(batch[..i], [batch[i]]);
        assert SumPending([batch[i]]) == batch[i].n;
        pendingChunks := pendingChunks + 1;
        pendingReadings := pendingReadings + batch[i].n;
      }
      assert batch[..|batch|] == batch;
    }

    /** ReadBatch. `failing` are the seqs whose discard transaction fails. */
    method ReadBatch(max: int, failing: set<nat>) returns (out: Option<seq<Chunk>>)
      requires Valid()
      modifies this`disk, this`pendingChunks, this`pendingReadings, this`dropped
      ensures Valid() && Total() == old(Total())
      ensures var raw := Scan(old(disk.rows), max);
              var o := ReadRows(z, old(disk), old(Mem()), raw, failing);
              && out == o.chunks && disk == o.disk && Mem() == o.mem
    {
      hide DecodeBlob;
      hide ReadRows;
      hide Scan;
      var raw := ScanRows(max);
      ReadSummary(z, disk, Mem(), max, failing);
      NothingRead(z, disk, Mem(), failing);
      ScanAscends(disk, max);
      var chunks: seq<Chunk> := [];
      assert raw[..0] == [];
      for i := 0 to |raw|
        invariant ReadRows(z, old(disk), old(Mem()), raw[..i], failing) == ReadOutcome(disk, Mem(), Some(chunks))
        invariant GoSized(buf)
      {
        var row := raw[i];
        ReadOneMore(z, old(disk), old(Mem()), raw, i, failing);
        var rs := DecodeChunk(z, row.blob);
        if rs.None? {
          if row.seqNo in failing {
            FailedRead(z, old(disk), old(Mem()), raw, i, failing);
            return None;
          }
          PartRead(z, old(disk), old(Mem()), raw, i, failing);
          DiscardRow(row.seqNo, row.n);
        } else {
          chunks := chunks + [Chunk(row.seqNo, rs.value)];
        }
      }
      assert raw[..|raw|] == raw;
      out := Some(chunks);
    }

    /** discard: a row that is gone already changes nothing; any other leaves the table, and its
        readings move from pending to dropped. */
    method DiscardRow(q: nat, n: nat)
      requires Consistent(disk) && forall r <- disk.rows :: r.seqNo == q ==> r.n == n
      modifies this`disk, this`pendingChunks, this`pendingReadings, this`dropped
      ensures Consistent(disk) && RowSeqs(disk.rows) == RowSeqs(old(disk).rows) - {q}
      ensures forall r <- old(disk).rows :: r.seqNo != q ==> r in disk.rows
      ensures forall r <- disk.rows :: r in old(disk).rows
      ensures q !in RowSeqs(old(disk).rows) ==> disk == old(disk) && Mem() == old(Mem())
      ensures Total() == old(Total()) && dropped - old(dropped) == if q in RowSeqs(old(disk).rows) then n else 0
      ensures pendingChunks - old(pendingChunks) == disk.pendingChunks - old(disk).pendingChunks
      ensures pendingReadings - old(pendingReadings) == disk.pendingReadings - old(disk).pendingReadings
      ensures disk == Discard(old(disk), q, n) && Mem() == DropRow(old(disk), old(Mem()), q, n)
    {
      DiscardConsistent(disk, q, n);
      DeletedIff(disk.rows, q);
      OthersStay(disk, q, n);
      var kept := Without(disk.rows, q);
      var affected := |disk.rows| - |kept|;
      if affected == 0 {
        return;
      }
      disk := disk.(rows := kept, pendingChunks := disk.pendingChunks - 1, pendingReadings := disk.pendingReadings - n);
      pendingChunks := pendingChunks - 1;
      pendingReadings := pendingReadings - n;
      dropped := dropped + n;
    }

    /** The SELECT loop: rows in key order until the limit of readings or rows. */
    method ScanRows(max: int) returns (raw: seq<Row>)
      ensures raw == Scan(disk.rows, max)
    {
      var rows := disk.rows;
      raw := [];
      var total, i := 0, 0;
      ghost var k := ScanLength(rows, 0, max, READ_BATCH_SCAN_LIMIT);
      while i < |rows| && i < READ_BATCH_SCAN_LIMIT
        invariant 0 <= i <= |rows| && i <= READ_BATCH_SCAN_LIMIT && raw == rows[..i]
        invariant k == i + ScanLength(rows[i..], total, max, READ_BATCH_SCAN_LIMIT - i)
      {
        assert rows[i..][0] == rows[i] && rows[i..][1..] == rows[i + 1..];
        raw := raw + [rows[i]];
        total := total + rows[i].n;
        i := i + 1;
        if total >= max {
          return;
        }
      }
    }

    /** Ack: the rows are with the server. */
    method Ack(through: int, fails: bool) returns (ok: bool)
      requires Valid()
      modifies this`disk, this`pendingChunks, this`pendingReadings
      ensures Valid() && ok == !fails
      ensures !ok ==> disk == old(disk)
      ensures ok ==> disk == DeleteThrough(old(disk), through, false)
                     && Total() == old(Total()) - SumRows(UpTo(old(disk).rows, through))
    {
      if fails {
        return false;
      }
      DeleteConsistent(disk, through, false);
      var gone := UpTo(disk.rows, through);
      disk := DeleteThrough(disk, through, false);
      pendingChunks := pendingChunks - |gone|;
      pendingReadings := pendingReadings - Sum(gone);
      return true;
    }

    /** COALESCE(SUM(n), 0). */
    static function Sum(rows: seq<Row>): int {
      SumRows(rows)
    }

    /** evictOnce. `excess` and `size` are what the file and the volume report. */
    method EvictOnce(excess: int, size: int, fails: bool) returns (progress: bool)
      requires Valid()
      modifies this`disk, this`pendingChunks, this`pendingReadings, this`evicted
      ensures Valid() && Total() == old(Total())
      ensures !progress ==> disk == old(disk)
      ensures progress <==> excess > 0 && old(disk).rows != [] && !fails
      ensures progress ==>
                Estimated(|old(disk).rows| - |disk.rows|, excess, size, |old(disk).rows|)
      ensures progress ==> var k := EvictCount(excess, size, |old(disk).rows|);
                           && OldestGone(old(disk).rows, disk.rows, k, evicted - old(evicted))
                           && disk.streamId == old(disk).streamId && disk.nextSeq == old(disk).nextSeq
    {
      hide EvictCount;
      hide Estimated;
      hide SumRows;
      if excess <= 0 || pendingChunks <= 0 || fails {
        return false;
      }
      var k := EvictCount(excess, size, pendingChunks);
      EstimateCovers(excess, size, pendingChunks);
      var cut := disk.rows[k - 1].seqNo;
      CutRemovesK(disk.rows, k);
      DeleteConsistent(disk, cut, true);
      var gone := UpTo(disk.rows, cut);
      disk := DeleteThrough(disk, cut, true);
      pendingChunks := pendingChunks - |gone|;
      pendingReadings := pendingReadings - Sum(gone);
      evicted := evicted + Sum(gone);
      return |gone| > 0;
    }

    /** Maintain: at most five passes; `reports` are the excess and size before each. While writes
        work every pass before the first without excess evicts, until the queue is empty. */
    method Maintain(reports: seq<(int, int)>, fails: bool)
      requires Valid() && |reports| == 5
      modifies this`disk, this`pendingChunks, this`pendingReadings, this`evicted
      ensures Valid() && Total() == old(Total())
      ensures var n := |old(disk).rows| - |disk.rows|;
              && OldestGone(old(disk).rows, disk.rows, n, evicted - old(evicted))
              && n <= 20000 * PassesWithExcess(reports) <= 100000
              && (!fails && disk.rows != [] ==> n >= PassesWithExcess(reports))
      ensures fails || reports[0].0 <= 0 ==> disk == old(disk)
    {
      hide EvictCount;
      hide SumPending;
      hide SumRows;
      hide Estimated;
      hide OldestGone;
      hide PassesWithExcess;
      ghost var n: nat := 0;
      ghost var rows := disk.rows;
      NothingGone(rows);
      for i := 0 to MAX_EVICT_PASSES_PER_TICK
        invariant Valid() && Total() == old(Total())
        invariant i <= n <= i * 20000 && n == |rows| - |disk.rows| && OldestGone(rows, disk.rows, n, evicted - old(evicted))
        invariant i == 0 ==> disk == old(disk)
        invariant i > 0 ==> !fails
        invariant forall j :: 0 <= j < i ==> reports[j].0 > 0
      {
        ghost var before, gone := disk.rows, evicted - old(evicted);
        PassesUpTo(reports, i);
        var progress := EvictOnce(reports[i].0, reports[i].1, fails);
        if !progress {
          return;
        }
        ghost var k := EvictCount(reports[i].0, reports[i].1, |before|);
        MoreGone(rows, before, n, gone, disk.rows, k, evicted - old(evicted) - gone);
        n := n + k;
      }
      PassesUpTo(reports, MAX_EVICT_PASSES_PER_TICK);
    }
  }

  /** How many of the passes, from the first on, find something in excess. */
  function PassesWithExcess(reports: seq<(int, int)>): (n: nat)
    ensures n <= |reports| && (forall j :: 0 <= j < n ==> reports[j].0 > 0)
    ensures n < |reports| ==> reports[n].0 <= 0
  {
    if reports == [] || reports[0].0 <= 0 then 0 else 1 + PassesWithExcess(reports[1..])
  }

  lemma PassesUpTo(reports: seq<(int, int)>, i: nat)
    requires i <= |reports| && forall j :: 0 <= j < i ==> reports[j].0 > 0
    ensures i <= PassesWithExcess(reports) <= |reports|
    ensures i < |reports| && reports[i].0 <= 0 ==> PassesWithExcess(reports) == i
  {
  }

  /** The n oldest rows are gone, with all their readings and no others. */
  ghost predicate OldestGone(rows: seq<Row>, rows': seq<Row>, n: int, readings: int) {
    0 <= n <= |rows| && rows' == rows[n..] && readings == SumRows(rows[..n])
  }

  lemma NothingGone(rows: seq<Row>)
    ensures OldestGone(rows, rows, 0, 0)
  {
  }

  lemma MoreGone(rows: seq<Row>, rows': seq<Row>, n: int, readings: int, rows'': seq<Row>, k: int, more: int)
    requires OldestGone(rows, rows', n, readings) && OldestGone(rows', rows'', k, more)
    ensures OldestGone(rows, rows'', n + k, readings + more) && n + k == |rows| - |rows''|
  {
    assert rows[..n + k] == rows[..n] + rows[n..][..k];
    SumRowsAppend(rows[..n], rows[n..][..k]);
  }

  /** The number of rows a DELETE of one key reports. */
  lemma DeletedIff(rows: seq<Row>, q: nat)
    requires Ascending(rows)
    ensures |rows| - |Without(rows, q)| == if q in RowSeqs(rows) then 1 else 0
  {
    hide Without;
    if q in RowSeqs(rows) {
      var i :| 0 <= i < |rows| && rows[i].seqNo == q;
      WithoutRow(rows, i);
    } else {
      WithoutNothing(rows, q);
    }
  }

  lemma OthersStay(d: Disk, q: nat, n: nat)
    requires Consistent(d)
    ensures forall r <- d.rows :: r.seqNo != q ==> r in Discard(d, q, n).rows
  {
    WithoutKeeps(d.rows, q);
  }

  /** Part of the way through a read: the table is consistent and a scanned row is itself. */
  lemma PartRead(z: Flate, d: Disk, m: Memory, raw: seq<Row>, i: nat, failing: set<nat>)
    requires Consistent(d) && Ascending(raw) && (forall r <- raw :: r in d.rows) && i < |raw|
    ensures var o := ReadRows(z, d, m, raw[..i], failing);
            Consistent(o.disk) && forall r <- o.disk.rows :: r.seqNo == raw[i].seqNo ==> r.n == raw[i].n
  {
    hide ReadRows;
    hide SumRows;
    PrefixAscending(raw, i);
    ReadRowsFacts(z, d, m, raw[..i], failing);
    assert raw[i] in raw;
    SameKeySameRow(d, raw[i]);
  }

  lemma ScanAscends(d: Disk, max: int)
    requires Consistent(d)
    ensures Ascending(Scan(d.rows, max)) && forall r <- Scan(d.rows, max) :: r in d.rows
  {
    hide ScanLength;
  }

  /** Once a discard has failed, the rest of the rows do not matter. */
  lemma {:induction false} FailedRead(z: Flate, d: Disk, m: Memory, raw: seq<Row>, i: nat, failing: set<nat>)
    requires i < |raw| && Corrupt(z, raw[i]) && raw[i].seqNo in failing
    requires ReadRows(z, d, m, raw[..i], failing).chunks.Some?
    ensures ReadRows(z, d, m, raw, failing) == ReadRows(z, d, m, raw[..i], failing).(chunks := None)
  {
    hide DecodeBlob;
    var n := |raw| - 1;
    if i < n {
      assert raw[..n][..i] == raw[..i];
      FailedRead(z, d, m, raw[..n], i, failing);
    }
  }
}
