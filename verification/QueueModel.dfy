/** queue.db and the in-memory side of the queue as values, with every transaction the
    store runs on them as a function. The Store class and the delivery protocol are both
    stated in terms of these. */
module QueueModel {
  import opened Ints
  import opened ChunkCodec

  /** A row of the chunk table. `seqNo` is the AUTOINCREMENT key. */
  datatype Row = Row(seqNo: nat, n: nat, blob: seq<Byte>)

  /** A chunk encoded but not yet written. */
  datatype PendingChunk = PendingChunk(n: nat, blob: seq<Byte>)

  /** The database file: the chunk table in key order, the AUTOINCREMENT allocator and the
      meta counters. */
  datatype Disk = Disk(
    streamId: string,
    rows: seq<Row>,
    nextSeq: nat,
    pendingChunks: int,
    pendingReadings: int,
    evictedReadings: int)

  /** The Store fields that live in memory. */
  datatype Memory = Memory(
    buf: seq<Reading>,
    unflushed: seq<PendingChunk>,
    pendingChunks: int,
    pendingReadings: int,
    evicted: int,
    dropped: int)

  datatype Chunk = Chunk(seqNo: nat, readings: seq<Reading>)

  const READ_BATCH_SCAN_LIMIT := 500
  const MAX_EVICT_CHUNKS_PER_PASS := 20000

  // ---------------------------------------------------------------------------
  // Rows

  function SumRows(rows: seq<Row>): nat {
    if rows == [] then 0 else rows[0].n + SumRows(rows[1..])
  }

  function SumPending(batch: seq<PendingChunk>): nat {
    if batch == [] then 0 else batch[0].n + SumPending(batch[1..])
  }

  ghost function RowSeqs(rows: seq<Row>): set<nat> {
    set r <- rows :: r.seqNo
  }

  ghost predicate Ascending(rows: seq<Row>) {
    forall i, j :: 0 <= i < j < |rows| ==> rows[i].seqNo < rows[j].seqNo
  }

  /** DELETE ... WHERE seq <= through, as a filter of the table. */
  function Above(rows: seq<Row>, through: int): seq<Row> {
    if rows == [] then []
    else if rows[0].seqNo > through then [rows[0]] + Above(rows[1..], through)
    else Above(rows[1..], through)
  }

  function UpTo(rows: seq<Row>, through: int): seq<Row> {
    if rows == [] then []
    else if rows[0].seqNo <= through then [rows[0]] + UpTo(rows[1..], through)
    else UpTo(rows[1..], through)
  }

  /** DELETE ... WHERE seq = q. */
  function Without(rows: seq<Row>, q: int): seq<Row> {
    if rows == [] then []
    else if rows[0].seqNo != q then [rows[0]] + Without(rows[1..], q)
    else Without(rows[1..], q)
  }

  // ---------------------------------------------------------------------------
  // Transactions

  function Numbered(batch: seq<PendingChunk>, first: nat): (rows: seq<Row>)
    ensures |rows| == |batch|
    ensures forall i :: 0 <= i < |batch| ==> rows[i] == Row(first + i, batch[i].n, batch[i].blob)
  {
    seq(|batch|, i requires 0 <= i < |batch| => Row(first + i, batch[i].n, batch[i].blob))
  }

  /** insertChunks. */
  function Insert(d: Disk, batch: seq<PendingChunk>): Disk {
    d.(rows := d.rows + Numbered(batch, d.nextSeq),
       nextSeq := d.nextSeq + |batch|,
       pendingChunks := d.pendingChunks + |batch|,
       pendingReadings := d.pendingReadings + SumPending(batch))
  }

  /** deleteThrough; `evicting` says whether the readings go to evicted_readings. */
  function DeleteThrough(d: Disk, through: int, evicting: bool): Disk {
    var gone := UpTo(d.rows, through);
    d.(rows := Above(d.rows, through),
       pendingChunks := d.pendingChunks - |gone|,
       pendingReadings := d.pendingReadings - SumRows(gone),
       evictedReadings := d.evictedReadings + (if evicting then SumRows(gone) else 0))
  }

  /** discard; a row that is already gone leaves the file alone. */
  function Discard(d: Disk, q: nat, n: nat): Disk {
    if exists r <- d.rows :: r.seqNo == q then
      d.(rows := Without(d.rows, q),
         pendingChunks := d.pendingChunks - 1,
         pendingReadings := d.pendingReadings - n)
    else d
  }

  /** How many rows ReadBatch looks at: it stops once `max` readings are collected. */
  function ScanLength(rows: seq<Row>, total: int, max: int, limit: nat): (k: nat)
    ensures k <= |rows| && k <= limit
    decreases |rows|
  {
    if rows == [] || limit == 0 then 0
    else if total + rows[0].n >= max then 1
    else 1 + ScanLength(rows[1..], total + rows[0].n, max, limit - 1)
  }

  function Scan(rows: seq<Row>, max: int): seq<Row> {
    rows[..ScanLength(rows, 0, max, READ_BATCH_SCAN_LIMIT)]
  }

  /** What ReadBatch returns for the rows it scanned: corrupt ones are left out. */
  function Decoded(z: Flate, rows: seq<Row>): seq<Chunk> {
    if rows == [] then []
    else
      var init, last := rows[..|rows| - 1], rows[|rows| - 1];
      var rs := DecodeBlob(z, last.blob);
      if rs.Some? then Decoded(z, init) + [Chunk(last.seqNo, rs.value)] else Decoded(z, init)
  }

  // ---------------------------------------------------------------------------
  // In-memory updates

  /** Flush's first critical section: the buffer becomes a chunk, or is dropped when a
      reading cannot be encoded. */
  function Seal(z: Flate, m: Memory): Memory
    requires GoSized(m.buf)
  {
    if m.buf == [] then m
    else if NonNegativeIds(m.buf) then
      m.(buf := [], unflushed := m.unflushed + [PendingChunk(|m.buf|, EncodeBlob(z, m.buf))])
    else m.(buf := [], dropped := m.dropped + |m.buf|)
  }

  /** Flush's last critical section after a successful write of `batch`. */
  function CountWritten(m: Memory, batch: seq<PendingChunk>): Memory
    requires |batch| <= |m.unflushed|
  {
    m.(unflushed := m.unflushed[|batch|..],
       pendingChunks := m.pendingChunks + |batch|,
       pendingReadings := m.pendingReadings + SumPending(batch))
  }

  /** Flush's last critical section after a failed write: the backlog is cut to `max`. */
  function TrimBacklog(m: Memory, max: nat): Memory {
    var over := |m.unflushed| - max;
    if over <= 0 then m
    else m.(unflushed := m.unflushed[over..], dropped := m.dropped + SumPending(m.unflushed[..over]))
  }

  function CountDeleted(m: Memory, chunks: int, readings: int): Memory {
    m.(pendingChunks := m.pendingChunks - chunks, pendingReadings := m.pendingReadings - readings)
  }

  /** init on an existing file: counters come from meta, everything else starts empty. */
  function Reopened(d: Disk): Memory {
    Memory([], [], d.pendingChunks, d.pendingReadings, d.evictedReadings, 0)
  }

  /** init on a new file. */
  function NewDisk(streamId: string): Disk {
    Disk(streamId, [], 1, 0, 0, 0)
  }

  // ---------------------------------------------------------------------------
  // What every committed state satisfies

  /** The keys ascend below the allocator and the meta counters describe the table. */
  ghost predicate Consistent(d: Disk) {
    && d.nextSeq >= 1
    && Ascending(d.rows)
    && (forall r <- d.rows :: 1 <= r.seqNo < d.nextSeq)
    && d.pendingChunks == |d.rows|
    && d.pendingReadings == SumRows(d.rows)
  }

  lemma {:induction false} SumRowsAppend(a: seq<Row>, b: seq<Row>)
    ensures SumRows(a + b) == SumRows(a) + SumRows(b)
  {
    if a == [] {
      assert a + b == b;
    } else {
      SumRowsAppend(a[1..], b);
      assert (a + b)[1..] == a[1..] + b;
    }
  }

  lemma {:induction false} SumNumbered(batch: seq<PendingChunk>, first: nat)
    ensures SumRows(Numbered(batch, first)) == SumPending(batch)
    decreases |batch|
  {
    if batch != [] {
      SumNumbered(batch[1..], first + 1);
      assert Numbered(batch, first)[1..] == Numbered(batch[1..], first + 1);
    }
  }

  lemma {:induction false} SumPendingAppend(a: seq<PendingChunk>, b: seq<PendingChunk>)
    ensures SumPending(a + b) == SumPending(a) + SumPending(b)
  {
    if a == [] {
      assert a + b == b;
    } else {
      SumPendingAppend(a[1..], b);
      assert (a + b)[1..] == a[1..] + b;
    }
  }

  /** On a key-ordered table the rows a cut keeps are a suffix and the rest the prefix. */
  lemma {:induction false} CutSplits(rows: seq<Row>, through: int)
    requires Ascending(rows)
    ensures UpTo(rows, through) + Above(rows, through) == rows
    ensures forall r <- UpTo(rows, through) :: r.seqNo <= through
    ensures forall r <- Above(rows, through) :: r.seqNo > through
  {
    CutMembers(rows, through);
    if rows != [] && rows[0].seqNo <= through {
      var first, rest := [rows[0]], rows[1..];
      CutSplits(rest, through);
      assert rows == first + rest;
      JoinAssociates(first, UpTo(rest, through), Above(rest, through));
    } else if rows != [] {
      AllAbove(rows, through);
    }
  }

  lemma JoinAssociates<T>(a: seq<T>, b: seq<T>, c: seq<T>)
    ensures (a + b) + c == a + (b + c)
  {
  }

  lemma {:induction false} CutMembers(rows: seq<Row>, through: int)
    ensures forall r <- UpTo(rows, through) :: r.seqNo <= through
    ensures forall r <- Above(rows, through) :: r.seqNo > through
  {
    if rows != [] {
      CutMembers(rows[1..], through);
    }
  }

  lemma {:induction false} AllAbove(rows: seq<Row>, through: int)
    requires forall r <- rows :: r.seqNo > through
    ensures UpTo(rows, through) == [] && Above(rows, through) == rows
  {
    if rows != [] {
      AllAbove(rows[1..], through);
    }
  }

  lemma {:induction false} AllUpTo(rows: seq<Row>, through: int)
    requires forall r <- rows :: r.seqNo <= through
    ensures UpTo(rows, through) == rows && Above(rows, through) == []
  {
    if rows != [] {
      AllUpTo(rows[1..], through);
    }
  }

  /** Removing one key removes exactly its row. */
  lemma {:induction false} WithoutRow(rows: seq<Row>, i: nat)
    requires Ascending(rows) && i < |rows|
    ensures Without(rows, rows[i].seqNo) == rows[..i] + rows[i + 1..]
  {
    var q := rows[i].seqNo;
    if i == 0 {
      WithoutNothing(rows[1..], q);
    } else {
      WithoutRow(rows[1..], i - 1);
      assert rows[..i] == [rows[0]] + rows[1..][..i - 1];
      assert rows[1..][i..] == rows[i + 1..];
    }
  }

  lemma {:induction false} WithoutNothing(rows: seq<Row>, q: int)
    requires forall r <- rows :: r.seqNo != q
    ensures Without(rows, q) == rows
  {
    if rows != [] {
      WithoutNothing(rows[1..], q);
    }
  }

  lemma {:induction false} WithoutKeeps(rows: seq<Row>, q: nat)
    ensures forall r <- rows :: r.seqNo != q ==> r in Without(rows, q)
  {
    if rows != [] {
      WithoutKeeps(rows[1..], q);
    }
  }

  /** A backlog over the limit is cut to its newest chunks; the others' readings count as dropped. */
  lemma TrimKeepsNewest(m: Memory, max: nat)
    ensures var t := TrimBacklog(m, max);
            var k := |t.unflushed|;
            && k == (if |m.unflushed| > max then max else |m.unflushed|)
            && t.unflushed == m.unflushed[|m.unflushed| - k..]
            && t == m.(unflushed := t.unflushed, dropped := m.dropped + SumPending(m.unflushed[..|m.unflushed| - k]))
  {
    assert m.unflushed[..0] == [];
  }

  /** A new file numbers its chunks from 1, and a chunk stays under its number when more follow. */
  lemma NumberedFromOne(streamId: string, batch: seq<PendingChunk>, more: seq<PendingChunk>, i: nat)
    requires i < |batch|
    ensures var d := Insert(Insert(NewDisk(streamId), batch), more);
            && |d.rows| == |batch| + |more| && d.streamId == streamId
            && d.rows[i] == Row(i + 1, batch[i].n, batch[i].blob)
  {
  }

  /** insertChunks keeps the file consistent and numbers the batch above every key so far. */
  lemma InsertConsistent(d: Disk, batch: seq<PendingChunk>)
    requires Consistent(d)
    ensures Consistent(Insert(d, batch))
    ensures forall q :: q in RowSeqs(Insert(d, batch).rows) <==>
                          q in RowSeqs(d.rows) || d.nextSeq <= q < d.nextSeq + |batch|
  {
    hide SumRows;
    var added := Numbered(batch, d.nextSeq);
    SumRowsAppend(d.rows, added);
    SumNumbered(batch, d.nextSeq);
    var rows := d.rows + added;
    forall q | d.nextSeq <= q < d.nextSeq + |batch| ensures q in RowSeqs(rows) {
      assert rows[|d.rows| + (q - d.nextSeq)].seqNo == q;
    }
    forall q | q in RowSeqs(d.rows) ensures q in RowSeqs(rows) {
      var r :| r in d.rows && r.seqNo == q;
      assert r in rows;
    }
  }

  /** deleteThrough keeps the file consistent and removes exactly the keys up to the cut. */
  lemma DeleteConsistent(d: Disk, through: int, evicting: bool)
    requires Consistent(d)
    ensures Consistent(DeleteThrough(d, through, evicting))
    ensures RowSeqs(Above(d.rows, through)) == set q <- RowSeqs(d.rows) | q > through
    ensures forall r <- Above(d.rows, through) :: r in d.rows
  {
    hide UpTo;
    hide Above;
    hide SumRows;
    var gone, kept := UpTo(d.rows, through), Above(d.rows, through);
    CutSplits(d.rows, through);
    SumRowsAppend(gone, kept);
    SuffixAscends(gone, kept);
    CutKeys(d.rows, through);
    hide RowSeqs;
    hide Ascending;
  }

  lemma SuffixAscends(gone: seq<Row>, kept: seq<Row>)
    requires Ascending(gone + kept)
    ensures Ascending(kept) && forall r <- kept :: r in gone + kept
  {
    assert forall i :: 0 <= i < |kept| ==> kept[i] == (gone + kept)[|gone| + i];
  }

  lemma CutKeys(rows: seq<Row>, through: int)
    requires Ascending(rows)
    ensures RowSeqs(Above(rows, through)) == set q <- RowSeqs(rows) | q > through
  {
    hide UpTo;
    hide Above;
    CutSplits(rows, through);
    hide Ascending;
    forall q | q in RowSeqs(rows) && q > through ensures q in RowSeqs(Above(rows, through)) {
      var r :| r in rows && r.seqNo == q;
      assert r in UpTo(rows, through) + Above(rows, through);
    }
    forall q | q in RowSeqs(Above(rows, through)) ensures q in RowSeqs(rows) && q > through {
      var r :| r in Above(rows, through) && r.seqNo == q;
      assert r in UpTo(rows, through) + Above(rows, through);
    }
  }

  /** discard keeps the file consistent and removes exactly one key. */
  lemma DiscardConsistent(d: Disk, q: nat, n: nat)
    requires Consistent(d)
    requires forall r <- d.rows :: r.seqNo == q ==> r.n == n
    ensures Consistent(Discard(d, q, n))
    ensures RowSeqs(Discard(d, q, n).rows) == RowSeqs(d.rows) - {q}
    ensures forall r <- Discard(d, q, n).rows :: r in d.rows
  {
    hide SumRows;
    hide RowSeqs;
    hide Without;
    hide Ascending;
    if exists r <- d.rows :: r.seqNo == q {
      var i :| 0 <= i < |d.rows| && d.rows[i].seqNo == q;
      WithoutRow(d.rows, i);
      RemovalKeepsOrder(d.rows, i);
      SumSplitAt(d.rows, i);
      RowSeqsSplitAt(d.rows, i);
    } else {
      NoRowSeq(d.rows, q);
    }
  }

  lemma RemovalKeepsOrder(rows: seq<Row>, i: nat)
    requires Ascending(rows) && i < |rows|
    ensures Ascending(rows[..i] + rows[i + 1..])
    ensures forall r <- rows[..i] + rows[i + 1..] :: r in rows
  {
    var rest := rows[..i] + rows[i + 1..];
    assert forall j :: 0 <= j < |rest| ==> rest[j] == rows[if j < i then j else j + 1];
  }

  lemma NoRowSeq(rows: seq<Row>, q: nat)
    requires !exists r <- rows :: r.seqNo == q
    ensures RowSeqs(rows) == RowSeqs(rows) - {q}
  {
  }

  lemma SumSplitAt(rows: seq<Row>, i: nat)
    requires i < |rows|
    ensures SumRows(rows) == SumRows(rows[..i] + rows[i + 1..]) + rows[i].n
  {
    hide SumRows;
    var left, right := rows[..i], rows[i + 1..];
    assert rows == left + ([rows[i]] + right);
    SumRowsCons(rows[i], right);
    SumRowsAppend(left, [rows[i]] + right);
    SumRowsAppend(left, right);
  }

  lemma SumRowsCons(r: Row, rest: seq<Row>)
    ensures SumRows([r] + rest) == r.n + SumRows(rest)
  {
    assert ([r] + rest)[1..] == rest;
  }

  lemma RowSeqsSplitAt(rows: seq<Row>, i: nat)
    requires Ascending(rows) && i < |rows|
    ensures RowSeqs(rows[..i] + rows[i + 1..]) == RowSeqs(rows) - {rows[i].seqNo}
  {
    var left, right := rows[..i], rows[i + 1..];
    assert forall r <- left :: r.seqNo < rows[i].seqNo;
    assert forall r <- right :: r.seqNo > rows[i].seqNo;
    assert rows == left + [rows[i]] + right;
    hide Ascending;
    RowSeqsAppend(left + [rows[i]], right);
    RowSeqsAppend(left, [rows[i]]);
    RowSeqsAppend(left, right);
  }

  lemma RowSeqsAppend(a: seq<Row>, b: seq<Row>)
    ensures RowSeqs(a + b) == RowSeqs(a) + RowSeqs(b)
  {
    assert forall r :: r in a + b <==> r in a || r in b;
  }

  lemma {:induction false} SubsetSize(a: set<nat>, b: set<nat>)
    requires a <= b
    ensures |a| <= |b|
    ensures a != b ==> |a| < |b|
  {
    assert b == a + (b - a);
  }

  lemma {:induction false} AscendingSize(rows: seq<Row>)
    requires Ascending(rows)
    ensures |RowSeqs(rows)| == |rows|
  {
    if rows != [] {
      var n := |rows| - 1;
      AscendingSize(rows[..n]);
      assert rows == rows[..n] + [rows[n]];
      assert RowSeqs(rows) == RowSeqs(rows[..n]) + {rows[n].seqNo};
    }
  }

  // ---------------------------------------------------------------------------
  // Batches are prefixes, sized by their readings

  /** Everything scanned but the last row is under the limit, and the scan stops early only
      when the limit is reached. */
  lemma {:induction false} ScanBounds(rows: seq<Row>, total: int, max: int, limit: nat)
    requires total < max
    ensures var k := ScanLength(rows, total, max, limit);
            && (k > 0 ==> total + SumRows(rows[..k - 1]) < max)
            && (k < |rows| && k < limit ==> total + SumRows(rows[..k]) >= max)
    decreases |rows|
  {
    var k := ScanLength(rows, total, max, limit);
    if k == 0 {
      assert rows[..k] == [];
    } else if total + rows[0].n >= max {
      assert rows[..1] == [rows[0]] && rows[..0] == [];
      assert SumRows([rows[0]]) == rows[0].n;
    } else {
      ScanBounds(rows[1..], total + rows[0].n, max, limit - 1);
      assert rows[..k] == [rows[0]] + rows[1..][..k - 1];
      if k > 1 {
        assert rows[..k - 1] == [rows[0]] + rows[1..][..k - 2];
      } else {
        assert rows[..0] == [];
      }
    }
  }

  /** At least one row is scanned when there is one, so the queue never stalls on its size. */
  lemma ScanNonEmpty(rows: seq<Row>, max: int)
    requires rows != []
    ensures Scan(rows, max) != [] && Scan(rows, max)[0] == rows[0]
  {
  }

  // ---------------------------------------------------------------------------
  // Eviction takes a prefix

  lemma {:induction false} CutAppend(a: seq<Row>, b: seq<Row>, through: int)
    requires forall r <- a :: r.seqNo <= through
    requires forall r <- b :: r.seqNo > through
    ensures UpTo(a + b, through) == a && Above(a + b, through) == b
  {
    if a == [] {
      assert a + b == b;
      AllAbove(b, through);
    } else {
      CutAppend(a[1..], b, through);
      assert (a + b)[1..] == a[1..] + b;
      assert a == [a[0]] + a[1..];
    }
  }

  /** Cutting at the k-th key removes exactly k rows. */
  lemma CutRemovesK(rows: seq<Row>, k: nat)
    requires Ascending(rows) && 1 <= k <= |rows|
    ensures UpTo(rows, rows[k - 1].seqNo) == rows[..k]
    ensures Above(rows, rows[k - 1].seqNo) == rows[k..]
  {
    assert rows == rows[..k] + rows[k..];
    CutAppend(rows[..k], rows[k..], rows[k - 1].seqNo);
  }
}
