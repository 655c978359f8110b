/** Every step of the delivery protocol keeps the invariant. */
module DeliveryProof {
  import opened Ints
  import opened ChunkCodec
  import opened QueueModel
  import opened Wire
  import opened IngestServer
  import opened GapLedger
  import opened AckMatching
  import opened Delivery
  import opened DeliveryInvariant

  // ---------------------------------------------------------------------------
  // How the file may change under a running process

  /** Same stream, the allocator never goes back, and new rows lie at or above it. */
  ghost predicate Evolves(d: Disk, d': Disk) {
    && d'.streamId == d.streamId
    && d.nextSeq <= d'.nextSeq
    && forall q <- Live(d') :: q in Live(d) || q >= d.nextSeq
  }

  ghost predicate Extends(m: Contents, m': Contents) {
    forall k <- m :: k in m' && m'[k] == m[k]
  }

  lemma RowsExtend(c: Config, stream: string, committed: Contents, committed': Contents, rows: seq<Row>)
    requires RowsOk(c, stream, committed, rows) && Extends(committed, committed')
    ensures RowsOk(c, stream, committed', rows)
  {
    hide DecodeBlob;
    forall r | r in rows ensures RowOk(c, stream, committed', r) {
      assert RowOk(c, stream, committed, r);
    }
  }

  lemma RowsSubset(c: Config, stream: string, committed: Contents, rows: seq<Row>, rows': seq<Row>)
    requires RowsOk(c, stream, committed, rows)
    requires forall r <- rows' :: r in rows
    ensures RowsOk(c, stream, committed, rows')
  {
  }

  lemma PrefixEvolves(d: Disk, d': Disk, msgs: seq<Message>)
    requires PrefixOk(d, Live(d), msgs) && Evolves(d, d')
    ensures PrefixOk(d', Live(d'), msgs)
  {
    hide Seqs;
    hide RowSeqs;
    forall m | m in msgs ensures Holds(d', Live(d'), m) {
      assert Holds(d, Live(d), m);
    }
  }

  lemma BatchEvolves(c: Config, d: Disk, d': Disk, raw: seq<Row>, pos: nat, chunks: seq<Chunk>,
                     msgs: seq<Message>, committed: Contents, committed': Contents)
    requires BatchRead(c, d, raw, pos, chunks, msgs, committed)
    requires Evolves(d, d') && Extends(committed, committed')
    ensures BatchRead(c, d', raw, pos, chunks, msgs, committed')
  {
    hide RowsOk;
    hide Decoded;
    hide DecodeBlob;
    hide RowSeqs;
    hide Seqs;
    RowsExtend(c, d.streamId, committed, committed', raw);
    forall m | m in msgs ensures Holds(d', RowSeqs(raw), m) {
      assert Holds(d, RowSeqs(raw), m);
    }
  }

  lemma SendEvolves(c: Config, d: Disk, d': Disk, send: SendPhase, w: Waiters, msgs: seq<Message>,
                    acks: set<Ack>, seen: set<ChunkKey>, committed: Contents, committed': Contents)
    requires SendOk(c, d, send, w, msgs, acks, seen, committed)
    requires Evolves(d, d') && Extends(committed, committed')
    ensures SendOk(c, d', send, w, msgs, acks, seen, committed')
  {
    hide BatchRead;
    hide DecodeBlob;
    hide RowSeqs;
    hide Keys;
    if send.Decoding? || send.Discarding? {
      BatchEvolves(c, d, d', send.raw, send.pos, send.chunks, msgs, committed, committed');
    }
    if send.Discarding? {
      assert send.raw[send.pos] in send.raw;
      assert send.raw[send.pos].seqNo < d.nextSeq by { BatchBelow(c, d, send.raw, send.pos, send.chunks, msgs, committed); }
    }
  }

  lemma BatchBelow(c: Config, d: Disk, raw: seq<Row>, pos: nat, chunks: seq<Chunk>,
                   msgs: seq<Message>, committed: Contents)
    requires BatchRead(c, d, raw, pos, chunks, msgs, committed)
    ensures forall r <- raw :: r.seqNo < d.nextSeq
  {
  }

  lemma EvictEvolves(d: Disk, d': Disk, e: EvictPhase)
    requires EvictOk(d, e) && Evolves(d, d')
    ensures EvictOk(d', e)
  {
    if e.EvictChosen? {
      assert UpToSet(Live(d'), e.cut) <= UpToSet(Live(d), e.cut);
      SubsetSize(UpToSet(Live(d'), e.cut), UpToSet(Live(d), e.cut));
    }
  }

  /** The count of rows up to a cut, seen as a set of seqs. */
  lemma UpToSize(rows: seq<Row>, cut: int)
    requires Ascending(rows)
    ensures |UpTo(rows, cut)| == |UpToSet(RowSeqs(rows), cut)|
    ensures RowSeqs(UpTo(rows, cut)) == UpToSet(RowSeqs(rows), cut)
  {
    CutSplits(rows, cut);
    var gone, kept := UpTo(rows, cut), Above(rows, cut);
    assert forall r :: r in rows <==> r in gone || r in kept;
    assert RowSeqs(gone) == UpToSet(RowSeqs(rows), cut);
    assert Ascending(gone) by {
      assert forall i :: 0 <= i < |gone| ==> gone[i] == rows[i];
    }
    AscendingSize(gone);
  }

  // ---------------------------------------------------------------------------
  // What a step that adds no row, message or delivery leaves alone

  lemma TrafficKept(c: Config, d: Disk, d': Disk, msgs: seq<Message>, acks: set<Ack>, server: ServerState,
                    archive: seq<Process>, h: History, h': History)
    requires Traffic(c, d, msgs, acks, server, archive, h) && Evolves(d, d')
    requires h'.committed == h.committed && h'.streams == h.streams && h'.delivered == h.delivered && h'.current == h.current
    requires Gone(h) <= Gone(h')
    ensures Traffic(c, d', msgs, acks, server, archive, h')
  {
    PrefixEvolves(d, d', msgs);
    hide PrefixOk;
    hide MsgOk;
    hide CoverOk;
    hide AcksOk;
    hide DeliveredOk;
    hide ServerOk;
    hide ArchiveOk;
    hide Archived;
    hide Seqs;
    var held := Archived(archive) + server.seen;
    forall m | m in msgs ensures ExplainsGaps(m, held, h'.committed, Gone(h')) {
      assert ExplainsGaps(m, held, h.committed, Gone(h));
    }
  }

  /** Rows may leave the table if the server has them or they were given up. */
  lemma StorageKept(c: Config, d: Disk, d': Disk, m: Memory, m': Memory, seen: set<ChunkKey>, h: History, h': History)
    requires Storage(c, d, m, seen, h)
    requires Consistent(d') && d'.streamId == d.streamId && d'.nextSeq == d.nextSeq
    requires RowsOk(c, d.streamId, h.committed, d'.rows)
    requires MemOk(c, m', h'.batches)
    requires h'.committed == h.committed && h'.streams == h.streams && h'.lost == h.lost && Gone(h) <= Gone(h')
    requires forall q <- Live(d) :: q in Live(d') || KeyFor(c, d, q) in seen || KeyFor(c, d, q) in Gone(h')
    ensures Storage(c, d', m', seen, h')
  {
    hide RowsOk;
    hide MemOk;
    hide RowSeqs;
    hide Consistent;
    forall k | k in h.committed ensures Accounted(d', seen, Gone(h'), h'.lost, k) {
      assert Accounted(d, seen, Gone(h), h.lost, k);
      assert k.stream == d.streamId ==> k == KeyFor(c, d, k.seqNo);
    }
    forall q | 1 <= q < d'.nextSeq ensures KeyFor(c, d', q) in h.committed {
      assert KeyFor(c, d, q) in h.committed;
    }
  }

  /** Steps that only touch memory. */
  lemma MemoryKept(c: Config, s: State, m': Memory, h': History)
    requires Inv(c, s) && MemOk(c, m', h'.batches)
    requires h'.committed == s.hist.committed && h'.streams == s.hist.streams && h'.delivered == s.hist.delivered && h'.current == s.hist.current
    requires h'.lost == s.hist.lost && h'.evicted == s.hist.evicted && h'.discarded == s.hist.discarded
    ensures Storage(c, s.disk, m', Held(s), h')
    ensures Traffic(c, s.disk, s.msgs, s.acks, s.server, s.archive, h')
  {
    hide SendOk;
    hide Traffic;
    hide EvictOk;
    StorageKept(c, s.disk, s.disk, s.mem, m', Held(s), s.hist, h');
    TrafficKept(c, s.disk, s.disk, s.msgs, s.acks, s.server, s.archive, s.hist, h');
  }

  /** Counter updates: the buffers stay as they are. */
  lemma BuffersKept(c: Config, s: State, m': Memory)
    requires Inv(c, s) && m'.buf == s.mem.buf && m'.unflushed == s.mem.unflushed
    ensures Storage(c, s.disk, m', Held(s), s.hist)
  {
    hide SendOk;
    hide Traffic;
    hide EvictOk;
    hide RowsOk;
  }

  // ---------------------------------------------------------------------------
  // Flush

  lemma AppendKeeps(c: Config, s: State, s': State, r: Reading)
    requires Inv(c, s) && Append(c, s, s', r)
    ensures Inv(c, s')
  {
    hide Traffic;
    hide SendOk;
    hide EvictOk;
    MemoryKept(c, s, s'.mem, s'.hist);
    hide Storage;
  }

  lemma SealKeeps(c: Config, s: State, s': State)
    requires Inv(c, s) && SealBuffer(c, s, s')
    ensures Inv(c, s')
  {
    hide Traffic;
    hide SendOk;
    hide EvictOk;
    hide EncodeBlob;
    MemoryKept(c, s, s'.mem, s'.hist);
    hide Storage;
    hide SumPending;
    if s.mem.buf != [] && NonNegativeIds(s.mem.buf) {
      var p := PendingChunk(|s.mem.buf|, EncodeBlob(c.z, s.mem.buf));
      SumPendingAppend(s.mem.unflushed, [p]);
      SumOne(p);
    }
  }

  lemma SumOne(p: PendingChunk)
    ensures SumPending([p]) == p.n
  {
    assert [p][1..] == [];
  }

  lemma CommittedFresh(c: Config, s: State)
    requires CommittedOk(c, s.disk, s.hist.committed, s.hist.streams)
    ensures Extends(s.hist.committed, s.hist.committed + Committed(c, s))
    ensures Committed(c, s).Keys == NextKeys(c, s.disk, |s.hist.batches|)
  {
  }

  /** Freshly written rows decode to the readings behind them. */
  lemma WrittenRowsOk(c: Config, s: State)
    requires c.z.Inverse()
    requires CommittedOk(c, s.disk, s.hist.committed, s.hist.streams)
    requires MemOk(c, s.mem, s.hist.batches)
    ensures RowsOk(c, s.disk.streamId, s.hist.committed + Committed(c, s), Numbered(s.mem.unflushed, s.disk.nextSeq))
  {
    hide DecodeBlob;
    hide EncodeBlob;
    CommittedFresh(c, s);
    var rows := Numbered(s.mem.unflushed, s.disk.nextSeq);
    forall i | 0 <= i < |rows|
      ensures RowOk(c, s.disk.streamId, s.hist.committed + Committed(c, s), rows[i])
    {
      assert BatchOk(c, s.mem.unflushed[i], s.hist.batches[i]);
      BlobRoundTrip(c.z, s.hist.batches[i]);
    }
  }

  lemma ExtendCommitted(c: Config, d: Disk, d': Disk, committed: Contents, added: Contents, streams: set<string>)
    requires CommittedOk(c, d, committed, streams)
    requires d'.streamId == d.streamId && d'.nextSeq >= d.nextSeq >= 1
    requires added.Keys == NextKeys(c, d, d'.nextSeq - d.nextSeq)
    ensures CommittedOk(c, d', committed + added, streams)
  {
    forall q | 1 <= q < d'.nextSeq ensures KeyFor(c, d', q) in committed + added {
      assert q < d.nextSeq ==> KeyFor(c, d, q) in committed;
    }
    forall k, q | k in committed + added && 1 <= q < k.seqNo
      ensures ChunkKey(k.gateway, k.stream, q) in committed + added
    {
      if k in added {
        assert KeyFor(c, d', q) in committed + added;
      }
    }
  }

  lemma ExtendAccounted(c: Config, d: Disk, d': Disk, seen: set<ChunkKey>, committed: Contents, added: Contents,
                        gone: set<ChunkKey>, lost: set<ChunkKey>)
    requires AccountedOk(d, seen, committed, gone, lost)
    requires d'.streamId == d.streamId && d'.nextSeq >= d.nextSeq
    requires added.Keys == NextKeys(c, d, d'.nextSeq - d.nextSeq)
    requires forall q :: q in Live(d') <==> q in Live(d) || d.nextSeq <= q < d'.nextSeq
    ensures AccountedOk(d', seen, committed + added, gone, lost)
  {
    hide RowSeqs;
    forall k | k in committed + added ensures Accounted(d', seen, gone, lost, k) {
      if k !in added {
        assert Accounted(d, seen, gone, lost, k);
      }
    }
  }

  lemma WriteKeepsStorage(c: Config, s: State, s': State)
    requires c.z.Inverse() && Inv(c, s) && WriteChunks(c, s, s')
    ensures Storage(c, s'.disk, s'.mem, Held(s'), s'.hist)
    ensures Evolves(s.disk, s'.disk) && Extends(s.hist.committed, s'.hist.committed)
  {
    hide SendOk;
    hide Traffic;
    var d, d', added := s.disk, s'.disk, Committed(c, s);
    InsertConsistent(d, s.mem.unflushed);
    CommittedFresh(c, s);
    assert added.Keys == NextKeys(c, d, |s.mem.unflushed|);
    WrittenRowsOk(c, s);
    RowsExtend(c, d.streamId, s.hist.committed, s'.hist.committed, d.rows);
    ExtendCommitted(c, d, d', s.hist.committed, added, s.hist.streams);
    ExtendAccounted(c, d, d', Held(s), s.hist.committed, added, Gone(s.hist), s.hist.lost);
    hide Committed;
    hide RowOk;
    hide CommittedOk;
    hide AccountedOk;
    hide MemOk;
    hide Consistent;
    assert RowsOk(c, d'.streamId, s'.hist.committed, d'.rows);
  }

  /** What the server processes wrote stays right when more is committed. */
  lemma WritingsExtend(server: ServerState, archive: seq<Process>, msgs: seq<Message>, committed: Contents, committed': Contents)
    requires ServerOk(server, committed) && ArchiveOk(archive, msgs, committed) && Extends(committed, committed')
    ensures ServerOk(server, committed') && ArchiveOk(archive, msgs, committed')
  {
    hide Balanced;
    hide DeliveredOk;
    hide DistinctKeys;
    hide ToWireAll;
    LogExtends(server.stored, committed, committed');
    forall p | p in archive ensures ProcessOk(p, msgs, committed') {
      assert ProcessOk(p, msgs, committed);
      LogExtends(p.log, committed, committed');
    }
  }

  lemma LogExtends(log: seq<StoredChunk>, committed: Contents, committed': Contents)
    requires LogOk(log, committed) && Extends(committed, committed')
    ensures LogOk(log, committed')
  {
    hide DistinctKeys;
    hide ToWireAll;
  }

  lemma WriteKeepsTraffic(c: Config, s: State, s': State)
    requires Inv(c, s) && WriteChunks(c, s, s')
    requires Evolves(s.disk, s'.disk) && Extends(s.hist.committed, s'.hist.committed)
    ensures Traffic(c, s'.disk, s'.msgs, s'.acks, s'.server, s'.archive, s'.hist)
  {
    CommittedFresh(c, s);
    PrefixEvolves(s.disk, s'.disk, s.msgs);
    hide Committed;
    hide Storage;
    hide SendOk;
    hide Seqs;
    hide RowSeqs;
    hide CoverOk;
    hide AcksOk;
    hide DeliveredOk;
    hide Archived;
    WritingsExtend(s.server, s.archive, s.msgs, s.hist.committed, s'.hist.committed);
    hide ServerOk;
    hide ArchiveOk;
    forall m | m in s.msgs
      ensures MsgOk(c, m, s'.hist.committed, s.hist.streams)
      ensures ExplainsGaps(m, Held(s), s'.hist.committed, Gone(s.hist))
    {
      assert MsgOk(c, m, s.hist.committed, s.hist.streams);
      assert ExplainsGaps(m, Held(s), s.hist.committed, Gone(s.hist));
      assert Holds(s.disk, Live(s.disk), m);
    }
  }

  lemma WriteKeeps(c: Config, s: State, s': State)
    requires c.z.Inverse() && Inv(c, s) && WriteChunks(c, s, s')
    ensures Inv(c, s')
  {
    hide Storage;
    hide Traffic;
    hide SendOk;
    hide EvictOk;
    WriteKeepsStorage(c, s, s');
    WriteKeepsTraffic(c, s, s');
    SendEvolves(c, s.disk, s'.disk, s.send, s.waiters, s.msgs, s.acks, Held(s), s.hist.committed, s'.hist.committed);
    EvictEvolves(s.disk, s'.disk, s.evict);
    hide Evolves;
    hide Extends;
  }

  lemma WriteFailsKeeps(c: Config, s: State, s': State)
    requires Inv(c, s) && WriteFails(c, s, s')
    ensures Inv(c, s')
  {
    hide Traffic;
    hide SendOk;
    hide EvictOk;
    hide BatchOk;
    hide SumPending;
    MemoryKept(c, s, s'.mem, s'.hist);
    hide Storage;
    var over := |s.mem.unflushed| - c.maxUnflushed;
    if over > 0 {
      var u := s.mem.unflushed;
      assert u == u[..over] + u[over..];
      SumPendingAppend(u[..over], u[over..]);
    }
  }

  lemma CountWriteKeeps(c: Config, s: State, s': State)
    requires Inv(c, s) && CountWrite(c, s, s')
    ensures Inv(c, s')
  {
    hide Traffic;
    hide SendOk;
    hide EvictOk;
    assert s'.mem.unflushed == [];
    MemoryKept(c, s, s'.mem, s'.hist);
    hide Storage;
  }

  // ---------------------------------------------------------------------------
  // ReadBatch

  lemma ScanCoversPrefix(rows: seq<Row>, k: nat)
    requires Ascending(rows) && k <= |rows|
    ensures Ascending(rows[..k]) && RowSeqs(rows[..k]) <= RowSeqs(rows)
    ensures k > 0 ==> forall q <- RowSeqs(rows) :: q <= rows[k - 1].seqNo ==> q in RowSeqs(rows[..k])
  {
    var raw := rows[..k];
    assert forall r :: r in raw ==> r in rows;
    forall q | k > 0 && q in RowSeqs(rows) && q <= rows[k - 1].seqNo ensures q in RowSeqs(raw) {
      var i :| 0 <= i < |rows| && rows[i].seqNo == q;
      assert raw[i] == rows[i];
    }
  }

  lemma StartBatchReads(c: Config, d: Disk, msgs: seq<Message>, committed: Contents)
    requires Consistent(d) && RowsOk(c, d.streamId, committed, d.rows) && PrefixOk(d, Live(d), msgs)
    ensures BatchRead(c, d, Scan(d.rows, c.maxReadings), 0, [], msgs, committed)
  {
    hide RowsOk;
    hide Seqs;
    var rows, raw := d.rows, Scan(d.rows, c.maxReadings);
    ScanCoversPrefix(rows, |raw|);
    RowsSubset(c, d.streamId, committed, rows, raw);
    ScanUnderLimit(rows, c.maxReadings);
    hide Scan;
    hide RowSeqs;
    hide SumRows;
    assert raw[..0] == [];
    forall m | m in msgs ensures Holds(d, RowSeqs(raw), m) {
      assert Holds(d, Live(d), m);
    }
  }

  lemma ScanUnderLimit(rows: seq<Row>, max: int)
    ensures var raw := Scan(rows, max); max > 0 && raw != [] ==> SumRows(raw[..|raw| - 1]) < max
  {
    var raw := Scan(rows, max);
    if max > 0 && raw != [] {
      ScanBounds(rows, 0, max, READ_BATCH_SCAN_LIMIT);
      assert raw[..|raw| - 1] == rows[..|raw| - 1];
    }
  }

  lemma StartBatchKeeps(c: Config, s: State, s': State)
    requires Inv(c, s) && StartBatch(c, s, s')
    ensures Inv(c, s')
  {
    hide EvictOk;
    hide BatchRead;
    hide Scan;
    hide RowsOk;
    hide PrefixOk;
    StartBatchReads(c, s.disk, s.msgs, s.hist.committed);
    hide Storage;
    hide Traffic;
  }

  lemma DecodedSnoc(z: Flate, raw: seq<Row>, pos: nat)
    requires pos < |raw|
    ensures var rs := DecodeBlob(z, raw[pos].blob);
            Decoded(z, raw[..pos + 1]) ==
            Decoded(z, raw[..pos]) + (if rs.Some? then [Chunk(raw[pos].seqNo, rs.value)] else [])
  {
    assert raw[..pos + 1][..pos] == raw[..pos];
  }

  /** Moving past a row that decoded, or that is no longer in the table. */
  lemma BatchAdvances(c: Config, d: Disk, raw: seq<Row>, pos: nat, chunks: seq<Chunk>,
                      msgs: seq<Message>, committed: Contents)
    requires BatchRead(c, d, raw, pos, chunks, msgs, committed) && pos < |raw|
    requires DecodeBlob(c.z, raw[pos].blob).None? ==> raw[pos].seqNo !in Live(d)
    ensures BatchRead(c, d, raw, pos + 1, Decoded(c.z, raw[..pos + 1]), msgs, committed)
  {
    hide RowsOk;
    hide Decoded;
    hide DecodeBlob;
    hide PrefixOk;
    hide RowSeqs;
  }

  /** The forwarder's state one row further on. */
  lemma SendAdvances(c: Config, s: State)
    requires Inv(c, s) && (s.send.Decoding? || s.send.Discarding?) && s.send.pos < |s.send.raw|
    requires DecodeBlob(c.z, s.send.raw[s.send.pos].blob).None? ==> s.send.raw[s.send.pos].seqNo !in Live(s.disk)
    ensures var rs := DecodeBlob(c.z, s.send.raw[s.send.pos].blob);
            var more := if rs.Some? then [Chunk(s.send.raw[s.send.pos].seqNo, rs.value)] else [];
            SendOk(c, s.disk, Decoding(s.send.raw, s.send.pos + 1, s.send.chunks + more), s.waiters,
                   s.msgs, s.acks, Held(s), s.hist.committed)
  {
    hide Storage;
    hide Traffic;
    hide EvictOk;
    hide DecodeBlob;
    hide RowSeqs;
    hide Decoded;
    var raw, pos := s.send.raw, s.send.pos;
    DecodedSnoc(c.z, raw, pos);
    BatchAdvances(c, s.disk, raw, pos, s.send.chunks, s.msgs, s.hist.committed);
    BatchChunks(c, s.disk, raw, pos, s.send.chunks, s.msgs, s.hist.committed);
    hide BatchRead;
  }

  /** DecodeRow, and a corrupt row found to be gone already. */
  lemma AdvanceKeeps(c: Config, s: State, s': State)
    requires Inv(c, s) && (DecodeRow(c, s, s') || DiscardFindsNothing(c, s, s'))
    ensures Inv(c, s')
  {
    hide Storage;
    hide Traffic;
    hide EvictOk;
    hide DecodeBlob;
    hide RowSeqs;
    SendAdvances(c, s);
    hide SendOk;
    assert s.send.chunks + [] == s.send.chunks;
  }

  lemma BatchChunks(c: Config, d: Disk, raw: seq<Row>, pos: nat, chunks: seq<Chunk>,
                    msgs: seq<Message>, committed: Contents)
    requires BatchRead(c, d, raw, pos, chunks, msgs, committed)
    ensures pos <= |raw| && chunks == Decoded(c.z, raw[..pos]) && RowsOk(c, d.streamId, committed, raw)
  {
  }

  lemma CountDiscardKeeps(c: Config, s: State, s': State)
    requires Inv(c, s) && CountDiscard(c, s, s')
    ensures Inv(c, s')
  {
    hide Storage;
    hide Traffic;
    hide EvictOk;
    hide DecodeBlob;
    hide BatchRead;
    BuffersKept(c, s, s'.mem);
    SendAdvances(c, s);
    assert DecodeBlob(c.z, s.send.raw[s.send.pos].blob).None?;
    hide SendOk;
    assert s.send.chunks + [] == s.send.chunks;
  }

  lemma DiscardCounts(d: Disk, row: Row)
    requires row.seqNo in RowSeqs(d.rows)
    ensures var d' := Discard(d, row.seqNo, row.n);
            && d'.pendingChunks == d.pendingChunks - 1 && d'.pendingReadings == d.pendingReadings - row.n
            && d'.evictedReadings == d.evictedReadings && d'.nextSeq == d.nextSeq && d'.streamId == d.streamId
  {
  }

  /** Rows with one seq have one size: both are the committed one's. */
  lemma RowCount(c: Config, d: Disk, committed: Contents, raw: seq<Row>, row: Row)
    requires RowsOk(c, d.streamId, committed, d.rows) && RowsOk(c, d.streamId, committed, raw) && row in raw
    ensures forall r <- d.rows :: r.seqNo == row.seqNo ==> r.n == row.n
  {
    hide DecodeBlob;
    assert RowOk(c, d.streamId, committed, row);
  }

  lemma DiscardKeepsStorage(c: Config, s: State, s': State)
    requires Inv(c, s) && DiscardRow(c, s, s')
    ensures Storage(c, s'.disk, s'.mem, Held(s'), s'.hist)
    ensures Evolves(s.disk, s'.disk)
  {
    hide DecodeBlob;
    hide Traffic;
    hide EvictOk;
    var d, d', row := s.disk, s'.disk, s.send.raw[s.send.pos];
    BatchChunks(c, d, s.send.raw, s.send.pos, s.send.chunks, s.msgs, s.hist.committed);
    hide BatchRead;
    RowCount(c, d, s.hist.committed, s.send.raw, row);
    DiscardConsistent(d, row.seqNo, row.n);
    DiscardCounts(d, row);
    RowsSubset(c, d.streamId, s.hist.committed, d.rows, d'.rows);
    hide Discard;
    hide RowsOk;
    hide MemOk;
    hide Consistent;
    hide RowSeqs;
    StorageKept(c, d, d', s.mem, s'.mem, Held(s), s.hist, s'.hist);
  }

  lemma DiscardKeeps(c: Config, s: State, s': State)
    requires Inv(c, s) && DiscardRow(c, s, s')
    ensures Inv(c, s')
  {
    hide Storage;
    hide Traffic;
    hide BatchRead;
    hide EvictOk;
    hide Discard;
    hide DecodeBlob;
    hide RowSeqs;
    hide Evolves;
    var d, d', row := s.disk, s'.disk, s.send.raw[s.send.pos];
    DiscardKeepsStorage(c, s, s');
    TrafficKept(c, d, d', s.msgs, s.acks, s.server, s.archive, s.hist, s'.hist);
    SendEvolves(c, d, d', s.send, s.waiters, s.msgs, s.acks, Held(s), s.hist.committed, s.hist.committed);
    EvictEvolves(d, d', s.evict);
    DiscardCounts(d, row);
    assert row.seqNo !in Live(d') by { DiscardRemoves(c, s, s'); }
  }

  lemma DiscardRemoves(c: Config, s: State, s': State)
    requires Inv(c, s) && DiscardRow(c, s, s')
    ensures s.send.raw[s.send.pos].seqNo !in Live(s'.disk)
  {
    hide DecodeBlob;
    hide Traffic;
    var d, row := s.disk, s.send.raw[s.send.pos];
    BatchChunks(c, d, s.send.raw, s.send.pos, s.send.chunks, s.msgs, s.hist.committed);
    hide BatchRead;
    RowCount(c, d, s.hist.committed, s.send.raw, row);
    DiscardConsistent(d, row.seqNo, row.n);
  }

  /** Giving up on a batch before or after it was published. */
  lemma BackToIdleKeeps(c: Config, s: State, s': State)
    requires Inv(c, s)
    requires DiscardFails(c, s, s') || NothingToSend(c, s, s') || SendRefused(c, s, s') || SendFails(c, s, s') || DeleteFails(c, s, s')
    ensures Inv(c, s')
  {
    hide Storage;
    hide Traffic;
    hide EvictOk;
    hide BatchRead;
    hide DecodeBlob;
    assert s'.waiters == NO_WAITERS;
  }

  // ---------------------------------------------------------------------------
  // Send

  /** A decoded batch ascends with its rows. */
  lemma {:induction false} DecodedAscends(z: Flate, raw: seq<Row>)
    requires Ascending(raw)
    ensures var chunks := Decoded(z, raw);
            && (forall i, j :: 0 <= i < j < |chunks| ==> chunks[i].seqNo < chunks[j].seqNo)
            && (forall ch <- chunks :: exists r <- raw :: r.seqNo == ch.seqNo)
  {
    hide DecodeBlob;
    if raw != [] {
      var n := |raw| - 1;
      var init, last := raw[..n], raw[n];
      DecodedAscends(z, init);
      assert forall r <- init :: r.seqNo < last.seqNo && r in raw;
      assert last in raw;
    }
  }

  /** Its chunks are what was committed. */
  lemma {:induction false} DecodedContent(c: Config, stream: string, committed: Contents, raw: seq<Row>)
    requires RowsOk(c, stream, committed, raw)
    ensures forall ch <- Decoded(c.z, raw) ::
              var k := ChunkKey(c.gateway, stream, ch.seqNo);
              k in committed && ch.readings == AllAtMillis(committed[k])
  {
    hide DecodeBlob;
    hide AllAtMillis;
    if raw != [] {
      var n := |raw| - 1;
      DecodedContent(c, stream, committed, raw[..n]);
      assert RowOk(c, stream, committed, raw[n]);
    }
  }

  /** It leaves out no row that decodes. */
  lemma {:induction false} DecodedComplete(z: Flate, raw: seq<Row>)
    ensures forall r <- raw :: DecodeBlob(z, r.blob).Some? ==> exists ch <- Decoded(z, raw) :: ch.seqNo == r.seqNo
  {
    hide DecodeBlob;
    if raw != [] {
      var n := |raw| - 1;
      var init, last := raw[..n], raw[n];
      DecodedComplete(z, init);
      forall r | r in raw && DecodeBlob(z, r.blob).Some? ensures exists ch <- Decoded(z, raw) :: ch.seqNo == r.seqNo {
        if r in init {
          var ch :| ch in Decoded(z, init) && ch.seqNo == r.seqNo;
          assert ch in Decoded(z, raw);
        } else {
          assert r == last;
          assert Decoded(z, raw)[|Decoded(z, init)|].seqNo == r.seqNo;
        }
      }
    }
  }

  /** The message built from a finished batch. */
  lemma BuiltMessage(c: Config, d: Disk, raw: seq<Row>, chunks: seq<Chunk>, msgs: seq<Message>,
                     committed: Contents, streams: set<string>)
    requires CommittedOk(c, d, committed, streams)
    requires BatchRead(c, d, raw, |raw|, chunks, msgs, committed) && chunks != [] && raw != []
    ensures var m := MessageOf(c.gateway, d.streamId, chunks);
            MsgOk(c, m, committed, streams) && raw[0].seqNo <= m.toSeq
  {
    hide DecodeBlob;
    hide AllAtMillis;
    hide ToWireChunks;
    assert raw[..|raw|] == raw;
    DecodedContent(c, d.streamId, committed, raw);
    BuiltContent(c, d.streamId, chunks, committed);
    EndInBatch(c.z, raw);
    BuiltAscends(c, d.streamId, chunks);
    hide BatchRead;
    hide Decoded;
    hide AscendingChunks;
  }

  /** A batch's chunks ascend, and its last one is at or after its first row. */
  lemma EndInBatch(z: Flate, raw: seq<Row>)
    requires Ascending(raw) && Decoded(z, raw) != []
    ensures var chunks := Decoded(z, raw);
            && raw != [] && raw[0].seqNo <= chunks[|chunks| - 1].seqNo
            && forall i, j :: 0 <= i < j < |chunks| ==> chunks[i].seqNo < chunks[j].seqNo
  {
    hide DecodeBlob;
    var chunks := Decoded(z, raw);
    DecodedAscends(z, raw);
    assert chunks[|chunks| - 1] in chunks;
    var i :| 0 <= i < |raw| && raw[i].seqNo == chunks[|chunks| - 1].seqNo;
  }

  lemma BuiltAscends(c: Config, stream: string, chunks: seq<Chunk>)
    requires chunks != [] && forall i, j :: 0 <= i < j < |chunks| ==> chunks[i].seqNo < chunks[j].seqNo
    ensures var m := MessageOf(c.gateway, stream, chunks);
            && AscendingChunks(m.chunks)
            && m.fromSeq == m.chunks[0].seqNo && m.toSeq == m.chunks[|m.chunks| - 1].seqNo
  {
    hide ToWireAll;
    var m := MessageOf(c.gateway, stream, chunks);
    assert forall i :: 0 <= i < |chunks| ==> m.chunks[i].seqNo == chunks[i].seqNo;
  }

  /** On the wire, a chunk carries what was committed under its seq. */
  lemma BuiltContent(c: Config, stream: string, chunks: seq<Chunk>, committed: Contents)
    requires chunks != []
    requires forall ch <- chunks ::
               var k := ChunkKey(c.gateway, stream, ch.seqNo);
               k in committed && ch.readings == AllAtMillis(committed[k])
    ensures var m := MessageOf(c.gateway, stream, chunks);
            forall ch <- m.chunks :: Key(m, ch) in committed && ch.readings == ToWireAll(committed[Key(m, ch)])
  {
    hide AllAtMillis;
    hide ToWireAll;
    var m := MessageOf(c.gateway, stream, chunks);
    forall ch | ch in m.chunks
      ensures Key(m, ch) in committed && ch.readings == ToWireAll(committed[Key(m, ch)])
    {
      var i :| 0 <= i < |m.chunks| && m.chunks[i] == ch;
      assert chunks[i] in chunks;
      WireOfStored(committed[Key(m, ch)]);
    }
  }

  /** It holds every row up to its end, and nothing an earlier message could have missed. */
  lemma BuiltMessageHolds(c: Config, d: Disk, raw: seq<Row>, chunks: seq<Chunk>, msgs: seq<Message>, committed: Contents)
    requires BatchRead(c, d, raw, |raw|, chunks, msgs, committed) && chunks != [] && raw != []
    ensures var m := MessageOf(c.gateway, d.streamId, chunks);
            && Holds(d, Live(d), m) && Seqs(m.chunks) <= RowSeqs(raw)
            && forall m0 <- msgs :: Covers(m0, m)
  {
    hide DecodeBlob;
    hide RowsOk;
    var m := MessageOf(c.gateway, d.streamId, chunks);
    assert raw[..|raw|] == raw;
    BuiltFromRows(c, d.streamId, raw);
    hide Decoded;
    hide MessageOf;
    assert forall r <- raw :: r.seqNo <= raw[|raw| - 1].seqNo;
    hide Ascending;
    hide Seqs;
    forall q | q in Live(d) && q <= m.toSeq ensures q in Seqs(m.chunks) {
      var r :| r in raw && r.seqNo == q;
    }
    forall m0 | m0 in msgs ensures Covers(m0, m) {
      assert Holds(d, RowSeqs(raw), m0);
    }
  }

  /** A message's seqs are those of the batch's decodable rows. */
  lemma BuiltFromRows(c: Config, stream: string, raw: seq<Row>)
    requires Ascending(raw) && Decoded(c.z, raw) != []
    ensures var m := MessageOf(c.gateway, stream, Decoded(c.z, raw));
            && m.streamId == stream && m.toSeq in Seqs(m.chunks)
            && (forall q <- Seqs(m.chunks) :: q in RowSeqs(raw))
            && (forall r <- raw :: DecodeBlob(c.z, r.blob).Some? ==> r.seqNo in Seqs(m.chunks))
  {
    hide DecodeBlob;
    DecodedAscends(c.z, raw);
    DecodedComplete(c.z, raw);
    hide Decoded;
    hide Ascending;
    BuiltSeqs(c, stream, Decoded(c.z, raw));
    hide Seqs;
    hide ToWireChunks;
  }

  lemma BuiltSeqs(c: Config, stream: string, chunks: seq<Chunk>)
    requires chunks != []
    ensures var m := MessageOf(c.gateway, stream, chunks);
            && m.toSeq in Seqs(m.chunks)
            && (forall q <- Seqs(m.chunks) :: exists ch <- chunks :: ch.seqNo == q)
            && (forall ch <- chunks :: ch.seqNo in Seqs(m.chunks))
  {
    hide ToWireAll;
    var m := MessageOf(c.gateway, stream, chunks);
    forall q | q in Seqs(m.chunks) ensures exists ch <- chunks :: ch.seqNo == q {
      var i :| 0 <= i < |m.chunks| && m.chunks[i].seqNo == q;
      assert chunks[i] in chunks;
    }
    forall i | 0 <= i < |chunks| ensures chunks[i].seqNo in Seqs(m.chunks) {
      assert m.chunks[i].seqNo == chunks[i].seqNo && m.chunks[i] in m.chunks;
    }
  }

  lemma BuiltMessageExplains(c: Config, d: Disk, m: Message, seen: set<ChunkKey>, committed: Contents,
                             gone: set<ChunkKey>, lost: set<ChunkKey>)
    requires AccountedOk(d, seen, committed, gone, lost) && Holds(d, Live(d), m) && m.streamId == d.streamId
    ensures ExplainsGaps(m, seen, committed, gone)
  {
    hide RowSeqs;
    hide Seqs;
    forall k | k in committed && k.stream == m.streamId && k.seqNo <= m.toSeq && k.seqNo !in Seqs(m.chunks)
      ensures k in seen || k in gone
    {
      assert Accounted(d, seen, gone, lost, k);
    }
  }

  /** One more message at the end of the log. */
  lemma TrafficSends(c: Config, d: Disk, msgs: seq<Message>, m: Message, acks: set<Ack>, server: ServerState,
                     archive: seq<Process>, h: History)
    requires Traffic(c, d, msgs, acks, server, archive, h)
    requires MsgOk(c, m, h.committed, h.streams) && Holds(d, Live(d), m)
    requires ExplainsGaps(m, Archived(archive) + server.seen, h.committed, Gone(h))
    requires forall m0 <- msgs :: Covers(m0, m)
    ensures Traffic(c, d, msgs + [m], acks, server, archive, h)
  {
    hide MsgOk;
    hide Holds;
    hide ExplainsGaps;
    hide Covers;
    hide ServerOk;
    hide Keys;
    hide Archived;
    var msgs' := msgs + [m];
    ArchiveSends(archive, msgs, m, h.committed);
    DeliveredSends(msgs, m, h.delivered, Archived(archive) + server.seen);
    DeliveredSends(msgs, m, h.current, server.seen);
    hide ArchiveOk;
    hide DeliveredOk;
    assert forall i :: 0 <= i < |msgs| ==> msgs'[i] == msgs[i];
    forall a | a in acks ensures AckOk(msgs', h.delivered, a) {
      assert AckOk(msgs, h.delivered, a);
    }
  }

  lemma DeliveredSends(msgs: seq<Message>, m: Message, delivered: set<nat>, seen: set<ChunkKey>)
    requires DeliveredOk(msgs, delivered, seen)
    ensures DeliveredOk(msgs + [m], delivered, seen)
  {
    hide Keys;
    var msgs' := msgs + [m];
    assert forall i :: 0 <= i < |msgs| ==> msgs'[i] == msgs[i];
    forall k | k in seen ensures exists i <- delivered :: i < |msgs'| && k in Keys(msgs'[i], msgs'[i].chunks) {
      var i :| i in delivered && i < |msgs| && k in Keys(msgs[i], msgs[i].chunks);
      assert msgs'[i] == msgs[i];
    }
  }

  lemma ArchiveSends(archive: seq<Process>, msgs: seq<Message>, m: Message, committed: Contents)
    requires ArchiveOk(archive, msgs, committed)
    ensures ArchiveOk(archive, msgs + [m], committed)
  {
    hide DeliveredOk;
    hide LogOk;
    forall p | p in archive ensures ProcessOk(p, msgs + [m], committed) {
      assert ProcessOk(p, msgs, committed);
      DeliveredSends(msgs, m, p.stored, KeysOf(p.log));
    }
  }

  lemma PublishKeepsTraffic(c: Config, s: State, s': State)
    requires Inv(c, s) && Publish(c, s, s')
    ensures Traffic(c, s'.disk, s'.msgs, s'.acks, s'.server, s'.archive, s'.hist)
    ensures s'.send.msg.streamId == s.disk.streamId && s'.send.head <= s'.send.msg.toSeq
  {
    var d, h := s.disk, s.hist;
    var raw, chunks, m := s.send.raw, s.send.chunks, s'.send.msg;
    hide BatchRead;
    hide Marshalable;
    BuiltMessage(c, d, raw, chunks, s.msgs, h.committed, h.streams);
    BuiltMessageHolds(c, d, raw, chunks, s.msgs, h.committed);
    BuiltStream(c, d, chunks);
    hide MessageOf;
    hide Traffic;
    hide MsgOk;
    hide Holds;
    hide Covers;
    BuiltMessageExplains(c, d, m, Held(s), h.committed, Gone(h), h.lost);
    hide ExplainsGaps;
    TrafficSends(c, d, s.msgs, m, s.acks, s.server, s.archive, h);
  }

  lemma PublishKeeps(c: Config, s: State, s': State)
    requires Inv(c, s) && Publish(c, s, s')
    ensures Inv(c, s')
  {
    hide BatchRead;
    hide Marshalable;
    hide MessageOf;
    hide Storage;
    hide Traffic;
    hide EvictOk;
    PublishKeepsTraffic(c, s, s');
  }

  lemma BuiltStream(c: Config, d: Disk, chunks: seq<Chunk>)
    requires chunks != []
    ensures MessageOf(c.gateway, d.streamId, chunks).streamId == d.streamId
  {
  }

  /** The heart of ack matching: an error-free ack for (stream, to_seq) answers some message
      with that end, perhaps an earlier one, and that one holds every chunk of the message
      now waiting. So the server has them all. */
  lemma AckMeansStored(c: Config, s: State, a: Ack)
    requires Inv(c, s) && s.send.Sending?
    requires a in s.acks && a.error == "" && a.toSeq == s.send.msg.toSeq && a.streamId == s.send.msg.streamId
    ensures Keys(s.send.msg, s.send.msg.chunks) <= Held(s)
  {
    hide Storage;
    hide EvictOk;
    hide ServerOk;
    hide ArchiveOk;
    hide Archived;
    hide GapsOk;
    hide PrefixOk;
    var m, n := s.send.msg, |s.msgs| - 1;
    assert AckOk(s.msgs, s.hist.delivered, a);
    var i :| i in s.hist.delivered && i < |s.msgs| && s.msgs[i].streamId == a.streamId && s.msgs[i].toSeq == a.toSeq;
    var m0 := s.msgs[i];
    assert MsgOk(c, m, s.hist.committed, s.hist.streams) && MsgOk(c, m0, s.hist.committed, s.hist.streams);
    forall ch | ch in m.chunks ensures Key(m, ch) in Held(s) {
      assert ch.seqNo in Seqs(m.chunks) && ch.seqNo <= m.toSeq;
      assert i < n ==> Covers(m0, m);
      var ch0 :| ch0 in m0.chunks && ch0.seqNo == ch.seqNo;
      assert Key(m0, ch0) in Keys(m0, m0.chunks);
    }
  }

  lemma SendReturnsKeeps(c: Config, s: State, s': State)
    requires Inv(c, s) && SendReturns(c, s, s')
    ensures Inv(c, s')
  {
    hide Storage;
    hide Traffic;
    hide EvictOk;
    hide Keys;
    AckMeansStored(c, s, s.waiters.pending[s.send.msg.toSeq].value);
    assert s'.waiters == NO_WAITERS;
  }

  lemma AckArrivesKeeps(c: Config, s: State, s': State, a: Ack)
    requires Inv(c, s) && AckArrives(c, s, s', a)
    ensures Inv(c, s')
  {
    assert AckOk(s.msgs, s.hist.delivered, a);
    hide Storage;
    hide Traffic;
    hide EvictOk;
    hide BatchRead;
    hide DecodeBlob;
    hide Keys;
  }

  /** Ack never deletes a chunk the server lacks. */
  lemma AckedRowsStored(c: Config, s: State)
    requires Inv(c, s) && s.send.Released?
    ensures forall q <- Live(s.disk) :: q <= s.send.msg.toSeq ==> KeyFor(c, s.disk, q) in Held(s)
  {
    hide Storage;
    hide EvictOk;
    hide ServerOk;
    hide GapsOk;
    hide CoverOk;
    hide RowSeqs;
    var m := s.send.msg;
    assert Holds(s.disk, Live(s.disk), m) && MsgOk(c, m, s.hist.committed, s.hist.streams);
    forall q | q in Live(s.disk) && q <= m.toSeq ensures KeyFor(c, s.disk, q) in Held(s) {
      var ch :| ch in m.chunks && ch.seqNo == q;
      assert Key(m, ch) in Keys(m, m.chunks);
    }
  }

  /** A deletion up to `through` whose rows are accounted for elsewhere. */
  lemma DeletionKeeps(c: Config, s: State, d': Disk, through: int, evicting: bool, h': History)
    requires Inv(c, s) && d' == DeleteThrough(s.disk, through, evicting)
    requires h'.committed == s.hist.committed && h'.streams == s.hist.streams && h'.delivered == s.hist.delivered && h'.current == s.hist.current
    requires h'.lost == s.hist.lost && h'.batches == s.hist.batches && Gone(s.hist) <= Gone(h')
    requires forall q <- Live(s.disk) :: q <= through ==> KeyFor(c, s.disk, q) in Held(s) || KeyFor(c, s.disk, q) in Gone(h')
    ensures Storage(c, d', s.mem, Held(s), h')
    ensures Traffic(c, d', s.msgs, s.acks, s.server, s.archive, h')
    ensures Evolves(s.disk, d') && EvictOk(d', s.evict)
  {
    var d := s.disk;
    DeleteConsistent(d, through, evicting);
    RowsSubset(c, d.streamId, s.hist.committed, d.rows, d'.rows);
    hide RowsOk;
    hide SendOk;
    hide Above;
    hide UpTo;
    StorageKept(c, d, d', s.mem, s.mem, Held(s), s.hist, h');
    TrafficKept(c, d, d', s.msgs, s.acks, s.server, s.archive, s.hist, h');
    EvictEvolves(d, d', s.evict);
  }

  lemma DeleteAckedKeeps(c: Config, s: State, s': State)
    requires Inv(c, s) && DeleteAcked(c, s, s')
    ensures Inv(c, s')
  {
    hide Storage;
    hide Traffic;
    hide EvictOk;
    hide Above;
    hide UpTo;
    hide SumRows;
    hide Keys;
    AckedRowsStored(c, s);
    DeletionKeeps(c, s, s'.disk, s.send.msg.toSeq, false, s'.hist);
  }

  lemma CountAckedKeeps(c: Config, s: State, s': State)
    requires Inv(c, s) && CountAcked(c, s, s')
    ensures Inv(c, s')
  {
    hide Storage;
    hide Traffic;
    hide EvictOk;
    BuffersKept(c, s, s'.mem);
  }

  // ---------------------------------------------------------------------------
  // Eviction

  lemma ChooseCutKeeps(c: Config, s: State, s': State, k: nat)
    requires Inv(c, s) && ChooseCut(c, s, s', k)
    ensures Inv(c, s')
  {
    hide Traffic;
    hide SendOk;
    hide RowsOk;
    hide UpTo;
    hide Above;
    var rows := s.disk.rows;
    UpToSize(rows, rows[k - 1].seqNo);
    CutRemovesK(rows, k);
    assert rows[k - 1] in rows;
  }

  lemma EvictKeeps(c: Config, s: State, s': State)
    requires Inv(c, s) && EvictRows(c, s, s')
    ensures Inv(c, s')
  {
    hide Storage;
    hide Traffic;
    hide SendOk;
    hide UpTo;
    hide Above;
    hide SumRows;
    hide KeysOfRows;
    var d := s.disk;
    RowsAscend(c, s);
    EvictedKeys(c, d, s.evict.cut);
    DeletionKeeps(c, s, s'.disk, s.evict.cut, true, s'.hist);
    SendEvolves(c, d, s'.disk, s.send, s.waiters, s.msgs, s.acks, Held(s), s.hist.committed, s.hist.committed);
  }

  lemma RowsAscend(c: Config, s: State)
    requires Inv(c, s)
    ensures Ascending(s.disk.rows)
  {
  }

  lemma EvictedKeys(c: Config, d: Disk, cut: int)
    requires Ascending(d.rows)
    ensures forall q <- Live(d) :: q <= cut ==> KeyFor(c, d, q) in KeysOfRows(c, d, UpTo(d.rows, cut))
  {
    UpToSize(d.rows, cut);
    forall q | q in Live(d) && q <= cut ensures KeyFor(c, d, q) in KeysOfRows(c, d, UpTo(d.rows, cut)) {
      assert q in RowSeqs(UpTo(d.rows, cut));
    }
  }

  lemma EvictFailsKeeps(c: Config, s: State, s': State)
    requires Inv(c, s) && EvictFails(c, s, s')
    ensures Inv(c, s')
  {
    hide Storage;
    hide Traffic;
    hide SendOk;
  }

  lemma CountEvictedKeeps(c: Config, s: State, s': State)
    requires Inv(c, s) && CountEvicted(c, s, s')
    ensures Inv(c, s')
  {
    hide Storage;
    hide Traffic;
    hide SendOk;
    BuffersKept(c, s, s'.mem);
  }

  // ---------------------------------------------------------------------------
  // Damage and restarts

  lemma {:induction false} SumSameSizes(rows: seq<Row>, rows': seq<Row>)
    requires |rows| == |rows'| && forall i :: 0 <= i < |rows| ==> rows[i].n == rows'[i].n
    ensures SumRows(rows) == SumRows(rows')
  {
    if rows != [] {
      SumSameSizes(rows[1..], rows'[1..]);
    }
  }

  /** The same keys and sizes in the same order. */
  lemma CorruptKeepsShape(d: Disk, rows': seq<Row>)
    requires Consistent(d) && |rows'| == |d.rows|
    requires forall i :: 0 <= i < |rows'| ==> rows'[i].seqNo == d.rows[i].seqNo && rows'[i].n == d.rows[i].n
    ensures Consistent(d.(rows := rows')) && RowSeqs(rows') == RowSeqs(d.rows)
  {
    SumSameSizes(d.rows, rows');
    hide SumRows;
    forall i | 0 <= i < |rows'| ensures 1 <= rows'[i].seqNo < d.nextSeq && rows'[i].seqNo in RowSeqs(d.rows) {
      assert d.rows[i] in d.rows;
    }
    forall q | q in RowSeqs(d.rows) ensures q in RowSeqs(rows') {
      var i :| 0 <= i < |d.rows| && d.rows[i].seqNo == q;
      assert rows'[i].seqNo == q;
    }
  }

  lemma CorruptRows(c: Config, d: Disk, committed: Contents, j: nat, blob: seq<Byte>)
    requires Consistent(d) && RowsOk(c, d.streamId, committed, d.rows)
    requires j < |d.rows| && DecodeBlob(c.z, blob).None?
    ensures var rows' := d.rows[j := d.rows[j].(blob := blob)];
            Consistent(d.(rows := rows')) && RowsOk(c, d.streamId, committed, rows') && RowSeqs(rows') == RowSeqs(d.rows)
  {
    hide DecodeBlob;
    var rows' := d.rows[j := d.rows[j].(blob := blob)];
    CorruptKeepsShape(d, rows');
    hide Consistent;
    hide RowSeqs;
    forall i | 0 <= i < |rows'| ensures RowOk(c, d.streamId, committed, rows'[i]) {
      assert RowOk(c, d.streamId, committed, d.rows[i]);
    }
  }

  lemma CorruptKeeps(c: Config, s: State, s': State, j: nat, blob: seq<Byte>)
    requires Inv(c, s) && Corrupt(c, s, s', j, blob)
    ensures Inv(c, s')
  {
    hide SendOk;
    CorruptRows(c, s.disk, s.hist.committed, j, blob);
    hide DecodeBlob;
    hide RowsOk;
    hide RowSeqs;
    StorageKept(c, s.disk, s'.disk, s.mem, s.mem, Held(s), s.hist, s.hist);
    TrafficKept(c, s.disk, s'.disk, s.msgs, s.acks, s.server, s.archive, s.hist, s.hist);
    SendEvolves(c, s.disk, s'.disk, s.send, s.waiters, s.msgs, s.acks, Held(s), s.hist.committed, s.hist.committed);
    EvictEvolves(s.disk, s'.disk, s.evict);
    hide Storage;
    hide Traffic;
    hide EvictOk;
  }

  lemma CrashKeeps(c: Config, s: State, s': State)
    requires Inv(c, s) && Crash(c, s, s')
    ensures Inv(c, s')
  {
    hide SendOk;
    hide Traffic;
    hide EvictOk;
    MemoryKept(c, s, s'.mem, s'.hist);
    hide Storage;
    SendAfterRestart(c, s');
    NoEviction(s'.disk);
  }

  lemma NoEviction(d: Disk)
    ensures EvictOk(d, EvictIdle)
  {
  }

  lemma SendAfterRestart(c: Config, s: State)
    requires s.send == SendIdle && s.waiters == NO_WAITERS
    ensures SendOk(c, s.disk, s.send, s.waiters, s.msgs, s.acks, Held(s), s.hist.committed)
  {
  }

  lemma ReplaceKeepsStorage(c: Config, s: State, s': State, id: string)
    requires Inv(c, s) && ReplaceFile(c, s, s', id)
    ensures Storage(c, s'.disk, s'.mem, Held(s'), s'.hist)
  {
    hide SendOk;
    hide Traffic;
    hide RowOk;
    var d, h, h' := s.disk, s.hist, s'.hist;
    forall k | k in h.committed ensures Accounted(s'.disk, Held(s), Gone(h'), h'.lost, k) {
      assert Accounted(d, Held(s), Gone(h), h.lost, k);
      if k.stream == d.streamId && k.seqNo in Live(d) {
        var r :| r in d.rows && r.seqNo == k.seqNo;
        assert k == KeyFor(c, d, r.seqNo);
      }
    }
    forall k | k in h'.lost ensures k in h.committed && k.stream != id {
      if k !in h.lost {
        var r :| r in d.rows && k == KeyFor(c, d, r.seqNo);
        assert KeyFor(c, d, r.seqNo) in h.committed;
      }
    }
  }

  lemma ReplaceKeeps(c: Config, s: State, s': State, id: string)
    requires Inv(c, s) && ReplaceFile(c, s, s', id)
    ensures Inv(c, s')
  {
    hide Storage;
    hide Traffic;
    hide SendOk;
    ReplaceKeepsStorage(c, s, s', id);
    ReplaceKeepsTraffic(c, s, s', id);
    SendAfterRestart(c, s');
  }

  lemma ReplaceKeepsTraffic(c: Config, s: State, s': State, id: string)
    requires Inv(c, s) && ReplaceFile(c, s, s', id)
    ensures Traffic(c, s'.disk, s'.msgs, s'.acks, s'.server, s'.archive, s'.hist)
  {
    hide SendOk;
    hide Storage;
    hide ServerOk;
    hide ArchiveOk;
    hide Archived;
    hide GapsOk;
    hide CoverOk;
    hide AcksOk;
    hide DeliveredOk;
    forall m | m in s.msgs
      ensures MsgOk(c, m, s'.hist.committed, s'.hist.streams) && Holds(s'.disk, Live(s'.disk), m)
    {
      assert MsgOk(c, m, s.hist.committed, s.hist.streams);
    }
  }

  // ---------------------------------------------------------------------------
  // The server

  /** New entries have new keys, because a message's seqs ascend and seen ones are left out. */
  lemma RecordsDistinct(log: seq<StoredChunk>, m: Message)
    requires DistinctKeys(log) && AscendingChunks(m.chunks)
    ensures DistinctKeys(log + Records(m, Fresh(KeysOf(log), m, m.chunks)))
  {
    var unseen := Fresh(KeysOf(log), m, m.chunks);
    FreshIsUnseen(KeysOf(log), m, m.chunks);
    FreshAscends(KeysOf(log), m, m.chunks);
    hide Fresh;
    var more := Records(m, unseen);
    forall j | 0 <= j < |more| ensures more[j].key !in KeysOf(log) {
      assert unseen[j] in unseen;
    }
    var all := log + more;
    forall i, j | 0 <= i < j < |all| ensures all[i].key != all[j].key {
      if i < |log| <= j {
        assert all[i].key in KeysOf(log);
        assert all[j] == more[j - |log|];
      }
    }
  }

  lemma RecordsAsCommitted(c: Config, m: Message, unseen: seq<WireChunk>, committed: Contents, streams: set<string>)
    requires MsgOk(c, m, committed, streams)
    requires forall ch <- unseen :: ch in m.chunks
    ensures forall e <- Records(m, unseen) :: e.key in committed && e.readings == ToWireAll(committed[e.key])
  {
    hide ToWireAll;
    var more := Records(m, unseen);
    forall i | 0 <= i < |more| ensures more[i].key in committed && more[i].readings == ToWireAll(committed[more[i].key]) {
      assert unseen[i] in unseen;
    }
  }

  lemma ServerKept(c: Config, server: ServerState, settings: Settings, m: Message, writeError: string,
                   committed: Contents, streams: set<string>)
    requires ServerOk(server, committed) && MsgOk(c, m, committed, streams)
    ensures ServerOk(HandleMessage(server, settings, m, writeError).0, committed)
  {
    HandleBalanced(server, settings, m, writeError);
    HandleEffect(server, settings, m, writeError);
    RecordsDistinct(server.stored, m);
    var unseen := Fresh(server.seen, m, m.chunks);
    FreshIsUnseen(server.seen, m, m.chunks);
    RecordsAsCommitted(c, m, unseen, committed, streams);
    assert server.seen == KeysOf(server.stored);
    hide Balanced;
    hide HandleMessage;
    hide Fresh;
    hide Records;
    hide ToWireAll;
    hide DistinctKeys;
  }

  /** The server learns the keys of message i, or nothing. */
  lemma SeenGrows(msgs: seq<Message>, delivered: set<nat>, seen: set<ChunkKey>, i: nat)
    requires DeliveredOk(msgs, delivered, seen) && i < |msgs|
    ensures DeliveredOk(msgs, delivered + {i}, seen + Keys(msgs[i], msgs[i].chunks))
  {
    hide Keys;
    var seen' := seen + Keys(msgs[i], msgs[i].chunks);
    forall k | k in seen' ensures exists j <- delivered + {i} :: j < |msgs| && k in Keys(msgs[j], msgs[j].chunks) {
      if k in seen {
        var j :| j in delivered && j < |msgs| && k in Keys(msgs[j], msgs[j].chunks);
        assert j in delivered + {i};
      } else {
        assert i in delivered + {i};
      }
    }
  }

  lemma AcksGrow(msgs: seq<Message>, delivered: set<nat>, delivered': set<nat>, acks: set<Ack>, more: set<Ack>)
    requires AcksOk(msgs, delivered, acks) && delivered <= delivered'
    requires forall a <- more :: AckOk(msgs, delivered', a)
    ensures AcksOk(msgs, delivered', acks + more)
  {
    forall a | a in acks ensures AckOk(msgs, delivered', a) {
      assert AckOk(msgs, delivered, a);
      if a.error == "" {
        var i :| i in delivered && i < |msgs| && msgs[i].streamId == a.streamId && msgs[i].toSeq == a.toSeq;
        assert i in delivered';
      }
    }
  }

  lemma GapsGrow(msgs: seq<Message>, seen: set<ChunkKey>, seen': set<ChunkKey>, committed: Contents, gone: set<ChunkKey>)
    requires GapsOk(msgs, seen, committed, gone) && seen <= seen'
    ensures GapsOk(msgs, seen', committed, gone)
  {
    hide Seqs;
    forall m | m in msgs ensures ExplainsGaps(m, seen', committed, gone) {
      assert ExplainsGaps(m, seen, committed, gone);
    }
  }

  lemma ServerKeepsTraffic(c: Config, s: State, s': State, i: nat, settings: Settings, writeError: string)
    requires Inv(c, s) && ServerHandles(c, s, s', i, settings, writeError)
    ensures Traffic(c, s'.disk, s'.msgs, s'.acks, s'.server, s'.archive, s'.hist)
    ensures Held(s) <= Held(s') && s.acks <= s'.acks
  {
    hide HandleMessage;
    hide Stores;
    hide SendOk;
    hide EvictOk;
    hide ServerOk;
    hide Keys;
    hide GapsOk;
    hide AcksOk;
    hide DeliveredOk;
    hide MsgOk;
    hide CoverOk;
    hide PrefixOk;
    var m, h, h' := s.msgs[i], s.hist, s'.hist;
    ServerKept(c, s.server, settings, m, writeError, h.committed, h.streams);
    HandleEffect(s.server, settings, m, writeError);
    SeenGrows(s.msgs, h.delivered, Held(s), i);
    SeenGrows(s.msgs, h.current, s.server.seen, i);
    HeldGrows(c, s, s', i, settings, writeError);
    GapsGrow(s.msgs, Held(s), Held(s'), h.committed, Gone(h));
    hide Archived;
    AnswerOk(c, s, s', i, settings, writeError);
    AcksGrow(s.msgs, h.delivered, h'.delivered, s.acks, s'.acks - s.acks);
    assert s.acks + (s'.acks - s.acks) == s'.acks;
  }

  lemma HeldGrows(c: Config, s: State, s': State, i: nat, settings: Settings, writeError: string)
    requires ServerHandles(c, s, s', i, settings, writeError)
    ensures Held(s') == if Stores(s.server, settings, s.msgs[i], writeError)
                        then Held(s) + Keys(s.msgs[i], s.msgs[i].chunks) else Held(s)
  {
    hide HandleMessage;
    hide Stores;
    hide Keys;
    hide Archived;
    HandleEffect(s.server, settings, s.msgs[i], writeError);
  }

  lemma AnswerOk(c: Config, s: State, s': State, i: nat, settings: Settings, writeError: string)
    requires Inv(c, s) && ServerHandles(c, s, s', i, settings, writeError)
    ensures forall a <- s'.acks - s.acks :: AckOk(s.msgs, s'.hist.delivered, a)
  {
    hide HandleMessage;
    hide Stores;
    hide SendOk;
    hide EvictOk;
    hide ServerOk;
    hide GapsOk;
    hide AcksOk;
    hide DeliveredOk;
    hide CoverOk;
    hide PrefixOk;
    HandleEffect(s.server, settings, s.msgs[i], writeError);
    assert MsgOk(c, s.msgs[i], s.hist.committed, s.hist.streams);
  }

  lemma StorageLearns(c: Config, d: Disk, m: Memory, seen: set<ChunkKey>, seen': set<ChunkKey>, h: History, h': History)
    requires Storage(c, d, m, seen, h) && seen <= seen'
    requires h' == h.(delivered := h'.delivered, current := h'.current)
    ensures Storage(c, d, m, seen', h')
  {
    hide Consistent;
    hide CommittedOk;
    hide RowsOk;
    hide MemOk;
    forall k | k in h.committed ensures Accounted(d, seen', Gone(h'), h'.lost, k) {
      assert Accounted(d, seen, Gone(h), h.lost, k);
    }
  }

  lemma ServerKeeps(c: Config, s: State, s': State, i: nat, settings: Settings, writeError: string)
    requires Inv(c, s) && ServerHandles(c, s, s', i, settings, writeError)
    ensures Inv(c, s')
  {
    hide HandleMessage;
    hide Stores;
    hide Archived;
    hide Held;
    ServerKeepsTraffic(c, s, s', i, settings, writeError);
    StorageLearns(c, s.disk, s.mem, Held(s), Held(s'), s.hist, s'.hist);
    hide Storage;
    hide Traffic;
    hide EvictOk;
    hide BatchRead;
    hide DecodeBlob;
    hide Keys;
  }

  /** A restart moves what was seen into the archive; nothing held is lost. */
  lemma RestartKeeps(c: Config, s: State, s': State)
    requires Inv(c, s) && ServerRestarts(c, s, s')
    ensures Inv(c, s')
  {
    RestartKeepsHeld(c, s, s');
    RestartKeepsWritings(c, s, s');
    hide Archived;
    hide ServerOk;
    hide ArchiveOk;
    hide Keys;
    StorageLearns(c, s.disk, s.mem, Held(s), Held(s'), s.hist, s'.hist);
    hide Storage;
    hide EvictOk;
    hide BatchRead;
    hide DecodeBlob;
    hide MsgsOk;
    hide PrefixOk;
    hide GapsOk;
    hide CoverOk;
    hide AcksOk;
    assert DeliveredOk(s.msgs, {}, {});
    hide DeliveredOk;
  }

  lemma RestartKeepsHeld(c: Config, s: State, s': State)
    requires Inv(c, s) && ServerRestarts(c, s, s')
    ensures Held(s') == Held(s)
  {
    hide Storage;
    hide SendOk;
    hide EvictOk;
    hide KeysOf;
    var p := Process(s.server.stored, s.hist.current);
    assert s.server.seen == KeysOf(s.server.stored);
    assert forall x :: x in s.archive + [p] <==> x in s.archive || x == p;
  }

  lemma RestartKeepsWritings(c: Config, s: State, s': State)
    requires Inv(c, s) && ServerRestarts(c, s, s')
    ensures ServerOk(s'.server, s'.hist.committed) && ArchiveOk(s'.archive, s'.msgs, s'.hist.committed)
  {
    hide Storage;
    hide SendOk;
    hide EvictOk;
    hide DeliveredOk;
    EmptyBalanced();
    var p := Process(s.server.stored, s.hist.current);
    assert ProcessOk(p, s.msgs, s.hist.committed);
    hide Balanced;
    hide ProcessOk;
  }

  lemma EmptyBalanced()
    ensures Balanced(EMPTY_SERVER)
  {
    assert forall g :: SkippedOf([], g) == {};
  }

  // ---------------------------------------------------------------------------

  lemma InitHolds(c: Config, s: State)
    requires Init(c, s)
    ensures Inv(c, s)
  {
    EmptyBalanced();
  }

  lemma StepKeeps(c: Config, s: State, s': State, e: Event)
    requires c.z.Inverse() && Inv(c, s) && Next(c, s, s', e)
    ensures Inv(c, s')
  {
    hide Inv;
    match e
    case OnAppend(r) => AppendKeeps(c, s, s', r);
    case OnSealBuffer => SealKeeps(c, s, s');
    case OnWriteChunks => WriteKeeps(c, s, s');
    case OnWriteFails => WriteFailsKeeps(c, s, s');
    case OnCountWrite => CountWriteKeeps(c, s, s');
    case OnStartBatch => StartBatchKeeps(c, s, s');
    case OnDecodeRow => AdvanceKeeps(c, s, s');
    case OnDiscardRow => DiscardKeeps(c, s, s');
    case OnDiscardFindsNothing => AdvanceKeeps(c, s, s');
    case OnDiscardFails => BackToIdleKeeps(c, s, s');
    case OnCountDiscard => CountDiscardKeeps(c, s, s');
    case OnNothingToSend => BackToIdleKeeps(c, s, s');
    case OnSendRefused => BackToIdleKeeps(c, s, s');
    case OnPublish => PublishKeeps(c, s, s');
    case OnSendFails => BackToIdleKeeps(c, s, s');
    case OnSendReturns => SendReturnsKeeps(c, s, s');
    case OnDeleteAcked => DeleteAckedKeeps(c, s, s');
    case OnDeleteFails => BackToIdleKeeps(c, s, s');
    case OnCountAcked => CountAckedKeeps(c, s, s');
    case OnServerHandles(i, settings, writeError) => ServerKeeps(c, s, s', i, settings, writeError);
    case OnServerRestarts => RestartKeeps(c, s, s');
    case OnAckArrives(a) => AckArrivesKeeps(c, s, s', a);
    case OnChooseCut(k) => ChooseCutKeeps(c, s, s', k);
    case OnEvictRows => EvictKeeps(c, s, s');
    case OnEvictFails => EvictFailsKeeps(c, s, s');
    case OnCountEvicted => CountEvictedKeeps(c, s, s');
    case OnCorrupt(j, blob) => CorruptKeeps(c, s, s', j, blob);
    case OnCrash => CrashKeeps(c, s, s');
    case OnReplaceFile(id) => ReplaceKeeps(c, s, s', id);
  }

  /** Every state of every run satisfies the invariant. */
  lemma {:induction false} InvariantHolds(c: Config, run: Run, i: nat)
    requires IsRun(c, run) && i < |run.states|
    ensures Inv(c, run.states[i])
  {
    hide Inv;
    hide Next;
    if i == 0 {
      InitHolds(c, run.states[0]);
    } else {
      InvariantHolds(c, run, i - 1);
      StepKeeps(c, run.states[i - 1], run.states[i], run.events[i - 1]);
    }
  }
}
