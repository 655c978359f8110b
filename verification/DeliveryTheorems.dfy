/** What store and forward guarantees over every run: any interleaving, any loss, repetition
    or delay of messages and acks, any failed write, eviction, damage, crash or new file. */
module DeliveryTheorems {
  import opened Ints
  import opened ChunkCodec
  import opened QueueModel
  import opened Wire
  import opened IngestServer
  import opened GapLedger
  import opened AckMatching
  import opened Delivery
  import opened DeliveryInvariant
  import opened DeliveryProof

  // ---------------------------------------------------------------------------
  // Delivery safety

  /** A log holds k exactly once, with these readings at millisecond precision. */
  ghost predicate StoredOnce(log: seq<StoredChunk>, k: ChunkKey, rs: seq<Reading>) {
    exists i :: 0 <= i < |log| && log[i].key == k && CarriesAll(log[i].readings, rs)
                && forall j :: 0 <= j < |log| && log[j].key == k ==> j == i
  }

  /** The present server process or an earlier one wrote k, exactly once, with these readings. */
  ghost predicate AtServer(s: State, k: ChunkKey, rs: seq<Reading>) {
    StoredOnce(s.server.stored, k, rs) || exists p <- s.archive :: StoredOnce(p.log, k, rs)
  }

  /** The table holds k: visibly damaged, or decoding to what was committed. */
  ghost predicate InTable(c: Config, s: State, k: ChunkKey)
    requires k in s.hist.committed
  {
    k.gateway == c.gateway && k.stream == s.disk.streamId &&
    exists r <- s.disk.rows :: r.seqNo == k.seqNo &&
      var out := DecodeBlob(c.z, r.blob);
      out.None? || Kept(out.value, s.hist.committed[k])
  }

  /** Every chunk ever committed is still in the table, or stored by the server exactly once
      with exactly its readings, or was evicted, discarded as corrupt, or lost with its file;
      also when the server restarts and forgets what it has seen. */
  lemma NothingVanishes(c: Config, run: Run, i: nat, k: ChunkKey)
    requires IsRun(c, run) && i < |run.states| && k in run.states[i].hist.committed
    ensures var s := run.states[i];
            || InTable(c, s, k)
            || AtServer(s, k, s.hist.committed[k])
            || k in s.hist.evicted || k in s.hist.discarded || k in s.hist.lost
  {
    InvariantHolds(c, run, i);
    hide IsRun;
    hide SendOk;
    hide EvictOk;
    var s := run.states[i];
    assert Accounted(s.disk, Held(s), Gone(s.hist), s.hist.lost, k);
    if k in Held(s) {
      HeldIsStored(c, s, k);
    } else if k.stream == s.disk.streamId && k.seqNo in Live(s.disk) {
      var r :| r in s.disk.rows && r.seqNo == k.seqNo;
      assert RowOk(c, s.disk.streamId, s.hist.committed, r);
      AtMillisKept(s.hist.committed[k]);
      hide Kept;
      assert k == ChunkKey(c.gateway, s.disk.streamId, r.seqNo);
    }
  }

  lemma HeldIsStored(c: Config, s: State, k: ChunkKey)
    requires Inv(c, s) && k in Held(s) && k in s.hist.committed
    ensures AtServer(s, k, s.hist.committed[k])
  {
    hide Storage;
    hide SendOk;
    hide EvictOk;
    hide DeliveredOk;
    hide StoredOnce;
    if k in s.server.seen {
      StoredOnceOf(s.server.stored, s.hist.committed, k);
    } else {
      var p :| p in s.archive && k in KeysOf(p.log);
      assert ProcessOk(p, s.msgs, s.hist.committed);
      StoredOnceOf(p.log, s.hist.committed, k);
    }
  }

  lemma StoredOnceOf(log: seq<StoredChunk>, committed: Contents, k: ChunkKey)
    requires LogOk(log, committed) && k in KeysOf(log) && k in committed
    ensures StoredOnce(log, k, committed[k])
  {
    ToWireCarries(committed[k]);
    hide CarriesAll;
    var i :| 0 <= i < |log| && log[i].key == k;
    assert log[i] in log;
  }

  /** A row leaves the table only after the server stored it, or by eviction, or because it
      could not be decoded. */
  lemma RowsLeaveOnlyFor(c: Config, run: Run, i: nat, q: nat)
    requires IsRun(c, run) && i < |run.events|
    requires q in Live(run.states[i].disk) && q !in Live(run.states[i + 1].disk)
    requires run.states[i + 1].disk.streamId == run.states[i].disk.streamId
    ensures var s, s', e := run.states[i], run.states[i + 1], run.events[i];
            var k := KeyFor(c, s.disk, q);
            || (e.OnDeleteAcked? && s.send.Released? && k in Held(s) && q <= s.send.msg.toSeq)
            || (e.OnEvictRows? && k in s'.hist.evicted)
            || (e.OnDiscardRow? && k in s'.hist.discarded)
  {
    InvariantHolds(c, run, i);
    var s, s', e := run.states[i], run.states[i + 1], run.events[i];
    assert Next(c, s, s', e);
    LeaveStep(c, s, s', e, q);
  }

  lemma LeaveStep(c: Config, s: State, s': State, e: Event, q: nat)
    requires Inv(c, s) && Next(c, s, s', e)
    requires q in Live(s.disk) && q !in Live(s'.disk) && s'.disk.streamId == s.disk.streamId
    ensures var k := KeyFor(c, s.disk, q);
            || (e.OnDeleteAcked? && s.send.Released? && k in Held(s) && q <= s.send.msg.toSeq)
            || (e.OnEvictRows? && k in s'.hist.evicted)
            || (e.OnDiscardRow? && k in s'.hist.discarded)
  {
    hide Inv;
    hide Next;
    hide RowSeqs;
    StepIs(c, s, s', e);
    hide DiscardRow;
    hide EvictRows;
    hide Corrupt;
    hide WriteChunks;
    hide ReplaceFile;
    DiskFrame(c, s, s', e);
    match e {
      case OnDeleteAcked => AckedLeave(c, s, s', q);
      case OnEvictRows => EvictedLeave(c, s, s', q);
      case OnDiscardRow => DiscardOnlyOne(c, s, s', q);
      case OnWriteChunks => WritesKeep(c, s, s');
      case OnCorrupt(j, blob) => DamageKeeps(c, s, s', j, blob);
      case OnReplaceFile(id) => FileIsNew(c, s, s', id);
      case _ =>
    }
  }

  lemma AckedLeave(c: Config, s: State, s': State, q: nat)
    requires Inv(c, s) && DeleteAcked(c, s, s') && q in Live(s.disk) && q !in Live(s'.disk)
    ensures KeyFor(c, s.disk, q) in Held(s) && q <= s.send.msg.toSeq
  {
    hide Traffic;
    AckedRowsStored(c, s);
    DeleteConsistent(s.disk, s.send.msg.toSeq, false);
  }

  lemma EvictedLeave(c: Config, s: State, s': State, q: nat)
    requires Inv(c, s) && EvictRows(c, s, s') && q in Live(s.disk) && q !in Live(s'.disk)
    ensures KeyFor(c, s.disk, q) in s'.hist.evicted
  {
    hide Traffic;
    hide SendOk;
    DeleteConsistent(s.disk, s.evict.cut, true);
    EvictedKeys(c, s.disk, s.evict.cut);
  }

  lemma WritesKeep(c: Config, s: State, s': State)
    requires Inv(c, s) && WriteChunks(c, s, s')
    ensures Live(s.disk) <= Live(s'.disk)
  {
    hide Traffic;
    hide SendOk;
    InsertConsistent(s.disk, s.mem.unflushed);
  }

  lemma DamageKeeps(c: Config, s: State, s': State, j: nat, blob: seq<Byte>)
    requires Inv(c, s) && Corrupt(c, s, s', j, blob)
    ensures Live(s.disk) == Live(s'.disk)
  {
    hide Traffic;
    hide SendOk;
    hide DecodeBlob;
    CorruptRows(c, s.disk, s.hist.committed, j, blob);
  }

  lemma FileIsNew(c: Config, s: State, s': State, id: string)
    requires Inv(c, s) && ReplaceFile(c, s, s', id)
    ensures s'.disk.streamId != s.disk.streamId
  {
    hide Traffic;
    hide SendOk;
  }

  lemma DiscardOnlyOne(c: Config, s: State, s': State, q: nat)
    requires Inv(c, s) && DiscardRow(c, s, s') && q in Live(s.disk) && q !in Live(s'.disk)
    ensures q == s.send.raw[s.send.pos].seqNo && KeyFor(c, s.disk, q) in s'.hist.discarded
  {
    hide DecodeBlob;
    hide Traffic;
    var d, row := s.disk, s.send.raw[s.send.pos];
    BatchChunks(c, d, s.send.raw, s.send.pos, s.send.chunks, s.msgs, s.hist.committed);
    hide BatchRead;
    RowCount(c, d, s.hist.committed, s.send.raw, row);
    DiscardConsistent(d, row.seqNo, row.n);
  }

  // ---------------------------------------------------------------------------
  // Exactly once

  /** Each server process accepts each (gateway, stream, seq) at most once, always with the
      readings flushed under it at millisecond precision; and so does the server as long as
      it has not been restarted. */
  lemma AcceptedOnceAsFlushed(c: Config, run: Run, i: nat)
    requires IsRun(c, run) && i < |run.states|
    ensures var s := run.states[i];
            && LoggedOnce(s.server.stored, s.hist.committed)
            && (forall p <- s.archive :: LoggedOnce(p.log, s.hist.committed))
            && |s.archive| == Restarts(run.events[..i])
  {
    InvariantHolds(c, run, i);
    ArchiveCounts(c, run, i);
    hide IsRun;
    hide Storage;
    hide SendOk;
    hide EvictOk;
    hide DeliveredOk;
    hide LogOk;
    hide LoggedOnce;
    var s := run.states[i];
    LogIsLoggedOnce(s.server.stored, s.hist.committed);
    forall p | p in s.archive ensures LoggedOnce(p.log, s.hist.committed) {
      assert ProcessOk(p, s.msgs, s.hist.committed);
      LogIsLoggedOnce(p.log, s.hist.committed);
    }
  }

  /** No key twice, and under each key the readings committed under it. */
  ghost predicate LoggedOnce(log: seq<StoredChunk>, committed: Contents) {
    && (forall i, j :: 0 <= i < j < |log| ==> log[i].key != log[j].key)
    && forall e <- log :: e.key in committed && CarriesAll(e.readings, committed[e.key])
  }

  lemma LogIsLoggedOnce(log: seq<StoredChunk>, committed: Contents)
    requires LogOk(log, committed)
    ensures LoggedOnce(log, committed)
  {
    hide CarriesAll;
    forall e | e in log ensures CarriesAll(e.readings, committed[e.key]) {
      ToWireCarries(committed[e.key]);
    }
  }

  function Restarts(events: seq<Event>): nat {
    if events == [] then 0
    else Restarts(events[..|events| - 1]) + if events[|events| - 1].OnServerRestarts? then 1 else 0
  }

  lemma {:induction false} ArchiveCounts(c: Config, run: Run, i: nat)
    requires IsRun(c, run) && i < |run.states|
    ensures |run.states[i].archive| == Restarts(run.events[..i])
  {
    hide Next;
    if i > 0 {
      ArchiveCounts(c, run, i - 1);
      assert run.events[..i][..i - 1] == run.events[..i - 1];
      ArchiveFrame(c, run.states[i - 1], run.states[i], run.events[i - 1]);
    }
  }

  lemma ArchiveFrame(c: Config, s: State, s': State, e: Event)
    requires Next(c, s, s', e)
    ensures |s'.archive| == |s.archive| + if e.OnServerRestarts? then 1 else 0
  {
    ServerFrame(c, s, s', e);
  }

  /** A process wrote exactly the chunks of the messages it stored. So a chunk is written
      twice if and only if two server processes each stored a message holding it. */
  lemma WrittenByProcessIff(c: Config, run: Run, i: nat, p: Process, k: ChunkKey)
    requires IsRun(c, run) && i < |run.states|
    requires p in run.states[i].archive + [Process(run.states[i].server.stored, run.states[i].hist.current)]
    ensures k in KeysOf(p.log) <==>
            exists j <- p.stored :: j < |run.states[i].msgs| && k in Keys(run.states[i].msgs[j], run.states[i].msgs[j].chunks)
  {
    InvariantHolds(c, run, i);
    hide IsRun;
    hide Storage;
    hide SendOk;
    hide EvictOk;
    hide LogOk;
    hide Keys;
    var s := run.states[i];
    if p in s.archive {
      assert ProcessOk(p, s.msgs, s.hist.committed);
    } else {
      assert s.server.seen == KeysOf(s.server.stored);
    }
    assert DeliveredOk(s.msgs, p.stored, KeysOf(p.log));
  }

  /** A chunk an earlier process wrote is written again exactly when a message holding it is
      stored and the present process has not seen it. */
  lemma WrittenAgainIff(c: Config, run: Run, i: nat, k: ChunkKey)
    requires IsRun(c, run) && i < |run.events| && run.events[i].OnServerHandles?
    ensures var s, s', e := run.states[i], run.states[i + 1], run.events[i];
            && e.i < |s.msgs| && |s.server.stored| <= |s'.server.stored|
            && (k in KeysOf(s'.server.stored[|s.server.stored|..]) <==>
                  && Stores(s.server, e.settings, s.msgs[e.i], e.writeError)
                  && k in Keys(s.msgs[e.i], s.msgs[e.i].chunks) && k !in s.server.seen)
  {
    hide Init;
    assert Next(c, run.states[i], run.states[i + 1], run.events[i]);
    hide IsRun;
    var s, s', e := run.states[i], run.states[i + 1], run.events[i];
    AppendedKeys(c, s, s', e.i, e.settings, e.writeError, k);
  }

  lemma AppendedKeys(c: Config, s: State, s': State, i: nat, settings: Settings, writeError: string, k: ChunkKey)
    requires ServerHandles(c, s, s', i, settings, writeError)
    ensures |s.server.stored| <= |s'.server.stored|
    ensures k in KeysOf(s'.server.stored[|s.server.stored|..]) <==>
               && Stores(s.server, settings, s.msgs[i], writeError)
               && k in Keys(s.msgs[i], s.msgs[i].chunks) && k !in s.server.seen
  {
    hide HandleMessage;
    hide Stores;
    var m := s.msgs[i];
    var unseen := Fresh(s.server.seen, m, m.chunks);
    HandleEffect(s.server, settings, m, writeError);
    FreshIsUnseen(s.server.seen, m, m.chunks);
    hide Fresh;
    var more := s'.server.stored[|s.server.stored|..];
    if Stores(s.server, settings, m, writeError) {
      assert more == Records(m, unseen);
      RecordKeys(m, unseen);
    } else {
      assert more == [];
    }
  }

  lemma RecordKeys(m: Message, chunks: seq<WireChunk>)
    ensures KeysOf(Records(m, chunks)) == Keys(m, chunks)
  {
    var rs := Records(m, chunks);
    forall k | k in Keys(m, chunks) ensures k in KeysOf(rs) {
      var j :| 0 <= j < |chunks| && Key(m, chunks[j]) == k;
      assert rs[j] in rs;
    }
    forall k | k in KeysOf(rs) ensures k in Keys(m, chunks) {
      var j :| 0 <= j < |rs| && rs[j].key == k;
      assert chunks[j] in chunks;
    }
  }

  /** Everything written, by all server processes in turn. */
  function Written(archive: seq<Process>, log: seq<StoredChunk>): seq<StoredChunk> {
    if archive == [] then log else archive[0].log + Written(archive[1..], log)
  }

  lemma {:induction false} WrittenSplits(archive: seq<Process>, p: Process, log: seq<StoredChunk>)
    ensures Written(archive + [p], log) == Written(archive, p.log + log)
  {
    if archive == [] {
      assert [p][1..] == [];
    } else {
      WrittenSplits(archive[1..], p, log);
      assert (archive + [p])[1..] == archive[1..] + [p];
    }
  }

  lemma {:induction false} WrittenGrows(archive: seq<Process>, log: seq<StoredChunk>, log': seq<StoredChunk>)
    requires log <= log'
    ensures Written(archive, log) <= Written(archive, log')
  {
    if archive != [] {
      WrittenGrows(archive[1..], log, log');
    }
  }

  lemma HistoryStep(c: Config, s: State, s': State, e: Event)
    requires c.z.Inverse() && Inv(c, s) && Next(c, s, s', e)
    ensures Extends(s.hist.committed, s'.hist.committed)
    ensures s'.disk.streamId == s.disk.streamId ==> s.disk.nextSeq <= s'.disk.nextSeq
    ensures forall k <- s'.hist.committed :: k !in s.hist.committed ==>
              k.stream == s.disk.streamId && k.seqNo >= s.disk.nextSeq
  {
    hide Inv;
    hide Next;
    StepIs(c, s, s', e);
    hide WriteChunks;
    hide ReplaceFile;
    DiskFrame(c, s, s', e);
    HistoryFrame(c, s, s', e);
    if e.OnWriteChunks? {
      CommitGrows(c, s, s');
    } else if e.OnReplaceFile? {
      FileIsNew(c, s, s', e.id);
    }
  }

  lemma WrittenStep(c: Config, s: State, s': State, e: Event)
    requires Next(c, s, s', e)
    ensures Written(s.archive, s.server.stored) <= Written(s'.archive, s'.server.stored)
  {
    hide Written;
    hide Next;
    StepIs(c, s, s', e);
    hide ServerHandles;
    ServerFrame(c, s, s', e);
    if e.OnServerHandles? {
      ServerGrows(c, s, s', e.i, e.settings, e.writeError);
      WrittenGrows(s.archive, s.server.stored, s'.server.stored);
    } else if e.OnServerRestarts? {
      WrittenSplits(s.archive, Process(s.server.stored, s.hist.current), []);
      assert s.server.stored + [] == s.server.stored;
    }
  }

  lemma CommitGrows(c: Config, s: State, s': State)
    requires Inv(c, s) && WriteChunks(c, s, s')
    ensures Extends(s.hist.committed, s'.hist.committed)
    ensures s.disk.nextSeq <= s'.disk.nextSeq
    ensures forall k <- s'.hist.committed :: k !in s.hist.committed ==>
              k.stream == s.disk.streamId && k.seqNo >= s.disk.nextSeq
  {
    hide SendOk;
    hide EvictOk;
    hide Traffic;
    CommittedFresh(c, s);
  }

  lemma ServerGrows(c: Config, s: State, s': State, i: nat, settings: Settings, writeError: string)
    requires ServerHandles(c, s, s', i, settings, writeError)
    ensures s.server.stored <= s'.server.stored
  {
    hide HandleMessage;
    hide Stores;
    HandleEffect(s.server, settings, s.msgs[i], writeError);
  }

  /** What was committed keeps its content, what the server wrote stays written in order, and
      a seq is never reused: whatever is committed later under the same stream has a higher
      one, across crashes and even when the table is empty. */
  lemma {:induction false} HistoryOnlyGrows(c: Config, run: Run, i: nat, j: nat)
    requires IsRun(c, run) && i <= j < |run.states|
    ensures var s, s' := run.states[i], run.states[j];
            && Extends(s.hist.committed, s'.hist.committed)
            && Written(s.archive, s.server.stored) <= Written(s'.archive, s'.server.stored)
            && forall k <- s'.hist.committed :: k !in s.hist.committed && k.stream == s.disk.streamId ==>
                 k.seqNo >= s.disk.nextSeq
    decreases j
  {
    hide Inv;
    hide Next;
    if i < j {
      HistoryOnlyGrows(c, run, i, j - 1);
      InvariantHolds(c, run, j - 1);
      InvariantHolds(c, run, i);
      HistoryStep(c, run.states[j - 1], run.states[j], run.events[j - 1]);
      WrittenStep(c, run.states[j - 1], run.states[j], run.events[j - 1]);
      AllocatorAhead(c, run, i, j - 1);
    }
  }

  /** While a later state has the same stream its allocator is at least as far on. */
  lemma {:induction false} AllocatorAhead(c: Config, run: Run, i: nat, j: nat)
    requires IsRun(c, run) && i <= j < |run.states|
    ensures run.states[i].hist.streams <= run.states[j].hist.streams
    ensures run.states[j].disk.streamId == run.states[i].disk.streamId ==>
              run.states[i].disk.nextSeq <= run.states[j].disk.nextSeq
    decreases j
  {
    hide Inv;
    hide Next;
    if i < j {
      AllocatorAhead(c, run, i, j - 1);
      InvariantHolds(c, run, i);
      InvariantHolds(c, run, j - 1);
      StreamStep(c, run.states[i], run.states[j - 1], run.states[j], run.events[j - 1]);
    }
  }

  lemma StreamStep(c: Config, s0: State, s: State, s': State, e: Event)
    requires Inv(c, s0) && Next(c, s, s', e)
    requires s0.hist.streams <= s.hist.streams
    requires s.disk.streamId == s0.disk.streamId ==> s0.disk.nextSeq <= s.disk.nextSeq
    ensures s0.hist.streams <= s'.hist.streams
    ensures s'.disk.streamId == s0.disk.streamId ==> s0.disk.nextSeq <= s'.disk.nextSeq
  {
    hide Inv;
    hide Next;
    StepIs(c, s, s', e);
    DiskFrame(c, s, s', e);
    HistoryFrame(c, s, s', e);
    CurrentStreamUsed(c, s0);
  }

  lemma CurrentStreamUsed(c: Config, s: State)
    requires Inv(c, s)
    ensures s.disk.streamId in s.hist.streams
  {
    hide Traffic;
    hide SendOk;
    hide EvictOk;
  }

  // ---------------------------------------------------------------------------
  // Acks

  /** Of two messages of a stream with the same end, the later holds no more than the earlier. */
  lemma LaterMessageIsSubset(c: Config, run: Run, t: nat, i: nat, j: nat)
    requires IsRun(c, run) && t < |run.states| && i < j < |run.states[t].msgs|
    requires run.states[t].msgs[i].streamId == run.states[t].msgs[j].streamId
    requires run.states[t].msgs[i].toSeq == run.states[t].msgs[j].toSeq
    ensures Seqs(run.states[t].msgs[j].chunks) <= Seqs(run.states[t].msgs[i].chunks)
  {
    InvariantHolds(c, run, t);
    hide IsRun;
    hide Storage;
    hide SendOk;
    hide EvictOk;
    var s := run.states[t];
    var m, m' := s.msgs[i], s.msgs[j];
    assert Covers(m, m') && MsgOk(c, m', s.hist.committed, s.hist.streams);
    SubsetUpTo(c, m, m', s.hist.committed, s.hist.streams);
  }

  lemma SubsetUpTo(c: Config, m: Message, m': Message, committed: Contents, streams: set<string>)
    requires Covers(m, m') && MsgOk(c, m', committed, streams)
    requires m.streamId == m'.streamId && m.toSeq == m'.toSeq
    ensures Seqs(m'.chunks) <= Seqs(m.chunks)
  {
    forall q | q in Seqs(m'.chunks) ensures q in Seqs(m.chunks) {
      var x :| 0 <= x < |m'.chunks| && m'.chunks[x].seqNo == q;
      assert q <= m'.toSeq;
    }
  }

  /** However late, repeated or meant for an earlier message it is: an error-free ack that
      names the stream and end of the message now waiting proves that all of it is stored. */
  lemma AnyMatchingAckIsSound(c: Config, run: Run, t: nat, a: Ack)
    requires IsRun(c, run) && t < |run.states| && run.states[t].send.Sending?
    requires a in run.states[t].acks && a.error == ""
    requires Matches(run.states[t].waiters, a)
    ensures var s := run.states[t];
            forall ch <- s.send.msg.chunks ::
              var k := Key(s.send.msg, ch);
              k in s.hist.committed && CarriesAll(ch.readings, s.hist.committed[k]) && AtServer(s, k, s.hist.committed[k])
  {
    InvariantHolds(c, run, t);
    hide IsRun;
    var s := run.states[t];
    var m := s.send.msg;
    assert AckOk(s.msgs, s.hist.delivered, a);
    assert a.toSeq == m.toSeq && a.streamId == m.streamId;
    AckMeansStored(c, s, a);
    assert MsgOk(c, m, s.hist.committed, s.hist.streams);
    hide AtServer;
    hide CarriesAll;
    forall ch | ch in m.chunks
      ensures var k := Key(m, ch);
              k in s.hist.committed && CarriesAll(ch.readings, s.hist.committed[k]) && AtServer(s, k, s.hist.committed[k])
    {
      assert Key(m, ch) in Keys(m, m.chunks);
      HeldIsStored(c, s, Key(m, ch));
      ToWireCarries(s.hist.committed[Key(m, ch)]);
    }
  }

  // ---------------------------------------------------------------------------
  // Counters

  ghost predicate Quiet(s: State) {
    !s.flush.FlushWritten? && !s.send.Discarding? && !s.send.Deleted? && !s.evict.Evicted?
  }

  function BufferedReadings(m: Memory): nat {
    |m.buf| + SumPending(m.unflushed)
  }

  function AckedAndCounted(s: State): int {
    s.hist.acked - (if s.send.Deleted? then s.send.readings else 0)
  }

  /** Stats adds up at every instant, whatever has been committed but not yet applied, and
      matches the table whenever no commit is waiting to be applied. */
  lemma ReadingsConserved(c: Config, run: Run, i: nat)
    requires IsRun(c, run) && i < |run.states|
    ensures var s := run.states[i];
            && s.hist.appended + s.hist.openReadings ==
               BufferedReadings(s.mem) + s.mem.pendingReadings + AckedAndCounted(s)
               + (s.mem.evicted - s.hist.openEvicted) + s.mem.dropped
            && s.disk.pendingChunks == |s.disk.rows| && s.disk.pendingReadings == SumRows(s.disk.rows)
            && (Quiet(s) ==> s.mem.pendingChunks == |s.disk.rows| && s.mem.pendingReadings == SumRows(s.disk.rows))
  {
    InvariantHolds(c, run, i);
    hide IsRun;
  }

  /** A crash at any step: the counters read back from the file are those of the table, and
      the stream and the allocator are kept. */
  lemma CrashRestoresCounters(c: Config, run: Run, i: nat, s': State)
    requires IsRun(c, run) && i < |run.states| && Crash(c, run.states[i], s')
    ensures s'.mem.pendingChunks == |s'.disk.rows| && s'.mem.pendingReadings == SumRows(s'.disk.rows)
    ensures s'.disk == run.states[i].disk
    ensures forall k <- s'.hist.committed :: k.stream == s'.disk.streamId ==> k.seqNo < s'.disk.nextSeq
  {
    InvariantHolds(c, run, i);
    hide IsRun;
  }

  /** An eviction removes the lowest seqs, at most the k rows counted when the cut was
      chosen, itself at most 20000, however many acks and discards came in between. */
  lemma EvictionBounded(c: Config, run: Run, i: nat)
    requires IsRun(c, run) && i < |run.events| && run.events[i].OnEvictRows?
    ensures var s, s' := run.states[i], run.states[i + 1];
            s.evict.EvictChosen? &&
            exists n :: 0 <= n <= |s.disk.rows| && n <= s.evict.k <= 20000
                        && s'.disk.rows == s.disk.rows[n..]
                        && s'.disk.evictedReadings == s.disk.evictedReadings + SumRows(s.disk.rows[..n])
  {
    InvariantHolds(c, run, i);
    var s, s' := run.states[i], run.states[i + 1];
    assert Next(c, s, s', run.events[i]);
    EvictStep(c, s, s');
  }

  lemma EvictStep(c: Config, s: State, s': State)
    requires Inv(c, s) && EvictRows(c, s, s')
    ensures exists n :: 0 <= n <= |s.disk.rows| && n <= s.evict.k <= 20000
                        && s'.disk.rows == s.disk.rows[n..]
                        && s'.disk.evictedReadings == s.disk.evictedReadings + SumRows(s.disk.rows[..n])
  {
    hide SendOk;
    hide Traffic;
    hide SumRows;
    var rows, cut := s.disk.rows, s.evict.cut;
    UpToSize(rows, cut);
    CutSplits(rows, cut);
    var gone := UpTo(rows, cut);
    assert rows[..|gone|] == gone && rows[|gone|..] == s'.disk.rows;
  }
}
