/** How the queue drains and how large a message gets. */
module DeliveryProgress {
  import opened Ints
  import opened ChunkCodec
  import opened QueueModel
  import opened Wire
  import opened IngestServer
  import opened Delivery
  import opened DeliveryInvariant
  import opened DeliveryProof

  // ---------------------------------------------------------------------------
  // The backlog up to a fixed seq only shrinks

  lemma StepEvolves(c: Config, s: State, s': State, e: Event)
    requires Inv(c, s) && Next(c, s, s', e) && !e.OnReplaceFile?
    ensures Evolves(s.disk, s'.disk)
  {
    hide Inv;
    hide RowSeqs;
    hide SumRows;
    hide UpTo;
    DiskFrame(c, s, s', e);
    ConsistentNow(c, s);
    match e {
      case OnWriteChunks => InsertConsistent(s.disk, s.mem.unflushed);
      case OnDiscardRow => DiscardKeepsStorage(c, s, s');
      case OnDeleteAcked => DeleteConsistent(s.disk, s.send.msg.toSeq, false);
      case OnEvictRows => DeleteConsistent(s.disk, s.evict.cut, true);
      case OnCorrupt(j, blob) => DamagedRows(c, s, j, blob);
      case _ =>
    }
  }

  lemma ConsistentNow(c: Config, s: State)
    requires Inv(c, s)
    ensures Consistent(s.disk)
  {
    hide Traffic;
    hide SendOk;
    hide EvictOk;
  }

  lemma DamagedRows(c: Config, s: State, j: nat, blob: seq<Byte>)
    requires Inv(c, s) && j < |s.disk.rows| && DecodeBlob(c.z, blob).None?
    ensures RowSeqs(s.disk.rows[j := s.disk.rows[j].(blob := blob)]) == RowSeqs(s.disk.rows)
  {
    hide Traffic;
    hide SendOk;
    hide EvictOk;
    CorruptRows(c, s.disk, s.hist.committed, j, blob);
  }

  ghost predicate SameFile(run: Run, i: nat, j: nat) {
    forall t :: i <= t < j && t < |run.events| ==> !run.events[t].OnReplaceFile?
  }

  lemma {:induction false} RunEvolves(c: Config, run: Run, i: nat, j: nat)
    requires IsRun(c, run) && i <= j < |run.states| && SameFile(run, i, j)
    ensures Evolves(run.states[i].disk, run.states[j].disk)
    decreases j
  {
    hide Inv;
    hide Next;
    hide RowSeqs;
    if i < j {
      RunEvolves(c, run, i, j - 1);
      InvariantHolds(c, run, j - 1);
      StepEvolves(c, run.states[j - 1], run.states[j], run.events[j - 1]);
    }
  }

  /** How many stored chunks have a seq up to `top`. */
  ghost function Backlog(s: State, top: nat): nat {
    |UpToSet(Live(s.disk), top)|
  }

  /** For a seq already handed out, the backlog up to it never grows. */
  lemma BacklogNeverGrows(c: Config, run: Run, i: nat, j: nat, top: nat)
    requires IsRun(c, run) && i <= j < |run.states| && SameFile(run, i, j)
    requires top < run.states[i].disk.nextSeq
    ensures Backlog(run.states[j], top) <= Backlog(run.states[i], top)
  {
    RunEvolves(c, run, i, j);
    hide IsRun;
    hide RowSeqs;
    var a, b := UpToSet(Live(run.states[j].disk), top), UpToSet(Live(run.states[i].disk), top);
    assert a <= b;
    SubsetSize(a, b);
  }

  // ---------------------------------------------------------------------------
  // Every error-free dispatch makes progress

  /** The first row of the batch being dispatched. */
  ghost predicate HeadIs(p: SendPhase, q: nat) {
    match p
    case Decoding(raw, _, _) => raw != [] && raw[0].seqNo == q
    case Discarding(raw, _, _) => raw != [] && raw[0].seqNo == q
    case Sending(_, head) => head == q
    case Released(_, head) => head == q
    case _ => false
  }

  ghost predicate Dispatching(p: SendPhase) {
    !p.SendIdle? && !p.Deleted?
  }

  lemma HeadStep(c: Config, s: State, s': State, e: Event, q: nat)
    requires Next(c, s, s', e) && HeadIs(s.send, q) && Dispatching(s'.send)
    ensures HeadIs(s'.send, q)
  {
    hide HandleMessage;
    hide Stores;
    hide DecodeBlob;
  }

  /** One dispatchOnce that returns without error: it starts at event i and either finds
      nothing to send or deletes what was acknowledged at event j. */
  ghost predicate Dispatch(run: Run, i: nat, j: nat) {
    && i < j < |run.events| && |run.states| == |run.events| + 1
    && run.events[i].OnStartBatch?
    && (run.events[j].OnNothingToSend? || run.events[j].OnDeleteAcked?)
    && forall t :: i < t <= j ==> Dispatching(run.states[t].send)
  }

  lemma {:induction false} HeadKept(c: Config, run: Run, i: nat, j: nat, t: nat, q: nat)
    requires IsRun(c, run) && Dispatch(run, i, j) && i < t <= j
    requires HeadIs(run.states[i + 1].send, q)
    ensures HeadIs(run.states[t].send, q)
    decreases t
  {
    hide Next;
    hide HeadIs;
    hide Dispatching;
    if t > i + 1 {
      HeadKept(c, run, i, j, t - 1, q);
      HeadStep(c, run.states[t - 1], run.states[t], run.events[t - 1], q);
    }
  }

  /** A dispatch that ends has disposed of the first row it read. */
  lemma HeadGone(c: Config, s: State, s': State, e: Event, q: nat)
    requires Inv(c, s) && Next(c, s, s', e) && HeadIs(s.send, q)
    requires e.OnNothingToSend? || e.OnDeleteAcked?
    ensures q !in Live(s'.disk)
  {
    hide Traffic;
    hide EvictOk;
    hide DecodeBlob;
    if e.OnDeleteAcked? {
      DeleteConsistent(s.disk, s.send.msg.toSeq, false);
    } else {
      var raw := s.send.raw;
      assert raw[..|raw|] == raw;
      NothingDecoded(c.z, raw, 0);
    }
  }

  lemma {:induction false} NothingDecoded(z: Flate, raw: seq<Row>, i: nat)
    requires Decoded(z, raw) == [] && i < |raw|
    ensures DecodeBlob(z, raw[i].blob).None?
  {
    hide DecodeBlob;
    var n := |raw| - 1;
    if i < n {
      NothingDecoded(z, raw[..n], i);
    }
  }

  lemma ReplaceGoesIdle(c: Config, s: State, s': State, e: Event)
    requires Next(c, s, s', e) && e.OnReplaceFile?
    ensures !Dispatching(s'.send)
  {
  }

  lemma DispatchSameFile(c: Config, run: Run, i: nat, j: nat)
    requires IsRun(c, run) && Dispatch(run, i, j)
    ensures SameFile(run, i, j + 1)
  {
    hide Next;
    hide Dispatching;
    forall t | i <= t < j + 1 ensures !run.events[t].OnReplaceFile? {
      if run.events[t].OnReplaceFile? {
        ReplaceGoesIdle(c, run.states[t], run.states[t + 1], run.events[t]);
      }
    }
  }

  /** Drain progress: while a chunk up to `top` is stored, every error-free dispatch lowers
      their number, even if every chunk it read was corrupt, and whatever the flusher, the
      evictor and the network did meanwhile. */
  lemma DispatchMakesProgress(c: Config, run: Run, i: nat, j: nat, top: nat)
    requires IsRun(c, run) && Dispatch(run, i, j)
    requires top < run.states[i].disk.nextSeq && Backlog(run.states[i], top) > 0
    ensures Backlog(run.states[j + 1], top) < Backlog(run.states[i], top)
  {
    hide Inv;
    hide Next;
    hide RowSeqs;
    hide HeadIs;
    hide Dispatching;
    DispatchSameFile(c, run, i, j);
    RunEvolves(c, run, i, j + 1);
    InvariantHolds(c, run, i);
    InvariantHolds(c, run, j);
    var s, sEnd := run.states[i], run.states[j + 1];
    var q := FirstRow(c, s, top);
    StartHead(c, s, run.states[i + 1], run.events[i]);
    HeadKept(c, run, i, j, j, q);
    HeadGone(c, run.states[j], sEnd, run.events[j], q);
    var a, b := UpToSet(Live(sEnd.disk), top), UpToSet(Live(s.disk), top);
    assert a <= b && q in b && q !in a;
    SubsetSize(a, b);
  }

  lemma StartHead(c: Config, s: State, s': State, e: Event)
    requires Next(c, s, s', e) && e.OnStartBatch? && s.disk.rows != []
    ensures HeadIs(s'.send, s.disk.rows[0].seqNo)
  {
    ScanNonEmpty(s.disk.rows, c.maxReadings);
  }

  lemma FirstRow(c: Config, s: State, top: nat) returns (q: nat)
    requires Inv(c, s) && Backlog(s, top) > 0
    ensures s.disk.rows != [] && s.disk.rows[0].seqNo == q && q in UpToSet(Live(s.disk), top)
  {
    hide Traffic;
    hide SendOk;
    hide RowsOk;
    var x :| x in UpToSet(Live(s.disk), top);
    var i :| 0 <= i < |s.disk.rows| && s.disk.rows[i].seqNo == x;
    q := s.disk.rows[0].seqNo;
    assert s.disk.rows[0] in s.disk.rows;
  }

  // ---------------------------------------------------------------------------
  // Message size

  lemma {:induction false} CountSnoc(a: seq<WireChunk>, b: WireChunk)
    ensures CountReadings(a + [b]) == CountReadings(a) + |b.readings|
  {
    if a == [] {
      assert a + [b] == [b];
    } else {
      CountSnoc(a[1..], b);
      assert (a + [b])[1..] == a[1..] + [b];
    }
  }

  lemma {:induction false} DecodedSize(c: Config, stream: string, committed: Contents, raw: seq<Row>)
    requires RowsOk(c, stream, committed, raw)
    ensures CountReadings(ToWireChunks(Decoded(c.z, raw))) <= SumRows(raw)
  {
    hide DecodeBlob;
    if raw != [] {
      var n := |raw| - 1;
      var init, last := raw[..n], raw[n];
      DecodedSize(c, stream, committed, init);
      assert raw == init + [last];
      SumRowsAppend(init, [last]);
      assert SumRows([last]) == last.n;
      assert RowOk(c, stream, committed, last);
      var rs := DecodeBlob(c.z, last.blob);
      if rs.Some? {
        var ch := Chunk(last.seqNo, rs.value);
        assert ToWireChunks(Decoded(c.z, raw)) ==
               ToWireChunks(Decoded(c.z, init)) + [WireChunk(ch.seqNo, ToWireAll(ch.readings))];
        CountSnoc(ToWireChunks(Decoded(c.z, init)), WireChunk(ch.seqNo, ToWireAll(ch.readings)));
      } else {
        assert Decoded(c.z, raw) == Decoded(c.z, init);
      }
    }
  }

  /** All chunks of a batch but the last one. */
  lemma BatchSize(c: Config, stream: string, committed: Contents, raw: seq<Row>)
    requires RowsOk(c, stream, committed, raw) && Decoded(c.z, raw) != []
    ensures var chunks := ToWireChunks(Decoded(c.z, raw));
            CountReadings(chunks[..|chunks| - 1]) <= SumRows(raw[..|raw| - 1])
  {
    hide DecodeBlob;
    var n := |raw| - 1;
    var init, chunks := raw[..n], ToWireChunks(Decoded(c.z, raw));
    RowsSubset(c, stream, committed, raw, init);
    hide RowsOk;
    DecodedSize(c, stream, committed, init);
    var before := ToWireChunks(Decoded(c.z, init));
    if |Decoded(c.z, raw)| > |Decoded(c.z, init)| {
      assert chunks[..|chunks| - 1] == before;
    } else {
      assert chunks == before;
      assert before == before[..|before| - 1] + [before[|before| - 1]];
      CountSnoc(before[..|before| - 1], before[|before| - 1]);
    }
  }

  /** A message stays under the configured number of readings, but for its last chunk. */
  lemma MessageSizeBounded(c: Config, run: Run, i: nat)
    requires IsRun(c, run) && i < |run.events| && run.events[i].OnPublish? && c.maxReadings > 0
    ensures var s' := run.states[i + 1];
            s'.send.Sending? && s'.send.msg.chunks != [] &&
            CountReadings(s'.send.msg.chunks[..|s'.send.msg.chunks| - 1]) < c.maxReadings
  {
    hide Inv;
    InvariantHolds(c, run, i);
    assert Next(c, run.states[i], run.states[i + 1], run.events[i]);
    PublishSize(c, run.states[i], run.states[i + 1]);
  }

  lemma PublishSize(c: Config, s: State, s': State)
    requires Inv(c, s) && Publish(c, s, s') && c.maxReadings > 0
    ensures s'.send.msg.chunks != []
    ensures CountReadings(s'.send.msg.chunks[..|s'.send.msg.chunks| - 1]) < c.maxReadings
  {
    hide Storage;
    hide Traffic;
    hide EvictOk;
    hide Marshalable;
    hide RowsOk;
    hide RowSeqs;
    hide PrefixOk;
    hide Decoded;
    hide CountReadings;
    hide SumRows;
    var raw := s.send.raw;
    assert raw[..|raw|] == raw;
    BatchSize(c, s.disk.streamId, s.hist.committed, raw);
  }
}
