/** Concrete runs: one reading flushed and sent, one the queue stalls on, one written twice. */
module DeliverySamples {
  import opened Ints
  import opened ChunkCodec
  import opened QueueModel
  import opened Wire
  import opened IngestServer
  import opened GapLedger
  import opened AckMatching
  import opened Delivery
  import opened DeliveryInvariant
  import opened DeliveryProof
  import opened DeliveryPaths
  import opened DeliveryStall

  /** One reading, with or without a value. */
  function Sample(v: Option<UInt64>): Reading {
    Reading(1, 1, v, [], 0)
  }

  predicate FiniteSample(v: Option<UInt64>) {
    v.Some? ==> Finite(v.value)
  }

  /** Nothing buffered, stored or under way. */
  ghost predicate AtRest(s: State) {
    && s.mem.buf == [] && s.mem.unflushed == [] && s.hist.batches == []
    && s.flush == FlushIdle && s.send == SendIdle && s.waiters == NO_WAITERS
    && s.disk.rows == []
  }

  /** The gateway has sent its one chunk and waits for the ack. */
  ghost predicate Waiting(c: Config, s: State, t: State) {
    var q := s.disk.nextSeq;
    && t.send.Sending? && t.send.msg.toSeq == q && t.send.msg.streamId == s.disk.streamId
    && t.send.msg.gatewayId == c.gateway && Seqs(t.send.msg.chunks) == {q}
    && t.disk.streamId == s.disk.streamId && RowSeqs(t.disk.rows) == {q} && Ascending(t.disk.rows)
    && t.waiters == Register(NO_WAITERS, t.send.msg) && t.msgs == s.msgs + [t.send.msg]
    && t.acks == s.acks && t.server == s.server && t.archive == s.archive
    && KeyFor(c, s.disk, q) in t.hist.committed
    && t.hist.evicted == s.hist.evicted && t.hist.discarded == s.hist.discarded
    && t.hist.lost == s.hist.lost && t.hist.streams == s.hist.streams
  }

  /** From rest: one reading is appended, flushed, read back and published. */
  lemma SendsOne(c: Config, s: State, v: Option<UInt64>) returns (run: Run)
    requires c.z.Inverse() && AtRest(s) && FiniteSample(v)
    ensures Steps(c, run) && run.states[0] == s && Waiting(c, s, run.states[|run.events|])
  {
    var s4, front := FlushesOne(c, s, v);
    var back := PublishesOne(c, s, s4, v);
    run := Joined(front, back);
    JoinedSteps(c, front, back);
  }

  /** The chunk of one sample. */
  function SampleRow(c: Config, q: nat, v: Option<UInt64>): Row {
    SampleSized(v);
    Row(q, 1, EncodeBlob(c.z, [Sample(v)]))
  }

  lemma SampleSized(v: Option<UInt64>)
    ensures NonNegativeIds([Sample(v)]) && GoSized([Sample(v)])
  {
  }

  ghost predicate Flushed(c: Config, s: State, t: State, v: Option<UInt64>) {
    && t.disk == Insert(s.disk, [PendingChunk(1, SampleRow(c, 0, v).blob)])
    && t.send == SendIdle && t.waiters == NO_WAITERS
    && t.msgs == s.msgs && t.acks == s.acks && t.server == s.server && t.archive == s.archive
    && KeyFor(c, s.disk, s.disk.nextSeq) in t.hist.committed
    && t.hist.evicted == s.hist.evicted && t.hist.discarded == s.hist.discarded
    && t.hist.lost == s.hist.lost && t.hist.streams == s.hist.streams
  }

  lemma FlushesOne(c: Config, s: State, v: Option<UInt64>) returns (t: State, run: Run)
    requires AtRest(s)
    ensures Steps(c, run) && run.states[0] == s && run.states[|run.events|] == t && Flushed(c, s, t, v)
  {
    hide EncodeBlob;
    SampleSized(v);
    var s1 := s.(mem := s.mem.(buf := [Sample(v)]), hist := s.hist.(appended := s.hist.appended + 1));
    assert s.mem.buf + [Sample(v)] == [Sample(v)];
    assert Append(c, s, s1, Sample(v));
    var p := PendingChunk(1, SampleRow(c, 0, v).blob);
    assert Seal(c.z, s1.mem) == s1.mem.(buf := [], unflushed := [p]) by {
      assert s1.mem.unflushed + [p] == [p];
    }
    var s2 := s1.(mem := Seal(c.z, s1.mem), flush := FlushSealed, hist := s1.hist.(batches := [[Sample(v)]]));
    assert s1.hist.batches + [[Sample(v)]] == [[Sample(v)]];
    assert SealBuffer(c, s1, s2);
    var s3 := s2.(disk := Insert(s2.disk, s2.mem.unflushed), flush := FlushWritten,
                  hist := s2.hist.(committed := s2.hist.committed + Committed(c, s2)));
    assert WriteChunks(c, s2, s3);
    t := s3.(mem := CountWritten(s3.mem, s3.mem.unflushed), flush := FlushIdle, hist := s3.hist.(batches := []));
    assert CountWrite(c, s3, t);
    assert KeyFor(c, s.disk, s.disk.nextSeq) in NextKeys(c, s2.disk, |s2.hist.batches|);
    run := Run([s, s1, s2, s3, t], [OnAppend(Sample(v)), OnSealBuffer, OnWriteChunks, OnCountWrite]);
    FlushSteps(c, s, s1, s2, s3, t, v);
    hide Steps;
  }

  lemma FlushSteps(c: Config, s: State, s1: State, s2: State, s3: State, t: State, v: Option<UInt64>)
    requires Append(c, s, s1, Sample(v)) && SealBuffer(c, s1, s2) && WriteChunks(c, s2, s3) && CountWrite(c, s3, t)
    ensures Steps(c, Run([s, s1, s2, s3, t], [OnAppend(Sample(v)), OnSealBuffer, OnWriteChunks, OnCountWrite]))
  {
    hide Append;
    hide SealBuffer;
    hide WriteChunks;
    hide CountWrite;
    assert Next(c, s, s1, OnAppend(Sample(v))) && Next(c, s1, s2, OnSealBuffer);
    assert Next(c, s2, s3, OnWriteChunks) && Next(c, s3, t, OnCountWrite);
    hide Next;
  }

  lemma PublishesOne(c: Config, s: State, t: State, v: Option<UInt64>) returns (run: Run)
    requires c.z.Inverse() && AtRest(s) && Flushed(c, s, t, v) && FiniteSample(v)
    ensures Steps(c, run) && run.states[0] == t && Waiting(c, s, run.states[|run.events|])
  {
    SampleSized(v);
    BlobRoundTrip(c.z, [Sample(v)]);
    hide EncodeBlob;
    hide DecodeBlob;
    var q := s.disk.nextSeq;
    var row := SampleRow(c, q, v);
    assert t.disk.rows == [row];
    SampleScanned(row, c.maxReadings);
    hide Scan;
    var t1 := t.(send := Decoding([row], 0, []));
    assert StartBatch(c, t, t1);
    var ch := Chunk(q, AllAtMillis([Sample(v)]));
    var t2 := t1.(send := Decoding([row], 1, [ch]));
    assert [] + [ch] == [ch];
    assert DecodeRow(c, t1, t2);
    SampleMarshals(ch, v);
    hide Marshalable;
    var m := MessageOf(c.gateway, t2.disk.streamId, [ch]);
    var t3 := t2.(send := Sending(m, q), waiters := Register(t2.waiters, m), msgs := t2.msgs + [m]);
    assert Publish(c, t2, t3);
    hide MessageOf;
    run := Run([t, t1, t2, t3], [OnStartBatch, OnDecodeRow, OnPublish]);
    DispatchSteps(c, t, t1, t2, t3);
    OneSent(c, s, q, row, ch);
    hide Steps;
    hide AllAtMillis;
  }

  lemma OneSent(c: Config, s: State, q: nat, row: Row, ch: Chunk)
    requires row.seqNo == q && ch.seqNo == q
    ensures RowSeqs([row]) == {q} && Ascending([row])
    ensures var m := MessageOf(c.gateway, s.disk.streamId, [ch]);
            && Seqs(m.chunks) == {q} && m.toSeq == q && m.streamId == s.disk.streamId && m.gatewayId == c.gateway
  {
    hide ToWireAll;
    var m := MessageOf(c.gateway, s.disk.streamId, [ch]);
    assert m.chunks == [WireChunk(q, ToWireAll(ch.readings))];
  }

  lemma DispatchSteps(c: Config, t: State, t1: State, t2: State, t3: State)
    requires StartBatch(c, t, t1) && DecodeRow(c, t1, t2) && Publish(c, t2, t3)
    ensures Steps(c, Run([t, t1, t2, t3], [OnStartBatch, OnDecodeRow, OnPublish]))
  {
    hide StartBatch;
    hide DecodeRow;
    hide Publish;
    assert Next(c, t, t1, OnStartBatch) && Next(c, t1, t2, OnDecodeRow) && Next(c, t2, t3, OnPublish);
    hide Next;
  }

  lemma SampleScanned(row: Row, max: int)
    ensures Scan([row], max) == [row]
  {
    assert [row][1..] == [];
  }

  lemma SampleMarshals(ch: Chunk, v: Option<UInt64>)
    requires ch.readings == AllAtMillis([Sample(v)]) && FiniteSample(v)
    ensures Marshalable([ch])
  {
  }

  /** A new gateway and a new server. */
  ghost function NewSystem(stream: string): State {
    var d := NewDisk(stream);
    State(d, Reopened(d), FlushIdle, SendIdle, EvictIdle, NO_WAITERS, [], {}, EMPTY_SERVER, [],
          History([], map[], {}, {}, {}, {stream}, {}, {}, 0, 0, 0, 0))
  }

  lemma InitAtRest(c: Config, stream: string)
    requires stream != ""
    ensures Init(c, NewSystem(stream)) && AtRest(NewSystem(stream))
  {
  }

  // ---------------------------------------------------------------------------
  // A value that stalls the queue

  /** A quiet NaN. */
  const NAN: UInt64 := 0x7ff8_0000_0000_0000

  /** A NaN is appended and flushed: the forwarder is idle, and the next batch holds a row that
      is never published. */
  lemma NonFiniteRun(z: Flate, max: int, backlog: nat) returns (c: Config, run: Run, r: Row)
    requires z.Inverse()
    ensures c == Config(z, "g", max, backlog) && IsRun(c, run)
    ensures var s := run.states[|run.events|];
            && s.send == SendIdle && r in Scan(s.disk.rows, c.maxReadings) && NonFiniteRow(c, r)
            && !CanPublish(c, s)
  {
    hide NonFiniteRow;
    hide CanPublish;
    hide Inv;
    c := Config(z, "g", max, backlog);
    var s := NewSystem("s");
    InitAtRest(c, "s");
    var t, path := FlushesOne(c, s, Some(NAN));
    run := path;
    hide Init;
    r := SampleRow(c, s.disk.nextSeq, Some(NAN));
    assert t.disk.rows == [r];
    SampleScanned(r, max);
    SampleSized(Some(NAN));
    NonFiniteIsStored(c, [Sample(Some(NAN))], 0, s.disk.nextSeq);
    InvariantHolds(c, run, |run.events|);
    CannotPublish(c, t, r);
  }

  // ---------------------------------------------------------------------------
  // A chunk written twice

  /** A chunk is stored, the server restarts, and the same message arrives again: two server
      processes have written it. */
  lemma WrittenTwice(z: Flate, max: int, backlog: nat) returns (c: Config, run: Run, k: ChunkKey)
    requires z.Inverse()
    ensures c == Config(z, "g", max, backlog) && IsRun(c, run)
    ensures var s := run.states[|run.events|];
            && |s.archive| == 1 && k in KeysOf(s.archive[0].log) && k in KeysOf(s.server.stored)
  {
    hide Inv;
    c := Config(z, "g", max, backlog);
    var s0 := NewSystem("s");
    InitAtRest(c, "s");
    hide Init;
    var first := SendsOne(c, s0, None);
    var s1 := first.states[|first.events|];
    var s2 := ServerStores(c, s1);
    var s3 := s2.(server := EMPTY_SERVER, archive := s2.archive + [Process(s2.server.stored, s2.hist.current)],
                  hist := s2.hist.(current := {}));
    assert ServerRestarts(c, s2, s3);
    var s4 := ServerStores(c, s3);
    var handled := OnServerHandles(|s1.msgs| - 1, NORMAL, "");
    var rest := Run([s1, s2, s3, s4], [handled, OnServerRestarts, handled]);
    RestartSteps(c, s1, s2, s3, s4);
    run := Joined(first, rest);
    JoinedSteps(c, first, rest);
    var m := s1.send.msg;
    var ch :| ch in m.chunks;
    k := Key(m, ch);
    assert k in Keys(m, m.chunks);
    var n := |run.events|;
    assert run.states[n] == s4 && run.states[n - 2] == s2 by { LastStates(first, rest); }
    hide Steps;
    SeenIsStored(c, run, n);
    SeenIsStored(c, run, n - 2);
  }

  lemma LastStates(first: Run, rest: Run)
    requires |first.states| == |first.events| + 1 && |rest.states| == |rest.events| + 1 == 4
    ensures var run := Joined(first, rest);
            run.states[|run.events|] == rest.states[3] && run.states[|run.events| - 2] == rest.states[1]
  {
  }

  lemma RestartSteps(c: Config, s1: State, s2: State, s3: State, s4: State)
    requires s1.msgs != [] && ServerHandles(c, s1, s2, |s1.msgs| - 1, NORMAL, "") && ServerRestarts(c, s2, s3)
    requires ServerHandles(c, s3, s4, |s1.msgs| - 1, NORMAL, "")
    ensures var handled := OnServerHandles(|s1.msgs| - 1, NORMAL, "");
            Steps(c, Run([s1, s2, s3, s4], [handled, OnServerRestarts, handled]))
  {
    hide ServerHandles;
    hide ServerRestarts;
    var handled := OnServerHandles(|s1.msgs| - 1, NORMAL, "");
    assert Next(c, s1, s2, handled) && Next(c, s2, s3, OnServerRestarts) && Next(c, s3, s4, handled);
    hide Next;
  }

  lemma SeenIsStored(c: Config, run: Run, i: nat)
    requires IsRun(c, run) && i < |run.states|
    ensures run.states[i].server.seen == KeysOf(run.states[i].server.stored)
  {
    InvariantHolds(c, run, i);
    hide IsRun;
    hide Storage;
    hide SendOk;
    hide EvictOk;
    hide ArchiveOk;
  }
}
