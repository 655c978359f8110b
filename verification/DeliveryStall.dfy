/** A value JSON cannot carry stops the queue: exactly when, and until when. */
module DeliveryStall {
  import opened Ints
  import opened ChunkCodec
  import opened QueueModel
  import opened Wire
  import opened IngestServer
  import opened AckMatching
  import opened Delivery
  import opened DeliveryInvariant
  import opened DeliveryProof
  import opened DeliveryPaths

  /** A row that decodes to a NaN or infinite value. */
  ghost predicate NonFiniteRow(c: Config, r: Row) {
    var rs := DecodeBlob(c.z, r.blob);
    rs.Some? && exists x <- rs.value :: x.value.Some? && !Finite(x.value.value)
  }

  /** The codec lets such values through: a flushed list with one becomes such a row. */
  lemma NonFiniteIsStored(c: Config, rs: seq<Reading>, i: nat, q: nat)
    requires c.z.Inverse() && NonNegativeIds(rs) && GoSized(rs)
    requires i < |rs| && rs[i].value.Some? && !Finite(rs[i].value.value)
    ensures NonFiniteRow(c, Row(q, |rs|, EncodeBlob(c.z, rs)))
  {
    hide Finite;
    BlobRoundTrip(c.z, rs);
    hide DecodeBlob;
    hide EncodeBlob;
    assert AllAtMillis(rs)[i].value == rs[i].value;
    assert AllAtMillis(rs)[i] in AllAtMillis(rs);
  }

  // ---------------------------------------------------------------------------
  // One batch

  /** A batch has a JSON form if and only if none of its rows holds such a value. */
  lemma {:induction false} MarshalableIff(c: Config, raw: seq<Row>)
    ensures Marshalable(Decoded(c.z, raw)) <==> forall r <- raw :: !NonFiniteRow(c, r)
  {
    hide DecodeBlob;
    hide Finite;
    if raw != [] {
      var n := |raw| - 1;
      var init, last := raw[..n], raw[n];
      MarshalableIff(c, init);
      assert forall r :: r in raw <==> r in init || r == last;
      var rs := DecodeBlob(c.z, last.blob);
      if rs.Some? {
        assert Decoded(c.z, raw) == Decoded(c.z, init) + [Chunk(last.seqNo, rs.value)];
        MarshalableSnoc(Decoded(c.z, init), Chunk(last.seqNo, rs.value));
        assert NonFiniteRow(c, last) <==> exists x <- rs.value :: x.value.Some? && !Finite(x.value.value);
      } else {
        assert Decoded(c.z, raw) == Decoded(c.z, init);
      }
      hide Marshalable;
      hide NonFiniteRow;
    }
  }

  lemma MarshalableSnoc(chunks: seq<Chunk>, ch: Chunk)
    ensures Marshalable(chunks + [ch]) <==>
            Marshalable(chunks) && forall r <- ch.readings :: r.value.Some? ==> Finite(r.value.value)
  {
    hide Finite;
    assert forall x :: x in chunks + [ch] <==> x in chunks || x == ch;
  }

  /** Once a batch is decoded it can be published if and only if every row of it is finite. */
  lemma PublishableIff(c: Config, s: State)
    requires Inv(c, s) && s.send.Decoding? && s.send.pos == |s.send.raw| && s.send.chunks != []
    ensures (exists s' :: Publish(c, s, s')) <==> forall r <- s.send.raw :: !NonFiniteRow(c, r)
  {
    BatchDecoded(c, s);
    MarshalableIff(c, s.send.raw);
    hide Inv;
    hide Decoded;
    hide NonFiniteRow;
    if Marshalable(s.send.chunks) {
      assert Publish(c, s, Published(c, s));
    }
  }

  /** The state after publishing. */
  ghost function Published(c: Config, s: State): State
    requires s.send.Decoding? && s.send.chunks != [] && s.send.raw != []
  {
    var m := MessageOf(c.gateway, s.disk.streamId, s.send.chunks);
    s.(send := Sending(m, s.send.raw[0].seqNo), waiters := Register(s.waiters, m), msgs := s.msgs + [m])
  }

  // ---------------------------------------------------------------------------
  // Which rows the next batch holds

  lemma {:induction false} ScanLengthIff(rows: seq<Row>, total: int, max: int, limit: nat, i: nat)
    requires i < |rows|
    ensures i < ScanLength(rows, total, max, limit) <==>
            limit > 0 && (i == 0 || (i < limit && total + SumRows(rows[..i]) < max))
    decreases |rows|
  {
    if i > 0 {
      assert rows[..i][1..] == rows[1..][..i - 1];
      if limit > 0 && total + rows[0].n < max {
        ScanLengthIff(rows[1..], total + rows[0].n, max, limit - 1, i - 1);
        assert rows[1..][..0] == [];
      }
    }
  }

  /** Row i is in the batch if it is the oldest, or among the first 500 with fewer than `max`
      readings before it. */
  lemma InScanIff(rows: seq<Row>, max: int, i: nat)
    requires i < |rows|
    ensures i < |Scan(rows, max)| <==> i == 0 || (i < 500 && SumRows(rows[..i]) < max)
  {
    ScanLengthIff(rows, 0, max, READ_BATCH_SCAN_LIMIT, i);
  }

  /** A row stays in the batch while only rows before it go. */
  lemma StaysInScan(rows: seq<Row>, rows': seq<Row>, max: int, i: nat, i': nat)
    requires i < |Scan(rows, max)| && i' <= i && i' < |rows'| && rows'[i'] == rows[i]
    requires SumRows(rows'[..i']) <= SumRows(rows[..i])
    ensures rows[i] in Scan(rows', max)
  {
    InScanIff(rows, max, i);
    InScanIff(rows', max, i');
    hide ScanLength;
    assert Scan(rows', max)[i'] == rows[i];
  }

  /** Where a row of the batch is in the table. */
  lemma ScanIndex(rows: seq<Row>, max: int, r: Row) returns (i: nat)
    requires r in Scan(rows, max)
    ensures i < |Scan(rows, max)| && i < |rows| && rows[i] == r
  {
    hide ScanLength;
    i :| 0 <= i < |Scan(rows, max)| && Scan(rows, max)[i] == r;
  }

  // ---------------------------------------------------------------------------
  // The stall

  /** Nothing has been published while the next batch, and the one being read, hold r. */
  ghost predicate StuckOn(c: Config, s: State, r: Row, msgs: seq<Message>) {
    && s.msgs == msgs && r in Scan(s.disk.rows, c.maxReadings)
    && match s.send
       case SendIdle => true
       case Decoding(raw, _, _) => r in raw
       case Discarding(raw, _, _) => r in raw
       case _ => false
  }

  /** Steps that take this very row away without sending it. */
  ghost predicate TakesAway(s: State, s': State, e: Event, r: Row) {
    || e.OnReplaceFile?
    || (e.OnEvictRows? && r !in s'.disk.rows)
    || (e.OnCorrupt? && e.j < |s.disk.rows| && s.disk.rows[e.j] == r)
  }

  lemma AppendKeepsScan(c: Config, s: State, s': State, r: Row)
    requires WriteChunks(c, s, s') && r in Scan(s.disk.rows, c.maxReadings)
    ensures r in Scan(s'.disk.rows, c.maxReadings)
  {
    hide Scan;
    hide SumRows;
    var i := ScanIndex(s.disk.rows, c.maxReadings, r);
    assert s'.disk.rows[..i] == s.disk.rows[..i];
    StaysInScan(s.disk.rows, s'.disk.rows, c.maxReadings, i, i);
  }

  lemma EvictKeepsScan(c: Config, s: State, s': State, r: Row)
    requires Ascending(s.disk.rows) && EvictRows(c, s, s')
    requires r in Scan(s.disk.rows, c.maxReadings) && r in s'.disk.rows
    ensures r in Scan(s'.disk.rows, c.maxReadings)
  {
    hide Scan;
    hide SumRows;
    hide UpTo;
    hide Above;
    var rows, rows' := s.disk.rows, s'.disk.rows;
    CutSplits(rows, s.evict.cut);
    var n := |rows| - |rows'|;
    assert rows' == rows[n..];
    SuffixKeepsScan(rows, n, c.maxReadings, r);
  }

  lemma SuffixKeepsScan(rows: seq<Row>, n: nat, max: int, r: Row)
    requires Ascending(rows) && n <= |rows| && r in Scan(rows, max) && r in rows[n..]
    ensures r in Scan(rows[n..], max)
  {
    hide Scan;
    hide SumRows;
    var i := ScanIndex(rows, max, r);
    var i' :| 0 <= i' < |rows[n..]| && rows[n..][i'] == r;
    assert rows[n + i'] == rows[i];
    assert n + i' == i;
    assert rows[..i] == rows[..n] + rows[n..][..i'];
    SumRowsAppend(rows[..n], rows[n..][..i']);
    StaysInScan(rows, rows[n..], max, i, i');
  }

  /** Another row goes: r moves up by one or stays where it is. */
  lemma RemovalKeepsScan(rows: seq<Row>, j: nat, max: int, r: Row)
    requires j < |rows| && r in Scan(rows, max) && rows[j] != r
    ensures r in Scan(rows[..j] + rows[j + 1..], max)
  {
    hide Scan;
    hide SumRows;
    var rest := rows[..j] + rows[j + 1..];
    var i := ScanIndex(rows, max, r);
    if i < j {
      assert rest[..i] == rows[..i];
      StaysInScan(rows, rest, max, i, i);
    } else {
      assert rest[..i - 1] == rows[..j] + rows[j + 1..i];
      assert rows[..i] == rows[..j] + ([rows[j]] + rows[j + 1..i]);
      SumRowsAppend(rows[..j], rows[j + 1..i]);
      SumRowsAppend(rows[..j], [rows[j]] + rows[j + 1..i]);
      SumRowsAppend([rows[j]], rows[j + 1..i]);
      StaysInScan(rows, rest, max, i, i - 1);
    }
  }

  lemma DamageKeepsScan(rows: seq<Row>, j: nat, blob: seq<Byte>, max: int, r: Row)
    requires j < |rows| && r in Scan(rows, max) && rows[j] != r
    ensures r in Scan(rows[j := rows[j].(blob := blob)], max)
  {
    hide Scan;
    var rows' := rows[j := rows[j].(blob := blob)];
    var i := ScanIndex(rows, max, r);
    SumSameSizes(rows[..i], rows'[..i]);
    hide SumRows;
    StaysInScan(rows, rows', max, i, i);
  }

  /** A discard hits a corrupt row of the batch, so not r. */
  lemma DiscardKeepsScan(c: Config, s: State, s': State, r: Row)
    requires Inv(c, s) && DiscardRow(c, s, s')
    requires NonFiniteRow(c, r) && r in s.send.raw && r in Scan(s.disk.rows, c.maxReadings)
    ensures r in Scan(s'.disk.rows, c.maxReadings)
  {
    hide DecodeBlob;
    hide Scan;
    hide SumRows;
    var row, rows := s.send.raw[s.send.pos], s.disk.rows;
    BatchAscends(c, s);
    RowsAscend(c, s);
    hide Inv;
    assert r != row;
    DistinctSeqs(s.send.raw, r, row);
    var j :| 0 <= j < |rows| && rows[j].seqNo == row.seqNo;
    assert rows[j] in rows;
    WithoutRow(rows, j);
    RemovalKeepsScan(rows, j, c.maxReadings, r);
  }

  lemma BatchAscends(c: Config, s: State)
    requires Inv(c, s) && s.send.Decoding?
    ensures Ascending(s.send.raw)
  {
    hide Storage;
    hide Traffic;
    hide EvictOk;
  }

  lemma DistinctSeqs(rows: seq<Row>, r: Row, r': Row)
    requires Ascending(rows) && r in rows && r' in rows && r != r'
    ensures r.seqNo != r'.seqNo
  {
  }

  /** What the table's batch does in one step. */
  lemma ScanStep(c: Config, s: State, s': State, e: Event, r: Row, msgs: seq<Message>)
    requires Inv(c, s) && Next(c, s, s', e) && !TakesAway(s, s', e, r)
    requires NonFiniteRow(c, r) && StuckOn(c, s, r, msgs)
    ensures r in Scan(s'.disk.rows, c.maxReadings)
  {
    hide Inv;
    hide Scan;
    hide NonFiniteRow;
    hide DeleteThrough;
    hide Insert;
    hide Discard;
    DiskFrame(c, s, s', e);
    match e {
      case OnWriteChunks => AppendKeepsScan(c, s, s', r);
      case OnDiscardRow => DiscardKeepsScan(c, s, s', r);
      case OnEvictRows =>
        RowsAscend(c, s);
        EvictKeepsScan(c, s, s', r);
      case OnCorrupt(j, blob) =>
        assert Corrupt(c, s, s', j, blob);
        DamageKeepsScan(s.disk.rows, j, blob, c.maxReadings, r);
      case _ =>
    }
  }

  /** What the forwarder does in one step: it reads the row again and again. */
  lemma SendStep(c: Config, s: State, s': State, e: Event, r: Row, msgs: seq<Message>)
    requires Inv(c, s) && Next(c, s, s', e) && !e.OnPublish?
    requires StuckOn(c, s, r, msgs) && r in Scan(s'.disk.rows, c.maxReadings)
    ensures StuckOn(c, s', r, msgs)
  {
    hide Inv;
    hide Scan;
    hide DecodeBlob;
    hide HandleMessage;
    hide Stores;
    hide Marshalable;
    hide Above;
    hide UpTo;
    hide SumRows;
    hide DeleteThrough;
    hide Discard;
    hide Insert;
    hide Seal;
    hide TrimBacklog;
  }

  lemma NeverPublished(c: Config, s: State, s': State, r: Row, msgs: seq<Message>)
    requires Inv(c, s) && NonFiniteRow(c, r) && StuckOn(c, s, r, msgs)
    ensures !Publish(c, s, s')
  {
    hide NonFiniteRow;
    hide Scan;
    if Publish(c, s, s') {
      PublishableIff(c, s);
    }
    hide Inv;
  }

  lemma StuckStep(c: Config, s: State, s': State, e: Event, r: Row, msgs: seq<Message>)
    requires Inv(c, s) && Next(c, s, s', e) && !TakesAway(s, s', e, r)
    requires NonFiniteRow(c, r) && StuckOn(c, s, r, msgs)
    ensures StuckOn(c, s', r, msgs)
  {
    hide NonFiniteRow;
    hide StuckOn;
    NeverPublished(c, s, s', r, msgs);
    ScanStep(c, s, s', e, r, msgs);
    assert !e.OnPublish? by {
      assert e.OnPublish? ==> Publish(c, s, s');
    }
    SendStep(c, s, s', e, r, msgs);
    hide Inv;
    hide Next;
  }

  lemma {:induction false} StallsAlong(c: Config, run: Run, j: nat, r: Row)
    requires c.z.Inverse() && Steps(c, run) && j < |run.states|
    requires Inv(c, run.states[0]) && NonFiniteRow(c, r)
    requires StuckOn(c, run.states[0], r, run.states[0].msgs)
    requires forall t :: 0 <= t < j ==> !TakesAway(run.states[t], run.states[t + 1], run.events[t], r)
    ensures Inv(c, run.states[j]) && StuckOn(c, run.states[j], r, run.states[0].msgs)
    decreases j
  {
    hide NonFiniteRow;
    hide Next;
    hide Inv;
    hide StuckOn;
    hide TakesAway;
    if j > 0 {
      StallsAlong(c, run, j - 1, r);
      StuckStep(c, run.states[j - 1], run.states[j], run.events[j - 1], r, run.states[0].msgs);
      StepKeeps(c, run.states[j - 1], run.states[j], run.events[j - 1]);
    }
  }

  /** When any chunk of the next batch holds a NaN or infinite value, no message is published
      again, across timeouts, flushes, discards, evictions of other chunks and crashes, until
      that very chunk is evicted, damaged or lost. */
  lemma NonFiniteValueStalls(c: Config, run: Run, i: nat, j: nat, r: Row)
    requires IsRun(c, run) && i <= j < |run.states|
    requires run.states[i].send == SendIdle && r in Scan(run.states[i].disk.rows, c.maxReadings)
    requires NonFiniteRow(c, r)
    requires forall t :: i <= t < j ==> !TakesAway(run.states[t], run.states[t + 1], run.events[t], r)
    ensures run.states[j].msgs == run.states[i].msgs && r in run.states[j].disk.rows
  {
    hide NonFiniteRow;
    hide Next;
    hide Inv;
    hide Init;
    hide TakesAway;
    hide Scan;
    InvariantHolds(c, run, i);
    var rest := Suffix(run, i);
    SuffixSteps(c, run, i);
    forall t | 0 <= t < j - i ensures !TakesAway(rest.states[t], rest.states[t + 1], rest.events[t], r) {
      assert rest.states[t] == run.states[i + t] && rest.states[t + 1] == run.states[i + t + 1];
      assert rest.events[t] == run.events[i + t];
    }
    hide Steps;
    StallsAlong(c, rest, j - i, r);
    var x := ScanIndex(run.states[j].disk.rows, c.maxReadings, r);
  }

  function Suffix(run: Run, i: nat): Run
    requires i < |run.states| && |run.states| == |run.events| + 1
  {
    Run(run.states[i..], run.events[i..])
  }

  lemma SuffixSteps(c: Config, run: Run, i: nat)
    requires Steps(c, run) && i < |run.states|
    ensures Steps(c, Suffix(run, i))
  {
    hide Next;
    var rest := Suffix(run, i);
    forall t | 0 <= t < |rest.events| ensures Next(c, rest.states[t], rest.states[t + 1], rest.events[t]) {
      assert Next(c, run.states[i + t], run.states[i + t + 1], run.events[i + t]);
    }
  }

  // ---------------------------------------------------------------------------
  // And otherwise it does publish

  ghost predicate Undisturbed(e: Event) {
    !e.OnEvictRows? && !e.OnCorrupt? && !e.OnReplaceFile?
  }

  /** Some continuation without eviction, damage or a new file publishes a message. */
  ghost predicate CanPublish(c: Config, s: State) {
    exists run: Run :: LeadsToPublish(c, s, run)
  }

  ghost predicate LeadsToPublish(c: Config, s: State, run: Run) {
    && Steps(c, run) && run.states[0] == s && run.events != []
    && run.events[|run.events| - 1].OnPublish?
    && forall e <- run.events :: Undisturbed(e)
  }

  lemma ReachesThenPublishes(c: Config, s: State, t: State, u: State)
    requires Reaches(c, s, t) && Publish(c, t, u)
    ensures CanPublish(c, s)
  {
    hide Publish;
    var path: Run :| IsPath(c, s, t, path);
    assert Next(c, t, u, OnPublish);
    hide Next;
    var run := Run(path.states + [u], path.events + [OnPublish]);
    forall i | 0 <= i < |run.events| ensures Next(c, run.states[i], run.states[i + 1], run.events[i]) {
      if i < |path.events| {
        assert Next(c, path.states[i], path.states[i + 1], path.events[i]);
      }
    }
    forall e | e in run.events ensures Undisturbed(e) {
      assert e in path.events || e == OnPublish;
    }
    assert LeadsToPublish(c, s, run);
  }

  /** With something to send, an idle forwarder can go on to publish if and only if no row of
      the next batch holds a NaN or infinite value. */
  lemma PublishesIff(c: Config, run: Run, i: nat)
    requires IsRun(c, run) && i < |run.states| && run.states[i].send == SendIdle
    requires exists r <- Scan(run.states[i].disk.rows, c.maxReadings) :: DecodeBlob(c.z, r.blob).Some?
    ensures CanPublish(c, run.states[i]) <==>
            forall r <- Scan(run.states[i].disk.rows, c.maxReadings) :: !NonFiniteRow(c, r)
  {
    hide Inv;
    hide Scan;
    hide NonFiniteRow;
    hide CanPublish;
    hide Next;
    hide Init;
    InvariantHolds(c, run, i);
    var s := run.states[i];
    hide Steps;
    var raw := Scan(s.disk.rows, c.maxReadings);
    forall r | r in raw && NonFiniteRow(c, r) ensures !CanPublish(c, s) {
      CannotPublish(c, s, r);
    }
    if forall r <- raw :: !NonFiniteRow(c, r) {
      FinitePublishes(c, s);
    }
  }

  /** From an idle forwarder with a finite batch: read it, decode it, publish. */
  lemma FinitePublishes(c: Config, s: State)
    requires c.z.Inverse() && Inv(c, s) && s.send == SendIdle
    requires forall r <- Scan(s.disk.rows, c.maxReadings) :: !NonFiniteRow(c, r)
    requires exists r <- Scan(s.disk.rows, c.maxReadings) :: DecodeBlob(c.z, r.blob).Some?
    ensures CanPublish(c, s)
  {
    hide Inv;
    hide Scan;
    hide NonFiniteRow;
    hide CanPublish;
    hide DecodeBlob;
    var raw := Scan(s.disk.rows, c.maxReadings);
    var s' := s.(send := Decoding(raw, 0, []));
    assert StartBatch(c, s, s');
    assert Next(c, s, s', OnStartBatch);
    hide Next;
    StepKeeps(c, s, s', OnStartBatch);
    DecodedComplete(c.z, raw);
    hide Decoded;
    hide Publish;
    var t := DecodesToEnd(c, s');
    BatchDecoded(c, t);
    PublishableIff(c, t);
    var u :| Publish(c, t, u);
    StepReaches(c, s, s', OnStartBatch, t);
    hide Reaches;
    ReachesThenPublishes(c, s, t, u);
  }

  lemma CannotPublish(c: Config, s: State, r: Row)
    requires c.z.Inverse() && Inv(c, s) && s.send == SendIdle
    requires r in Scan(s.disk.rows, c.maxReadings) && NonFiniteRow(c, r)
    ensures !CanPublish(c, s)
  {
    hide Inv;
    hide Scan;
    hide NonFiniteRow;
    hide LeadsToPublish;
    forall path: Run ensures !LeadsToPublish(c, s, path) {
      StalledPath(c, s, r, path);
    }
  }

  lemma StalledPath(c: Config, s: State, r: Row, path: Run)
    requires c.z.Inverse() && Inv(c, s) && s.send == SendIdle
    requires r in Scan(s.disk.rows, c.maxReadings) && NonFiniteRow(c, r)
    ensures !LeadsToPublish(c, s, path)
  {
    hide Inv;
    hide Scan;
    hide NonFiniteRow;
    if LeadsToPublish(c, s, path) {
      var n := |path.events| - 1;
      LastPublishes(c, path);
      hide Next;
      hide Publish;
      forall t | 0 <= t < n ensures !TakesAway(path.states[t], path.states[t + 1], path.events[t], r) {
        assert path.events[t] in path.events;
      }
      StallsAlong(c, path, n, r);
      NeverPublished(c, path.states[n], path.states[n + 1], r, s.msgs);
    }
  }

  lemma LastPublishes(c: Config, path: Run)
    requires Steps(c, path) && path.events != [] && path.events[|path.events| - 1].OnPublish?
    ensures Publish(c, path.states[|path.events| - 1], path.states[|path.events|])
  {
    hide Publish;
    var n := |path.events| - 1;
    assert Next(c, path.states[n], path.states[n + 1], path.events[n]);
  }
}
