/** The forwarding loop: read the oldest chunks, send one message, delete what was acked. */
module Forwarder {
  import opened Ints
  import opened ChunkCodec
  import opened QueueModel
  import opened QueueStore
  import opened Wire
  import opened AckMatching

  /** What the environment does during one dispatch; `arriving` are the acks handled, in order,
      while a message of that stream and to_seq waits. */
  datatype Weather = Weather(
    failingDiscards: set<nat>,
    connected: bool,
    arriving: (string, int) -> seq<Ack>,
    cancelled: bool,
    deleteFails: bool)

  datatype Result = Failed | Sent | NothingPending

  /** BackoffDuration in seconds: 1, 2, 4, ... capped at 60. */
  function Backoff(failures: int): int {
    if failures <= 1 then 1
    else if failures > 6 then 60
    else 2 * Backoff(failures - 1)
  }

  /** Errors since the last dispatch that did not fail. */
  function TrailingFailures(results: seq<Result>): nat {
    if results == [] || !results[|results| - 1].Failed? then 0
    else 1 + TrailingFailures(results[..|results| - 1])
  }

  /** Seconds waited after the last of these dispatches. */
  function WaitAfter(results: seq<Result>, pollInterval: int): int
    requires results != []
  {
    match results[|results| - 1]
    case Failed => Backoff(TrailingFailures(results))
    case Sent => 0
    case NothingPending => pollInterval
  }

  function AllWaits(results: seq<Result>, pollInterval: int): seq<int> {
    if results == [] then []
    else AllWaits(results[..|results| - 1], pollInterval) + [WaitAfter(results, pollInterval)]
  }

  class Forwarder {
    const src: Store
    const adapter: MqttAdapter
    const gateway: string
    const maxReadings: int
    const pollInterval: int

    constructor (src: Store, adapter: MqttAdapter, gateway: string, maxReadings: int, pollInterval: int)
      ensures this.src == src && this.adapter == adapter && this.gateway == gateway
      ensures this.maxReadings == (if maxReadings <= 0 then 2000 else maxReadings)
      ensures this.pollInterval == (if pollInterval <= 0 then 1 else pollInterval)
    {
      this.src, this.adapter, this.gateway := src, adapter, gateway;
      this.maxReadings := if maxReadings <= 0 then 2000 else maxReadings;
      this.pollInterval := if pollInterval <= 0 then 1 else pollInterval;
    }

    ghost predicate Valid()
      reads src, adapter
    {
      src.Valid() && WellFormed(adapter.View())
    }

    /** dispatchOnce, exactly: which of the three results, and what is left of the table. */
    method DispatchOnce(w: Weather) returns (r: Result)
      requires Valid()
      modifies src, adapter
      ensures Valid() && src.disk.streamId == old(src.disk).streamId
      ensures r.NothingPending? <==> Idles(src.z, Scan(old(src.disk).rows, maxReadings), w)
      ensures r.Sent? <==> Succeeds(src.z, old(src.disk).streamId, Scan(old(src.disk).rows, maxReadings), w)
      ensures Leaves(src.z, old(src.disk).rows, Scan(old(src.disk).rows, maxReadings), r, src.disk.rows)
    {
      hide ReadRows;
      hide Scan;
      hide Decoded;
      hide Succeeds;
      hide Idles;
      hide Leaves;
      hide Corrupt;
      hide CorruptGone;
      hide Consistent;
      hide Ascending;
      ghost var rows, stream := src.disk.rows, src.disk.streamId;
      ghost var raw := Scan(rows, maxReadings);
      BatchFacts(src.z, src.disk, src.Mem(), maxReadings, w.failingDiscards);
      OutcomeOf(src.z, gateway, stream, raw, w);
      var batch := src.ReadBatch(maxReadings, w.failingDiscards);
      ghost var read := src.disk;
      FailureLeaves(src.z, rows, raw, read);
      if batch.None? {
        return Failed;
      }
      var chunks := batch.value;
      if |chunks| == 0 {
        NothingLeft(src.z, rows, raw, read);
        return NothingPending;
      }
      var m := BuildMessage(gateway, src.disk.streamId, chunks);
      var acknowledged := adapter.Send(m, w.connected, w.arriving(m.streamId, m.toSeq), w.cancelled);
      if !acknowledged {
        return Failed;
      }
      var ok := src.Ack(m.toSeq, w.deleteFails);
      if !ok {
        return Failed;
      }
      SentLeaves(src.z, rows, raw, read, m.toSeq);
      return Sent;
    }

    /** Run for as many dispatches as there are weathers: one message at a time, straight on
        after a success, backing off on consecutive errors. In good weather, with nothing
        stored that JSON cannot carry, no dispatch fails and each one shortens the queue. */
    method Run(weathers: seq<Weather>) returns (results: seq<Result>, waits: seq<int>)
      requires Valid()
      modifies src, adapter
      ensures Valid() && |results| == |weathers| && waits == AllWaits(results, pollInterval)
      ensures forall row <- src.disk.rows :: row in old(src.disk).rows
      ensures (forall w <- weathers :: GoodWeather(w)) && AllFinite(src.z, old(src.disk).rows) ==>
                && (forall r <- results :: !r.Failed?)
                && |src.disk.rows| <= if |weathers| <= |old(src.disk).rows| then |old(src.disk).rows| - |weathers| else 0
    {
      hide GoodWeather;
      hide Succeeds;
      hide Idles;
      hide Leaves;
      hide Scan;
      results, waits := [], [];
      var failures := 0;
      ghost var good := (forall w <- weathers :: GoodWeather(w)) && AllFinite(src.z, src.disk.rows);
      ghost var size := |src.disk.rows|;
      hide AllFinite;
      ghost var first := src.disk.rows;
      for i := 0 to |weathers|
        invariant Valid() && |results| == i
        invariant failures == TrailingFailures(results) && waits == AllWaits(results, pollInterval)
        invariant KeepsFrom(first, src.disk.rows)
        invariant good ==> Draining(src.z, src.disk.rows, results, size)
      {
        hide Draining;
        hide KeepsFrom;
        ghost var rows := src.disk.rows;
        ghost var stream := src.disk.streamId;
        var r := DispatchOnce(weathers[i]);
        StillFrom(src.z, first, rows, Scan(rows, maxReadings), r, src.disk.rows);
        if good {
          DrainsOn(src.z, stream, rows, maxReadings, weathers[i], r, src.disk.rows, results, size);
        }
        ghost var before := results;
        results := results + [r];
        assert results[..i] == before;
        var wait := 0;
        match r {
          case Failed =>
            failures := failures + 1;
            wait := Backoff(failures);
          case Sent =>
            failures := 0;
          case NothingPending =>
            failures := 0;
            wait := pollInterval;
        }
        waits := waits + [wait];
      }
    }
  }

  ghost predicate KeepsFrom(rows: seq<Row>, rows': seq<Row>) {
    forall row <- rows' :: row in rows
  }

  lemma StillFrom(z: Flate, first: seq<Row>, rows: seq<Row>, raw: seq<Row>, r: Result, rows': seq<Row>)
    requires KeepsFrom(first, rows) && Leaves(z, rows, raw, r, rows')
    ensures KeepsFrom(first, rows')
  {
    hide Corrupt;
    hide LastReadable;
  }

  /** In good weather: nothing has failed, and the queue is shorter by at least one row for each
      dispatch. */
  ghost predicate Draining(z: Flate, rows: seq<Row>, results: seq<Result>, size: nat) {
    && AllFinite(z, rows) && (forall r <- results :: !r.Failed?)
    && |rows| <= if |results| <= size then size - |results| else 0
  }

  lemma DrainsOn(z: Flate, stream: string, rows: seq<Row>, max: int, w: Weather, r: Result, rows': seq<Row>,
                 results: seq<Result>, size: nat)
    requires Draining(z, rows, results, size) && GoodWeather(w) && Leaves(z, rows, Scan(rows, max), r, rows')
    requires r.NothingPending? <==> Idles(z, Scan(rows, max), w)
    requires r.Sent? <==> Succeeds(z, stream, Scan(rows, max), w)
    ensures Draining(z, rows', results + [r], size)
  {
    hide Corrupt;
    hide LastReadable;
    hide Succeeds;
    hide Idles;
    hide GoodWeather;
    hide Scan;
    GoodWeatherWorks(z, stream, rows, max, w);
    StillFinite(z, rows, rows');
    hide AllFinite;
    assert !r.Failed?;
    assert rows' == [] || rows'[0] in rows';
    assert forall x :: x in results + [r] <==> x in results || x == r;
  }

  // ---------------------------------------------------------------------------
  // When a dispatch succeeds

  /** The seq of the last row that decodes. */
  ghost function LastReadable(z: Flate, raw: seq<Row>): int {
    if raw == [] then 0
    else if Corrupt(z, raw[|raw| - 1]) then LastReadable(z, raw[..|raw| - 1])
    else raw[|raw| - 1].seqNo
  }

  ghost predicate RowFinite(z: Flate, row: Row) {
    DecodeBlob(z, row.blob).Some? ==> FiniteReadings(DecodeBlob(z, row.blob).value)
  }

  ghost predicate AllFinite(z: Flate, rows: seq<Row>) {
    forall row <- rows :: RowFinite(z, row)
  }

  ghost predicate DiscardsWork(z: Flate, raw: seq<Row>, w: Weather) {
    forall row <- raw :: Corrupt(z, row) ==> row.seqNo !in w.failingDiscards
  }

  /** The first ack let through carries no error. */
  ghost predicate AnsweredWell(acks: seq<Ack>, stream: string, q: int) {
    exists i :: 0 <= i < |acks| && ForWait(acks[i], stream, q) && acks[i].error == ""
                && forall j :: 0 <= j < i ==> !ForWait(acks[j], stream, q)
  }

  ghost predicate Idles(z: Flate, raw: seq<Row>, w: Weather) {
    DiscardsWork(z, raw, w) && forall row <- raw :: Corrupt(z, row)
  }

  ghost predicate Succeeds(z: Flate, stream: string, raw: seq<Row>, w: Weather) {
    && DiscardsWork(z, raw, w) && (exists row <- raw :: !Corrupt(z, row)) && AllFinite(z, raw)
    && w.connected && !w.cancelled && !w.deleteFails
    && AnsweredWell(w.arriving(stream, LastReadable(z, raw)), stream, LastReadable(z, raw))
  }

  /** No write fails, the broker is there, and every message is answered without error. */
  ghost predicate GoodWeather(w: Weather) {
    && w.failingDiscards == {} && w.connected && !w.cancelled && !w.deleteFails
    && forall stream, q :: AnsweredWell(w.arriving(stream, q), stream, q)
  }

  lemma GoodWeatherWorks(z: Flate, stream: string, rows: seq<Row>, max: int, w: Weather)
    requires GoodWeather(w) && AllFinite(z, rows)
    ensures var raw := Scan(rows, max); Idles(z, raw, w) || Succeeds(z, stream, raw, w)
    ensures rows == [] ==> Idles(z, Scan(rows, max), w)
  {
    hide RowFinite;
    hide DecodeBlob;
    hide ScanLength;
    hide AnsweredWell;
  }

  lemma StillFinite(z: Flate, rows: seq<Row>, rows': seq<Row>)
    requires AllFinite(z, rows) && forall row <- rows' :: row in rows
    ensures AllFinite(z, rows')
  {
    hide RowFinite;
  }

  /** The same in terms of the chunks read and the message built from them. */
  lemma OutcomeOf(z: Flate, gateway: string, stream: string, raw: seq<Row>, w: Weather)
    ensures var chunks := Decoded(z, raw);
            var read := DiscardsWork(z, raw, w);
            && (read <==> !exists row <- raw :: Corrupt(z, row) && row.seqNo in w.failingDiscards)
            && (Idles(z, raw, w) <==> read && chunks == [])
            && (chunks == [] ==> !Succeeds(z, stream, raw, w))
            && (chunks != [] ==>
                  var m := MessageOf(gateway, stream, chunks);
                  var answer := Answer(m, w.arriving(m.streamId, m.toSeq));
                  && m.streamId == stream && m.toSeq == LastReadable(z, raw)
                  && (Succeeds(z, stream, raw, w) <==>
                        read && w.connected && HasJson(m) && !w.cancelled && answer.Some? && answer.value.error == "" && !w.deleteFails))
  {
    hide DecodeBlob;
    hide RowFinite;
    hide HasJson;
    var chunks := Decoded(z, raw);
    DecodedMeans(z, raw);
    DecodedFiniteIff(z, raw);
    hide Decoded;
    if chunks != [] {
      var m := MessageOf(gateway, stream, chunks);
      JsonIff(gateway, stream, chunks);
      AnsweredIff(m, w.arriving(m.streamId, m.toSeq));
      hide AnsweredWell;
      hide ToWireChunks;
    }
  }

  lemma AnsweredIff(m: Message, acks: seq<Ack>)
    ensures AnsweredWell(acks, m.streamId, m.toSeq) <==> Answer(m, acks).Some? && Answer(m, acks).value.error == ""
  {
    AnswerIsFirst(m, acks);
    hide Answer;
    if Answer(m, acks).Some? {
      var i :| 0 <= i < |acks| && ForWait(acks[i], m.streamId, m.toSeq) && acks[i] == Answer(m, acks).value
               && forall j :: 0 <= j < i ==> !ForWait(acks[j], m.streamId, m.toSeq);
      if AnsweredWell(acks, m.streamId, m.toSeq) {
        var k :| 0 <= k < |acks| && ForWait(acks[k], m.streamId, m.toSeq) && acks[k].error == ""
                 && forall j :: 0 <= j < k ==> !ForWait(acks[j], m.streamId, m.toSeq);
        assert i == k;
      }
    }
  }

  /** What a batch decodes to: nothing if all is corrupt, else chunks up to the last readable
      row, finite if the rows are. */
  lemma {:induction false} DecodedMeans(z: Flate, raw: seq<Row>)
    ensures Decoded(z, raw) == [] <==> forall row <- raw :: Corrupt(z, row)
    ensures var chunks := Decoded(z, raw); chunks != [] ==> chunks[|chunks| - 1].seqNo == LastReadable(z, raw)
  {
    hide DecodeBlob;
    if raw != [] {
      DecodedMeans(z, raw[..|raw| - 1]);
      assert raw[|raw| - 1] in raw;
    }
  }

  lemma {:induction false} DecodedFiniteIff(z: Flate, raw: seq<Row>)
    ensures (forall ch <- Decoded(z, raw) :: FiniteReadings(ch.readings)) <==> AllFinite(z, raw)
  {
    hide DecodeBlob;
    hide FiniteReadings;
    if raw != [] {
      var n := |raw| - 1;
      var init, last := raw[..n], raw[n];
      DecodedFiniteIff(z, init);
      assert forall row :: row in raw <==> row in init || row == last;
      assert AllFinite(z, raw) <==> AllFinite(z, init) && RowFinite(z, last);
      hide AllFinite;
      var rs := DecodeBlob(z, last.blob);
      if rs.Some? {
        var ch := Chunk(last.seqNo, rs.value);
        assert forall x :: x in Decoded(z, init) + [ch] <==> x in Decoded(z, init) || x == ch;
      }
    }
  }

  // ---------------------------------------------------------------------------
  // What a dispatch leaves

  /** Which rows are left: of a batch that held nothing readable, none; after a message, those
      past its last seq that are not corrupt ones of the batch; after an error, all but
      corrupt ones of the batch. An error-free dispatch shortens the queue. */
  ghost predicate Leaves(z: Flate, rows: seq<Row>, raw: seq<Row>, r: Result, rows': seq<Row>) {
    && (forall row <- rows' :: row in rows)
    && (r.NothingPending? ==> forall row <- rows :: row in rows' <==> row !in raw)
    && (r.Sent? ==> forall row <- rows ::
          row in rows' <==> row.seqNo > LastReadable(z, raw) && !(row in raw && Corrupt(z, row)))
    && (r.Failed? ==> forall row <- rows :: row in rows' || (row in raw && Corrupt(z, row)))
    && (!r.Failed? && rows != [] ==> |rows'| < |rows|)
  }

  lemma FailureLeaves(z: Flate, rows: seq<Row>, raw: seq<Row>, d: Disk)
    requires forall row <- d.rows :: row in rows
    requires forall row <- rows :: row in d.rows || (row in raw && Corrupt(z, row))
    ensures Leaves(z, rows, raw, Failed, d.rows)
  {
    hide Corrupt;
  }

  /** After a batch that held nothing readable. */
  lemma NothingLeft(z: Flate, rows: seq<Row>, raw: seq<Row>, d: Disk)
    requires Consistent(d) && Ascending(rows) && (forall row <- raw :: row in rows)
    requires Leaves(z, rows, raw, Failed, d.rows)
    requires CorruptGone(z, raw, d) && Decoded(z, raw) == []
    requires rows != [] ==> raw != []
    ensures Leaves(z, rows, raw, NothingPending, d.rows)
  {
    hide Corrupt;
    hide SumRows;
    hide Decoded;
    DecodedMeans(z, raw);
    forall row | row in raw ensures row !in d.rows {
      assert row.seqNo !in RowSeqs(d.rows);
    }
    if rows != [] {
      assert raw[0] in raw;
      FewerRows(rows, d.rows, raw[0]);
    }
  }

  /** After a message up to q was acknowledged and deleted. */
  lemma SentLeaves(z: Flate, rows: seq<Row>, raw: seq<Row>, d: Disk, q: int)
    requires Consistent(d) && Ascending(rows) && (forall row <- raw :: row in rows)
    requires Leaves(z, rows, raw, Failed, d.rows)
    requires CorruptGone(z, raw, d) && q == LastReadable(z, raw) && rows != [] && rows[0].seqNo <= q
    ensures Leaves(z, rows, raw, Sent, Above(d.rows, q))
  {
    hide Corrupt;
    hide LastReadable;
    hide SumRows;
    hide Above;
    hide UpTo;
    KeptAbove(d, q);
    DeleteConsistent(d, q, false);
    forall row | row in raw && Corrupt(z, row) ensures row !in d.rows {
      assert row.seqNo !in RowSeqs(d.rows);
    }
    AboveAscends(d, q);
    FewerRows(rows, Above(d.rows, q), rows[0]);
  }

  lemma AboveAscends(d: Disk, q: int)
    requires Consistent(d)
    ensures Ascending(Above(d.rows, q))
  {
    DeleteConsistent(d, q, false);
    hide Above;
    hide UpTo;
    hide SumRows;
  }

  lemma FewerRows(rows: seq<Row>, rows': seq<Row>, gone: Row)
    requires Ascending(rows) && Ascending(rows') && (forall row <- rows' :: row in rows)
    requires gone in rows && gone !in rows'
    ensures |rows'| < |rows|
  {
    AscendingSize(rows);
    AscendingSize(rows');
    assert gone.seqNo in RowSeqs(rows) && gone.seqNo !in RowSeqs(rows');
    SubsetSize(RowSeqs(rows'), RowSeqs(rows));
  }

  /** What one ReadBatch means for the forwarder. */
  lemma BatchFacts(z: Flate, d: Disk, m: Memory, max: int, failing: set<nat>)
    requires Consistent(d)
    ensures var raw := Scan(d.rows, max);
            var o := ReadRows(z, d, m, raw, failing);
            && o.disk.streamId == d.streamId
            && (forall r <- o.disk.rows :: r in d.rows)
            && Ascending(d.rows) && (forall r <- raw :: r in d.rows) && (d.rows != [] ==> raw != [])
            && (forall r <- d.rows :: r in o.disk.rows || (r in raw && Corrupt(z, r)))
            && (o.chunks.None? <==> exists r <- raw :: Corrupt(z, r) && r.seqNo in failing)
            && (o.chunks.Some? ==>
                  && o.chunks.value == Decoded(z, raw) && CorruptGone(z, raw, o.disk)
                  && (o.chunks.value == [] && d.rows != [] ==> d.rows[0] !in o.disk.rows)
                  && (o.chunks.value != [] ==> d.rows != [] && d.rows[0].seqNo <= o.chunks.value[|o.chunks.value| - 1].seqNo))
  {
    hide ReadRows;
    hide DecodeBlob;
    hide Decoded;
    var raw := Scan(d.rows, max);
    ReadRowsFacts(z, d, m, raw, failing);
    assert forall r <- raw :: r in d.rows;
    var gone := ReadRows(z, d, m, raw, failing).disk;
    if d.rows == [] {
      assert raw == [];
    } else {
      ScanNonEmpty(d.rows, max);
    }
    hide Scan;
    hide Tallied;
    BatchEnd(z, d, raw, gone);
  }

  /** A batch that decodes to nothing has disposed of the oldest row; any other reaches it. */
  lemma BatchEnd(z: Flate, d: Disk, raw: seq<Row>, d': Disk)
    requires Consistent(d) && (forall r <- raw :: r in d.rows)
    requires if d.rows == [] then raw == [] else raw != [] && raw[0] == d.rows[0]
    ensures var chunks := Decoded(z, raw);
            && (chunks == [] && d.rows != [] && CorruptGone(z, raw, d') ==> d.rows[0] !in d'.rows)
            && (chunks != [] ==> d.rows != [] && d.rows[0].seqNo <= chunks[|chunks| - 1].seqNo)
  {
    hide DecodeBlob;
    hide SumRows;
    var chunks := Decoded(z, raw);
    DecodedSeqs(z, raw);
    if raw != [] && chunks == [] {
      DecodesToNothing(z, raw);
      assert raw[0] in raw;
    } else if raw != [] {
      var last := chunks[|chunks| - 1];
      assert last in chunks;
      var i :| 0 <= i < |raw| && raw[i].seqNo == last.seqNo;
      assert raw[i] in d.rows;
    }
  }

  lemma {:induction false} DecodedSeqs(z: Flate, raw: seq<Row>)
    ensures forall ch <- Decoded(z, raw) :: exists i :: 0 <= i < |raw| && raw[i].seqNo == ch.seqNo
  {
    hide DecodeBlob;
    if raw != [] {
      var n := |raw| - 1;
      DecodedSeqs(z, raw[..n]);
      forall ch | ch in Decoded(z, raw) ensures exists i :: 0 <= i < |raw| && raw[i].seqNo == ch.seqNo {
        if ch in Decoded(z, raw[..n]) {
          var i :| 0 <= i < n && raw[..n][i].seqNo == ch.seqNo;
          assert raw[i].seqNo == ch.seqNo;
        } else {
          assert raw[n].seqNo == ch.seqNo;
        }
      }
    }
  }

  lemma {:induction false} DecodesToNothing(z: Flate, raw: seq<Row>)
    requires Decoded(z, raw) == []
    ensures forall r <- raw :: Corrupt(z, r)
  {
    hide DecodeBlob;
    if raw != [] {
      DecodesToNothing(z, raw[..|raw| - 1]);
    }
  }

  lemma KeptAbove(d: Disk, through: int)
    requires Consistent(d)
    ensures forall r <- d.rows :: r in Above(d.rows, through) <==> r.seqNo > through
  {
    CutSplits(d.rows, through);
  }

  // ---------------------------------------------------------------------------
  // Waiting

  /** One second after the first failure, doubling up to a minute. */
  lemma BackoffTable(failures: int)
    ensures Backoff(1) == 1 && Backoff(2) == 2 && Backoff(3) == 4 && Backoff(4) == 8 && Backoff(5) == 16
    ensures Backoff(6) == 32
    ensures failures <= 1 ==> Backoff(failures) == 1
    ensures failures > 6 ==> Backoff(failures) == 60
  {
  }

  /** What the backoff counts: the failures since the last dispatch that did not fail. */
  lemma {:induction false} TrailingMeans(results: seq<Result>)
    ensures var t := TrailingFailures(results);
            && t <= |results|
            && (forall i :: |results| - t <= i < |results| ==> results[i].Failed?)
            && (t < |results| ==> !results[|results| - 1 - t].Failed?)
  {
    if results != [] && results[|results| - 1].Failed? {
      TrailingMeans(results[..|results| - 1]);
    }
  }

  /** The i-th wait: none after a send, the poll interval when idle, and after an error the
      backoff of the errors in a row. */
  lemma {:induction false} WaitsMean(results: seq<Result>, pollInterval: int, i: nat)
    requires i < |results|
    ensures var waits := AllWaits(results, pollInterval);
            && |waits| == |results|
            && (results[i].Sent? ==> waits[i] == 0)
            && (results[i].NothingPending? ==> waits[i] == pollInterval)
            && (results[i].Failed? ==> waits[i] == Backoff(TrailingFailures(results[..i + 1])))
  {
    var n := |results| - 1;
    WaitsLength(results[..n], pollInterval);
    if i < n {
      WaitsMean(results[..n], pollInterval, i);
      assert results[..n][..i + 1] == results[..i + 1];
    } else {
      assert results[..i + 1] == results;
    }
  }

  lemma {:induction false} WaitsLength(results: seq<Result>, pollInterval: int)
    ensures |AllWaits(results, pollInterval)| == |results|
  {
    if results != [] {
      WaitsLength(results[..|results| - 1], pollInterval);
    }
  }
}
