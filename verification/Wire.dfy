/** The message and ack exchanged with the server. */
module Wire {
  import opened Ints
  import opened ChunkCodec
  import opened QueueModel

  /** One value on the wire; `ts` stands for the RFC 3339 text at millisecond precision. */
  datatype WireReading = WireReading(
    deviceId: Int64,
    datapointId: Int64,
    ts: Int64,
    value: Option<UInt64>,
    quality: seq<Byte>)

  datatype WireChunk = WireChunk(seqNo: int, readings: seq<WireReading>)

  datatype Message = Message(
    gatewayId: string,
    streamId: string,
    fromSeq: int,
    toSeq: int,
    chunks: seq<WireChunk>)

  datatype Ack = Ack(streamId: string, toSeq: int, error: string)

  function ToWire(r: Reading): WireReading {
    WireReading(r.deviceId, r.datapointId, UnixMilli(r.at), r.value, r.quality)
  }

  function ToWireAll(rs: seq<Reading>): (out: seq<WireReading>)
    ensures |out| == |rs|
  {
    seq(|rs|, i requires 0 <= i < |rs| => ToWire(rs[i]))
  }

  function ToWireChunks(chunks: seq<Chunk>): (out: seq<WireChunk>)
    ensures |out| == |chunks|
  {
    seq(|chunks|, i requires 0 <= i < |chunks| => WireChunk(chunks[i].seqNo, ToWireAll(chunks[i].readings)))
  }

  function MessageOf(gatewayId: string, streamId: string, chunks: seq<Chunk>): Message
    requires chunks != []
  {
    Message(gatewayId, streamId, chunks[0].seqNo, chunks[|chunks| - 1].seqNo, ToWireChunks(chunks))
  }

  /** What the wire promises of one reading: ids, value and quality as they were, and the
      millisecond of the time, as long as that fits int64. */
  ghost predicate Carries(x: WireReading, r: Reading) {
    && x.deviceId == r.deviceId && x.datapointId == r.datapointId
    && x.value == r.value && x.quality == r.quality
    && (-TWO63 <= r.at / 1_000_000 < TWO63 ==> x.ts * 1_000_000 <= r.at < (x.ts + 1) * 1_000_000)
  }

  ghost predicate CarriesAll(xs: seq<WireReading>, rs: seq<Reading>) {
    |xs| == |rs| && forall j :: 0 <= j < |rs| ==> Carries(xs[j], rs[j])
  }

  lemma ToWireCarries(rs: seq<Reading>)
    ensures CarriesAll(ToWireAll(rs), rs)
  {
    forall j | 0 <= j < |rs| ensures Carries(ToWireAll(rs)[j], rs[j]) {
      if -TWO63 <= rs[j].at / 1_000_000 < TWO63 {
        UnixMilliFloors(rs[j].at);
      }
    }
  }

  /** buildMessage: chunk for chunk and reading for reading what the batch holds. */
  method BuildMessage(gatewayId: string, streamId: string, chunks: seq<Chunk>) returns (msg: Message)
    requires chunks != []
    ensures msg == MessageOf(gatewayId, streamId, chunks)
    ensures msg.gatewayId == gatewayId && msg.streamId == streamId
    ensures msg.fromSeq == chunks[0].seqNo && msg.toSeq == chunks[|chunks| - 1].seqNo
    ensures |msg.chunks| == |chunks|
    ensures forall i :: 0 <= i < |chunks| ==>
              msg.chunks[i].seqNo == chunks[i].seqNo && CarriesAll(msg.chunks[i].readings, chunks[i].readings)
  {
    hide CarriesAll;
    forall i | 0 <= i < |chunks| ensures CarriesAll(ToWireAll(chunks[i].readings), chunks[i].readings) {
      ToWireCarries(chunks[i].readings);
    }
    var out: seq<WireChunk> := [];
    for i := 0 to |chunks|
      invariant out == ToWireChunks(chunks)[..i]
    {
      var c := chunks[i];
      var readings: seq<WireReading> := [];
      for j := 0 to |c.readings|
        invariant readings == ToWireAll(c.readings)[..j]
      {
        var r := c.readings[j];
        readings := readings + [WireReading(r.deviceId, r.datapointId, UnixMilli(r.at), r.value, r.quality)];
      }
      assert readings == ToWireAll(c.readings);
      out := out + [WireChunk(c.seqNo, readings)];
    }
    msg := Message(gatewayId, streamId, chunks[0].seqNo, chunks[|chunks| - 1].seqNo, out);
  }

  /** Going through storage first changes nothing on the wire: both keep milliseconds. */
  lemma WireOfStored(rs: seq<Reading>)
    ensures ToWireAll(AllAtMillis(rs)) == ToWireAll(rs)
  {
    forall i | 0 <= i < |rs| ensures ToWire(AtMillis(rs[i])) == ToWire(rs[i]) {
      MillisStable(UnixMilli(rs[i].at));
    }
  }

  lemma MillisStable(ms: Int64)
    ensures UnixMilli(ms * NANOS_PER_MILLI) == ms
  {
  }

  ghost function Seqs(chunks: seq<WireChunk>): set<int> {
    set c <- chunks :: c.seqNo
  }

  ghost predicate AscendingChunks(chunks: seq<WireChunk>) {
    forall i, j :: 0 <= i < j < |chunks| ==> chunks[i].seqNo < chunks[j].seqNo
  }

  function CountReadings(chunks: seq<WireChunk>): nat {
    if chunks == [] then 0 else |chunks[0].readings| + CountReadings(chunks[1..])
  }

  // ---------------------------------------------------------------------------
  // What JSON can carry

  /** A float64 that is neither infinite nor NaN. */
  predicate Finite(bits: UInt64) {
    bits / 0x10_0000_0000_0000 % 2048 != 2047
  }

  /** Sign aside, the finite ones are those below the pattern of infinity. */
  lemma FiniteBelowInfinity(bits: UInt64)
    ensures Finite(bits) <==> bits % 0x8000_0000_0000_0000 < 0x7ff0_0000_0000_0000
  {
  }

  /** Whether the message has a JSON form. */
  predicate HasJson(m: Message) {
    forall ch <- m.chunks :: forall x <- ch.readings :: x.value.Some? ==> Finite(x.value.value)
  }

  ghost predicate FiniteReadings(rs: seq<Reading>) {
    forall r <- rs :: r.value.Some? ==> Finite(r.value.value)
  }

  /** A message has a JSON form if and only if all readings it was built from are finite. */
  lemma JsonIff(gatewayId: string, streamId: string, chunks: seq<Chunk>)
    requires chunks != []
    ensures HasJson(MessageOf(gatewayId, streamId, chunks)) <==> forall ch <- chunks :: FiniteReadings(ch.readings)
  {
    hide Finite;
    var m := MessageOf(gatewayId, streamId, chunks);
    assert forall i :: 0 <= i < |chunks| ==>
             m.chunks[i].readings == ToWireAll(chunks[i].readings) && m.chunks[i] in m.chunks && chunks[i] in chunks;
    forall ch | ch in chunks ensures FiniteReadings(ch.readings) <==> FiniteOnWire(ToWireAll(ch.readings)) {
      WireFinite(ch.readings);
    }
    if forall ch <- chunks :: FiniteReadings(ch.readings) {
      forall ch | ch in m.chunks ensures FiniteOnWire(ch.readings) {
        var i :| 0 <= i < |m.chunks| && m.chunks[i] == ch;
      }
    }
    if HasJson(m) {
      forall ch | ch in chunks ensures FiniteReadings(ch.readings) {
        var i :| 0 <= i < |chunks| && chunks[i] == ch;
        assert FiniteOnWire(m.chunks[i].readings);
      }
    }
  }

  ghost predicate FiniteOnWire(xs: seq<WireReading>) {
    forall x <- xs :: x.value.Some? ==> Finite(x.value.value)
  }

  lemma WireFinite(rs: seq<Reading>)
    ensures FiniteReadings(rs) <==> FiniteOnWire(ToWireAll(rs))
  {
    hide Finite;
    var xs := ToWireAll(rs);
    assert forall i :: 0 <= i < |rs| ==> xs[i].value == rs[i].value && xs[i] in xs && rs[i] in rs;
    if FiniteReadings(rs) {
      forall x | x in xs ensures x.value.Some? ==> Finite(x.value.value) {
        var i :| 0 <= i < |xs| && xs[i] == x;
      }
    }
    if FiniteOnWire(xs) {
      forall r | r in rs ensures r.value.Some? ==> Finite(r.value.value) {
        var i :| 0 <= i < |rs| && rs[i] == r;
      }
    }
  }
}
