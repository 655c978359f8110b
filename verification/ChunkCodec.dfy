/** The chunk blob format: how one flush interval's readings are stored in a queue row. */
module ChunkCodec {
  import opened Ints

  /** One acquired value. `at` is in nanoseconds since the Unix epoch, `value` a float64
      bit pattern, `quality` the bytes of a Go string. */
  datatype Reading = Reading(
    deviceId: Int64,
    datapointId: Int64,
    value: Option<UInt64>,
    quality: seq<Byte>,
    at: int)

  const NANOS_PER_MILLI := 1_000_000

  function UnixMilli(at: int): Int64 {
    Wrap64(at / NANOS_PER_MILLI)
  }

  /** What survives storage: the reading at millisecond precision. */
  function AtMillis(r: Reading): Reading {
    r.(at := UnixMilli(r.at) * NANOS_PER_MILLI)
  }

  function AllAtMillis(rs: seq<Reading>): (out: seq<Reading>)
    ensures |out| == |rs|
  {
    seq(|rs|, i requires 0 <= i < |rs| => AtMillis(rs[i]))
  }

  /** What storage promises of one reading: ids, value and quality as they were, and the time cut
      to its millisecond, as long as that fits int64. */
  ghost predicate KeptReading(out: Reading, r: Reading) {
    && out.deviceId == r.deviceId && out.datapointId == r.datapointId
    && out.value == r.value && out.quality == r.quality
    && (-TWO63 <= r.at / 1_000_000 < TWO63 ==> out.at <= r.at < out.at + 1_000_000 && out.at % 1_000_000 == 0)
  }

  ghost predicate Kept(out: seq<Reading>, rs: seq<Reading>) {
    |out| == |rs| && forall i :: 0 <= i < |rs| ==> KeptReading(out[i], rs[i])
  }

  /** A millisecond is the whole one at or before the time, also before 1970. */
  lemma UnixMilliFloors(at: int)
    requires -TWO63 <= at / 1_000_000 < TWO63
    ensures UnixMilli(at) * 1_000_000 <= at < (UnixMilli(at) + 1) * 1_000_000
  {
  }

  lemma AtMillisKept(rs: seq<Reading>)
    ensures Kept(AllAtMillis(rs), rs)
  {
    forall i | 0 <= i < |rs| ensures KeptReading(AllAtMillis(rs)[i], rs[i]) {
      if -TWO63 <= rs[i].at / 1_000_000 < TWO63 {
        UnixMilliFloors(rs[i].at);
      }
    }
  }

  /** Lengths that fit Go's int, which every slice and string length does. */
  ghost predicate GoSized(rs: seq<Reading>) {
    |rs| < TWO63 && forall r <- rs :: |r.quality| < TWO63
  }

  predicate NonNegativeIds(rs: seq<Reading>) {
    forall r <- rs :: r.datapointId >= 0 && r.deviceId >= 0
  }

  const CHUNK_FORMAT_V1: Byte := 1
  const QUALITY_OTHER: Byte := 0x7f
  const HAS_VALUE_BIT: Byte := 0x80

  const GOOD: seq<Byte> := [71, 79, 79, 68]
  const TIMEOUT: seq<Byte> := [84, 73, 77, 69, 79, 85, 84]
  const CRC_ERROR: seq<Byte> := [67, 82, 67, 95, 69, 82, 82, 79, 82]
  const DEVICE_OFFLINE: seq<Byte> := [68, 69, 86, 73, 67, 69, 95, 79, 70, 70, 76, 73, 78, 69]
  const INVALID: seq<Byte> := [73, 78, 86, 65, 76, 73, 68]

  function QualityCode(q: seq<Byte>): Option<Byte> {
    if q == GOOD then Some(0)
    else if q == TIMEOUT then Some(1)
    else if q == CRC_ERROR then Some(2)
    else if q == DEVICE_OFFLINE then Some(3)
    else if q == INVALID then Some(4)
    else None
  }

  function QualityName(code: Byte): Option<seq<Byte>> {
    if code == 0 then Some(GOOD)
    else if code == 1 then Some(TIMEOUT)
    else if code == 2 then Some(CRC_ERROR)
    else if code == 3 then Some(DEVICE_OFFLINE)
    else if code == 4 then Some(INVALID)
    else None
  }

  // ---------------------------------------------------------------------------
  // Integers on the wire: encoding/binary's varints and little-endian words

  function PutUvarint(v: UInt64): (bs: seq<Byte>)
    ensures |bs| >= 1
  {
    if v < 128 then [v] else [v % 128 + 128] + PutUvarint(v / 128)
  }

  function ZigZag(x: Int64): UInt64 {
    var i: int := x;
    if i >= 0 then 2 * i else -2 * i - 1
  }

  function PutVarint(x: Int64): (bs: seq<Byte>)
    ensures |bs| >= 1
  {
    PutUvarint(ZigZag(x))
  }

  datatype Parsed<+T> = Fail | Ok(value: T, rest: seq<Byte>)

  /** The values the bytes from the i-th on may still contribute: 2 to the power 64 - 7i. */
  function VarintCap(i: nat): (cap: nat)
    requires i <= 9
    ensures cap >= (if i < 9 then 128 else 2)
    decreases 9 - i
  {
    if i == 9 then 2 else 128 * VarintCap(i + 1)
  }

  lemma VarintCap0()
    ensures VarintCap(0) == TWO64
  {
    assert VarintCap(5) == 128 * 128 * 128 * 128 * 2;
    assert VarintCap(0) == 128 * 128 * 128 * 128 * 128 * VarintCap(5);
  }

  /** ReadUvarint with i bytes already consumed: at most ten bytes, the tenth at most 1. */
  function ReadUvarintFrom(bs: seq<Byte>, i: nat): (p: Parsed<nat>)
    requires i <= 10
    ensures p.Ok? ==> i < 10 && p.value < VarintCap(i) && |p.rest| < |bs|
    decreases 10 - i
  {
    if i == 10 || bs == [] then Fail
    else if bs[0] < 128 then
      if i == 9 && bs[0] > 1 then Fail
      else Ok(bs[0], bs[1..])
    else
      var p := ReadUvarintFrom(bs[1..], i + 1);
      if p.Fail? then Fail else Ok(bs[0] - 128 + 128 * p.value, p.rest)
  }

  function ReadUvarint(bs: seq<Byte>): (p: Parsed<UInt64>)
    ensures p.Ok? ==> |p.rest| < |bs|
  {
    VarintCap0();
    var p := ReadUvarintFrom(bs, 0);
    if p.Fail? then Fail else Ok(p.value, p.rest)
  }

  function ReadVarint(bs: seq<Byte>): (p: Parsed<Int64>)
    ensures p.Ok? ==> |p.rest| < |bs|
  {
    var p := ReadUvarint(bs);
    if p.Fail? then Fail
    else Ok(if p.value % 2 == 0 then p.value / 2 else -(p.value / 2) - 1, p.rest)
  }

  /** `n` bytes, least significant first. */
  function PutLittleEndian(v: nat, n: nat): (bs: seq<Byte>)
    ensures |bs| == n
  {
    if n == 0 then [] else [v % 256] + PutLittleEndian(v / 256, n - 1)
  }

  function LittleEndian(bs: seq<Byte>): nat {
    if bs == [] then 0 else bs[0] + 256 * LittleEndian(bs[1..])
  }

  lemma Pow256Of8()
    ensures Pow256(8) == TWO64
  {
    assert Pow256(4) == TWO32;
    assert Pow256(8) == 256 * 256 * 256 * 256 * Pow256(4);
  }

  lemma {:induction false} LittleEndianBound(bs: seq<Byte>)
    ensures LittleEndian(bs) < Pow256(|bs|)
  {
    if bs != [] {
      LittleEndianBound(bs[1..]);
    }
  }

  function ReadWord(bs: seq<Byte>): (p: Parsed<UInt64>)
    ensures p.Ok? ==> |p.rest| < |bs|
  {
    if |bs| < 8 then Fail
    else
      LittleEndianBound(bs[..8]);
      Pow256Of8();
      Ok(LittleEndian(bs[..8]), bs[8..])
  }

  // ---------------------------------------------------------------------------
  // Records and record lists

  function QualityBytes(r: Reading): seq<Byte>
    requires |r.quality| < TWO63
  {
    var code := QualityCode(r.quality);
    var flag := if r.value.Some? then HAS_VALUE_BIT else 0;
    if code.Some? then [code.value + flag]
    else [QUALITY_OTHER + flag] + (PutUvarint(|r.quality|) + r.quality)
  }

  function ValueBytes(r: Reading): seq<Byte> {
    if r.value.Some? then PutLittleEndian(r.value.value, 8) else []
  }

  function PutKeys(dp: UInt64, dev: UInt64, delta: Int64): (bs: seq<Byte>)
    ensures |bs| >= 1
  {
    PutUvarint(dp) + (PutUvarint(dev) + PutVarint(delta))
  }

  function EncodeHeader(prev: Int64, r: Reading): (bs: seq<Byte>)
    requires r.datapointId >= 0 && r.deviceId >= 0
    ensures |bs| >= 1
  {
    PutKeys(r.datapointId, r.deviceId, Wrap64(UnixMilli(r.at) - prev))
  }

  function EncodeBody(r: Reading): seq<Byte>
    requires |r.quality| < TWO63
  {
    QualityBytes(r) + ValueBytes(r)
  }

  function EncodeRecord(prev: Int64, r: Reading): (bs: seq<Byte>)
    requires r.datapointId >= 0 && r.deviceId >= 0 && |r.quality| < TWO63
    ensures |bs| >= 1
  {
    EncodeHeader(prev, r) + EncodeBody(r)
  }

  function EncodeRecords(prev: Int64, rs: seq<Reading>): seq<Byte>
    requires NonNegativeIds(rs) && GoSized(rs)
    decreases |rs|
  {
    if rs == [] then [] else EncodeRecord(prev, rs[0]) + EncodeRecords(UnixMilli(rs[0].at), rs[1..])
  }

  function BaseMillis(rs: seq<Reading>): Int64 {
    if rs == [] then 0 else UnixMilli(rs[0].at)
  }

  /** The uncompressed record list. */
  function EncodeRaw(rs: seq<Reading>): seq<Byte>
    requires NonNegativeIds(rs) && GoSized(rs)
  {
    PutUvarint(|rs|) + (PutVarint(BaseMillis(rs)) + EncodeRecords(BaseMillis(rs), rs))
  }

  /** The quality code byte and, for an unlisted quality, the string after it. */
  function ReadQuality(bs: seq<Byte>): (p: Parsed<(Byte, seq<Byte>)>)
    ensures p.Ok? ==> |p.rest| < |bs|
  {
    if bs == [] then Fail
    else
      var code := bs[0];
      var base := code % 128;
      if base == QUALITY_OTHER then
        var n := ReadUvarint(bs[1..]);
        if n.Fail? || n.value > |n.rest| then Fail
        else Ok((code, n.rest[..n.value]), n.rest[n.value..])
      else if QualityName(base).Some? then Ok((code, QualityName(base).value), bs[1..])
      else Fail
  }

  function ReadValue(code: Byte, bs: seq<Byte>): (p: Parsed<Option<UInt64>>)
    ensures p.Ok? ==> |p.rest| <= |bs|
  {
    if code < HAS_VALUE_BIT then Ok(None, bs)
    else
      var w := ReadWord(bs);
      if w.Fail? then Fail else Ok(Some(w.value), w.rest)
  }

  /** int64(u) for a uint64 u. */
  function AsInt64(u: UInt64): Int64 {
    if u < TWO63 then u else u - TWO64
  }

  /** A record's ids and its timestamp in milliseconds. */
  datatype Header = Header(datapointId: Int64, deviceId: Int64, ts: Int64)

  /** datapoint_id, device_id and the timestamp delta. */
  function ReadKeys(bs: seq<Byte>): (p: Parsed<(UInt64, UInt64, Int64)>)
    ensures p.Ok? ==> |p.rest| < |bs|
  {
    var dp := ReadUvarint(bs);
    if dp.Fail? then Fail else
    var dev := ReadUvarint(dp.rest);
    if dev.Fail? then Fail else
    var delta := ReadVarint(dev.rest);
    if delta.Fail? then Fail else Ok((dp.value, dev.value, delta.value), delta.rest)
  }

  function ReadHeader(prev: Int64, bs: seq<Byte>): (p: Parsed<Header>)
    ensures p.Ok? ==> |p.rest| < |bs|
  {
    var k := ReadKeys(bs);
    if k.Fail? then Fail
    else Ok(Header(AsInt64(k.value.0), AsInt64(k.value.1), Wrap64(prev + k.value.2)), k.rest)
  }

  function ReadBody(bs: seq<Byte>): (p: Parsed<(seq<Byte>, Option<UInt64>)>)
    ensures p.Ok? ==> |p.rest| < |bs|
  {
    var q := ReadQuality(bs);
    if q.Fail? then Fail else
    var v := ReadValue(q.value.0, q.rest);
    if v.Fail? then Fail else Ok((q.value.1, v.value), v.rest)
  }

  /** One record and the running timestamp after it. */
  function ReadRecord(prev: Int64, bs: seq<Byte>): (p: Parsed<(Reading, Int64)>)
    ensures p.Ok? ==> |p.rest| < |bs|
  {
    var h := ReadHeader(prev, bs);
    if h.Fail? then Fail else
    var b := ReadBody(h.rest);
    if b.Fail? then Fail else
    Ok((Reading(h.value.deviceId, h.value.datapointId, b.value.1, b.value.0, h.value.ts * NANOS_PER_MILLI),
        h.value.ts), b.rest)
  }

  function DecodeRecords(n: nat, prev: Int64, bs: seq<Byte>): (out: Option<seq<Reading>>)
    ensures out.Some? ==> |out.value| == n
  {
    if n == 0 then Some([])
    else
      var p := ReadRecord(prev, bs);
      if p.Fail? then None
      else
        var more := DecodeRecords(n - 1, p.value.1, p.rest);
        if more.None? then None else Some([p.value.0] + more.value)
  }

  function DecodeRaw(raw: seq<Byte>): (out: Option<seq<Reading>>)
    ensures out.Some? ==> ReadUvarint(raw).Ok? && |out.value| == ReadUvarint(raw).value <= |raw|
  {
    var count := ReadUvarint(raw);
    if count.Fail? || count.value > |raw| then None
    else
      var base := ReadVarint(count.rest);
      if base.Fail? then None else DecodeRecords(count.value, base.value, base.rest)
  }

  /** A compressor and decompressor. DEFLATE enters the model only through Inverse. */
  datatype Flate = Flate(deflate: seq<Byte> -> seq<Byte>, inflate: seq<Byte> -> Option<seq<Byte>>) {
    ghost predicate Inverse() {
      forall raw: seq<Byte> :: inflate(deflate(raw)) == Some(raw)
    }
  }

  function EncodeBlob(z: Flate, rs: seq<Reading>): seq<Byte>
    requires NonNegativeIds(rs) && GoSized(rs)
  {
    [CHUNK_FORMAT_V1] + z.deflate(EncodeRaw(rs))
  }

  function DecodeBlob(z: Flate, blob: seq<Byte>): Option<seq<Reading>> {
    if blob == [] || blob[0] != CHUNK_FORMAT_V1 then None
    else
      var raw := z.inflate(blob[1..]);
      if raw.None? then None else DecodeRaw(raw.value)
  }

  // ---------------------------------------------------------------------------
  // Each reader inverts its writer and fails on every proper prefix of what it wrote

  lemma {:induction false} UvarintRoundTrip(v: UInt64, i: nat, tail: seq<Byte>)
    requires i <= 9 && v < VarintCap(i)
    ensures ReadUvarintFrom(PutUvarint(v) + tail, i) == Ok(v, tail)
    decreases v
  {
    hide ReadUvarintFrom;
    if v < 128 {
      LastByte(v, tail, i);
    } else {
      var low, rest := v % 128, PutUvarint(v / 128) + tail;
      assert PutUvarint(v) + tail == [low + 128] + rest;
      hide PutUvarint;
      UvarintRoundTrip(v / 128, i + 1, tail);
      MoreBytes(low + 128, rest, i);
    }
  }

  lemma LastByte(b: Byte, rest: seq<Byte>, i: nat)
    requires b < 128 && i <= 9 && b < VarintCap(i)
    ensures ReadUvarintFrom([b] + rest, i) == Ok(b, rest)
  {
    assert ([b] + rest)[1..] == rest;
  }

  /** A byte with the continuation bit: seven bits, and the rest after it. */
  lemma MoreBytes(b: Byte, rest: seq<Byte>, i: nat)
    requires b >= 128 && i <= 9
    ensures var p := ReadUvarintFrom(rest, i + 1);
            ReadUvarintFrom([b] + rest, i) == if p.Fail? then Fail else Ok(b - 128 + 128 * p.value, p.rest)
  {
    assert ([b] + rest)[1..] == rest;
  }

  lemma {:induction false} UvarintTruncated(v: UInt64, i: nat, p: seq<Byte>)
    requires i <= 10 && p < PutUvarint(v)
    ensures ReadUvarintFrom(p, i).Fail?
    decreases v
  {
    if i < 10 && p != [] {
      assert v >= 128;
      assert p[1..] < PutUvarint(v / 128) by {
        assert PutUvarint(v)[1..] == PutUvarint(v / 128);
      }
      UvarintTruncated(v / 128, i + 1, p[1..]);
    }
  }

  lemma ReadsUvarint(v: UInt64, tail: seq<Byte>)
    ensures ReadUvarint(PutUvarint(v) + tail) == Ok(v, tail)
  {
    VarintCap0();
    UvarintRoundTrip(v, 0, tail);
  }

  lemma ReadsVarint(x: Int64, tail: seq<Byte>)
    ensures ReadVarint(PutVarint(x) + tail) == Ok(x, tail)
  {
    ReadsUvarint(ZigZag(x), tail);
  }

  lemma {:induction false} LittleEndianRoundTrip(v: nat, n: nat)
    requires v < Pow256(n)
    ensures LittleEndian(PutLittleEndian(v, n)) == v
  {
    if n > 0 {
      LittleEndianRoundTrip(v / 256, n - 1);
      assert PutLittleEndian(v, n)[1..] == PutLittleEndian(v / 256, n - 1);
    }
  }

  lemma QualityCodeNamed(q: seq<Byte>)
    requires QualityCode(q).Some?
    ensures QualityCode(q).value < 5 && QualityName(QualityCode(q).value) == Some(q)
  {
  }

  lemma ReadsKnownQuality(code: Byte, base: Byte, q: seq<Byte>, tail: seq<Byte>)
    requires code == base || code == base + HAS_VALUE_BIT
    requires base < QUALITY_OTHER && QualityName(base) == Some(q)
    ensures ReadQuality([code] + tail) == Ok((code, q), tail)
  {
    assert code % 128 == base;
    assert ([code] + tail)[1..] == tail;
  }

  lemma ReadsOtherQuality(code: Byte, q: seq<Byte>, tail: seq<Byte>)
    requires code % 128 == QUALITY_OTHER && |q| < TWO63
    ensures ReadQuality([code] + (PutUvarint(|q|) + (q + tail))) == Ok((code, q), tail)
  {
    var text := q + tail;
    var rest := PutUvarint(|q|) + text;
    ReadsUvarint(|q|, text);
    assert ([code] + rest)[1..] == rest;
    assert text[..|q|] == q && text[|q|..] == tail;
  }

  lemma ReadsQuality(r: Reading, tail: seq<Byte>)
    requires |r.quality| < TWO63
    ensures ReadQuality(QualityBytes(r) + tail) == Ok((QualityBytes(r)[0], r.quality), tail)
    ensures QualityBytes(r)[0] >= HAS_VALUE_BIT <==> r.value.Some?
  {
    hide ReadQuality;
    var q := r.quality;
    var code := QualityCode(q);
    if code.Some? {
      QualityCodeNamed(q);
      ReadsKnownQuality(QualityBytes(r)[0], code.value, q, tail);
      assert QualityBytes(r) == [QualityBytes(r)[0]];
    } else {
      var flagged: Byte := if r.value.Some? then QUALITY_OTHER + HAS_VALUE_BIT else QUALITY_OTHER;
      ReadsOtherQuality(flagged, q, tail);
      assert QualityBytes(r) + tail == [flagged] + (PutUvarint(|q|) + (q + tail));
    }
  }

  lemma ReadsValue(r: Reading, code: Byte, tail: seq<Byte>)
    requires code >= HAS_VALUE_BIT <==> r.value.Some?
    ensures ReadValue(code, ValueBytes(r) + tail) == Ok(r.value, tail)
  {
    if r.value.Some? {
      var bs := ValueBytes(r) + tail;
      assert bs[..8] == ValueBytes(r) && bs[8..] == tail;
      Pow256Of8();
      LittleEndianRoundTrip(r.value.value, 8);
    } else {
      assert ValueBytes(r) + tail == tail;
    }
  }

  lemma ReadsKeys(dp: UInt64, dev: UInt64, delta: Int64, tail: seq<Byte>)
    ensures ReadKeys(PutKeys(dp, dev, delta) + tail) == Ok((dp, dev, delta), tail)
  {
    var t3 := PutVarint(delta) + tail;
    var t2 := PutUvarint(dev) + t3;
    assert PutKeys(dp, dev, delta) + tail == PutUvarint(dp) + t2;
    ReadsUvarint(dp, t2);
    ReadsUvarint(dev, t3);
    ReadsVarint(delta, tail);
  }

  lemma ReadsHeader(prev: Int64, r: Reading, tail: seq<Byte>)
    requires r.datapointId >= 0 && r.deviceId >= 0
    ensures ReadHeader(prev, EncodeHeader(prev, r) + tail) ==
            Ok(Header(r.datapointId, r.deviceId, UnixMilli(r.at)), tail)
  {
    hide ReadKeys;
    hide PutKeys;
    var ts := UnixMilli(r.at);
    ReadsKeys(r.datapointId, r.deviceId, Wrap64(ts - prev), tail);
    WrapDeltaCancels(prev, ts);
  }

  lemma ReadsBody(r: Reading, tail: seq<Byte>)
    requires |r.quality| < TWO63
    ensures ReadBody(EncodeBody(r) + tail) == Ok((r.quality, r.value), tail)
  {
    hide QualityBytes;
    hide ValueBytes;
    hide ReadQuality;
    hide ReadValue;
    var t := ValueBytes(r) + tail;
    assert EncodeBody(r) + tail == QualityBytes(r) + t;
    ReadsQuality(r, t);
    ReadsValue(r, QualityBytes(r)[0], tail);
  }

  lemma ReadsRecord(prev: Int64, r: Reading, tail: seq<Byte>)
    requires r.datapointId >= 0 && r.deviceId >= 0 && |r.quality| < TWO63
    ensures ReadRecord(prev, EncodeRecord(prev, r) + tail) == Ok((AtMillis(r), UnixMilli(r.at)), tail)
  {
    hide EncodeHeader;
    hide EncodeBody;
    hide ReadHeader;
    hide ReadBody;
    var t := EncodeBody(r) + tail;
    assert EncodeRecord(prev, r) + tail == EncodeHeader(prev, r) + t;
    ReadsHeader(prev, r, t);
    ReadsBody(r, tail);
  }

  /** A proper prefix of x + y stops inside x or is x with a proper prefix of y. */
  lemma PrefixOfConcat(p: seq<Byte>, x: seq<Byte>, y: seq<Byte>)
    requires p < x + y
    ensures p < x || (x <= p && p == x + p[|x|..] && p[|x|..] < y)
  {
    if |p| >= |x| {
      assert (x + y)[..|x|] == x;
      assert p[..|x|] == x;
      assert p[|x|..] == (x + y)[|x|..|p|];
    } else {
      assert p == (x + y)[..|p|] == x[..|p|];
    }
  }

  lemma QualityTruncated(r: Reading, p: seq<Byte>)
    requires |r.quality| < TWO63 && p < QualityBytes(r)
    ensures ReadQuality(p).Fail?
  {
    if p != [] {
      assert QualityCode(r.quality).None?;
      var head := [QualityBytes(r)[0]];
      PrefixOfConcat(p, head, PutUvarint(|r.quality|) + r.quality);
      PrefixOfConcat(p[1..], PutUvarint(|r.quality|), r.quality);
      if p[1..] < PutUvarint(|r.quality|) {
        UvarintTruncated(|r.quality|, 0, p[1..]);
      } else {
        ReadsUvarint(|r.quality|, p[1..][|PutUvarint(|r.quality|)|..]);
      }
    }
  }

  lemma KeysTruncated(dp: UInt64, dev: UInt64, delta: Int64, p: seq<Byte>)
    requires p < PutKeys(dp, dev, delta)
    ensures ReadKeys(p).Fail?
  {
    var b1, b2, b3 := PutUvarint(dp), PutUvarint(dev), PutVarint(delta);
    PrefixOfConcat(p, b1, b2 + b3);
    if p < b1 {
      UvarintTruncated(dp, 0, p);
    } else {
      var p1 := p[|b1|..];
      ReadsUvarint(dp, p1);
      PrefixOfConcat(p1, b2, b3);
      if p1 < b2 {
        UvarintTruncated(dev, 0, p1);
      } else {
        ReadsUvarint(dev, p1[|b2|..]);
        UvarintTruncated(ZigZag(delta), 0, p1[|b2|..]);
      }
    }
  }

  lemma BodyTruncated(r: Reading, p: seq<Byte>)
    requires |r.quality| < TWO63 && p < EncodeBody(r)
    ensures ReadBody(p).Fail?
  {
    var q := QualityBytes(r);
    PrefixOfConcat(p, q, ValueBytes(r));
    if p < q {
      QualityTruncated(r, p);
    } else {
      ReadsQuality(r, p[|q|..]);
    }
  }

  lemma RecordTruncated(prev: Int64, r: Reading, p: seq<Byte>)
    requires r.datapointId >= 0 && r.deviceId >= 0 && |r.quality| < TWO63
    requires p < EncodeRecord(prev, r)
    ensures ReadRecord(prev, p).Fail?
  {
    var h := EncodeHeader(prev, r);
    PrefixOfConcat(p, h, EncodeBody(r));
    if p < h {
      KeysTruncated(r.datapointId, r.deviceId, Wrap64(UnixMilli(r.at) - prev), p);
    } else {
      ReadsHeader(prev, r, p[|h|..]);
      BodyTruncated(r, p[|h|..]);
    }
  }

  // ---------------------------------------------------------------------------
  // Round trip and truncation of whole record lists

  lemma {:induction false} RecordsRoundTrip(prev: Int64, rs: seq<Reading>, tail: seq<Byte>)
    requires NonNegativeIds(rs) && GoSized(rs)
    ensures DecodeRecords(|rs|, prev, EncodeRecords(prev, rs) + tail) == Some(AllAtMillis(rs))
    ensures Kept(AllAtMillis(rs), rs)
    decreases |rs|
  {
    AtMillisKept(rs);
    hide Kept;
    hide ReadRecord;
    hide EncodeRecord;
    if rs == [] {
      assert AllAtMillis(rs) == [];
    } else {
      var first, next := EncodeRecord(prev, rs[0]), UnixMilli(rs[0].at);
      var more := EncodeRecords(next, rs[1..]);
      RecordsRoundTrip(next, rs[1..], tail);
      ReadsRecord(prev, rs[0], more + tail);
      assert (first + more) + tail == first + (more + tail);
      assert AllAtMillis(rs) == [AtMillis(rs[0])] + AllAtMillis(rs[1..]);
    }
  }

  lemma {:induction false} RecordsTruncated(prev: Int64, rs: seq<Reading>, p: seq<Byte>)
    requires NonNegativeIds(rs) && GoSized(rs)
    requires p < EncodeRecords(prev, rs)
    ensures DecodeRecords(|rs|, prev, p) == None
    decreases |rs|
  {
    hide EncodeRecord;
    hide ReadRecord;
    var first, next := EncodeRecord(prev, rs[0]), UnixMilli(rs[0].at);
    PrefixOfConcat(p, first, EncodeRecords(next, rs[1..]));
    if p < first {
      RecordTruncated(prev, rs[0], p);
    } else {
      ReadsRecord(prev, rs[0], p[|first|..]);
      RecordsTruncated(next, rs[1..], p[|first|..]);
    }
  }

  lemma {:induction false} RecordsOccupyBytes(prev: Int64, rs: seq<Reading>)
    requires NonNegativeIds(rs) && GoSized(rs)
    ensures |EncodeRecords(prev, rs)| >= |rs|
    decreases |rs|
  {
    if rs != [] {
      RecordsOccupyBytes(UnixMilli(rs[0].at), rs[1..]);
    }
  }

  lemma RawRoundTrip(rs: seq<Reading>, tail: seq<Byte>)
    requires NonNegativeIds(rs) && GoSized(rs)
    ensures DecodeRaw(EncodeRaw(rs) + tail) == Some(AllAtMillis(rs))
    ensures Kept(AllAtMillis(rs), rs)
  {
    hide Kept;
    hide DecodeRecords;
    hide EncodeRecords;
    hide PutUvarint;
    hide PutVarint;
    hide ReadUvarint;
    hide ReadVarint;
    hide AllAtMillis;
    hide BaseMillis;
    var base := BaseMillis(rs);
    var records := EncodeRecords(base, rs) + tail;
    assert EncodeRaw(rs) + tail == PutUvarint(|rs|) + (PutVarint(base) + records);
    ReadsUvarint(|rs|, PutVarint(base) + records);
    ReadsVarint(base, records);
    RecordsOccupyBytes(base, rs);
    RecordsRoundTrip(base, rs, tail);
  }

  lemma RawTruncated(rs: seq<Reading>, p: seq<Byte>)
    requires NonNegativeIds(rs) && GoSized(rs)
    requires p < EncodeRaw(rs)
    ensures DecodeRaw(p) == None
  {
    var base := BaseMillis(rs);
    var head := PutUvarint(|rs|);
    var rest := PutVarint(base) + EncodeRecords(base, rs);
    PrefixOfConcat(p, head, rest);
    if p < head {
      UvarintTruncated(|rs|, 0, p);
    } else {
      var p1 := p[|head|..];
      ReadsUvarint(|rs|, p1);
      PrefixOfConcat(p1, PutVarint(base), EncodeRecords(base, rs));
      if p1 < PutVarint(base) {
        UvarintTruncated(ZigZag(base), 0, p1);
      } else {
        var p2 := p1[|PutVarint(base)|..];
        ReadsVarint(base, p2);
        RecordsTruncated(base, rs, p2);
      }
    }
  }

  lemma BlobRoundTrip(z: Flate, rs: seq<Reading>)
    requires z.Inverse() && NonNegativeIds(rs) && GoSized(rs)
    ensures DecodeBlob(z, EncodeBlob(z, rs)) == Some(AllAtMillis(rs))
    ensures Kept(AllAtMillis(rs), rs)
  {
    hide Kept;
    var blob := EncodeBlob(z, rs);
    assert blob[1..] == z.deflate(EncodeRaw(rs));
    assert EncodeRaw(rs) + [] == EncodeRaw(rs);
    RawRoundTrip(rs, []);
  }

  // ---------------------------------------------------------------------------
  // The bytes themselves, which older chunks in queue.db must keep matching

  /** What seven-bit groups stand for, the lowest first. */
  function Base128(bs: seq<Byte>): nat {
    if bs == [] then 0 else bs[0] % 128 + 128 * Base128(bs[1..])
  }

  /** A uvarint is its number in base 128, with the high bit set on every byte but the last. */
  lemma {:induction false} UvarintIsBase128(v: UInt64)
    ensures Base128(PutUvarint(v)) == v
    ensures var bs := PutUvarint(v);
            bs[|bs| - 1] < 128 && forall i :: 0 <= i < |bs| - 1 ==> bs[i] >= 128
    decreases v
  {
    if v >= 128 {
      UvarintIsBase128(v / 128);
      assert PutUvarint(v)[1..] == PutUvarint(v / 128);
    } else {
      assert [v][1..] == [];
    }
  }

  /** Zigzag: 0, -1, 1, -2, 2 and so on are 0, 1, 2, 3, 4. */
  lemma ZigZagOrder(x: Int64)
    ensures ZigZag(x) % 2 == (if x < 0 then 1 else 0)
    ensures ZigZag(x) / 2 == if x < 0 then -1 - x else x
  {
  }

  /** Two readings: a good 4.0 of data point 300 on device 2 at 1000 ms, and one without a value,
      of an unlisted quality, one millisecond before. */
  function SampleReadings(): (rs: seq<Reading>)
    ensures NonNegativeIds(rs) && GoSized(rs)
  {
    [Reading(2, 300, Some(0x4010_0000_0000_0000), GOOD, 1_000_000_007), Reading(1, 4, None, [88], 999_000_000)]
  }

  /** Their bytes: the count, the base timestamp, and per record data point, device, delta,
      quality and value. */
  lemma FormatSample()
    ensures EncodeRaw(SampleReadings()) ==
            [2] + ([0xd0, 0x0f]
                   + ((([0xac, 0x02] + ([2] + [0])) + ([0x80] + [0, 0, 0, 0, 0, 0, 0x10, 0x40]))
                      + (([4] + ([1] + [1])) + [0x7f, 1, 88])))
  {
    var rs := SampleReadings();
    SampleCount();
    SampleHeaders();
    SampleBodies();
    hide PutKeys;
    hide EncodeBody;
    hide PutUvarint;
    TwoRecords(1000, rs[0], rs[1]);
    assert rs == [rs[0], rs[1]];
    hide EncodeRecords;
    assert BaseMillis(rs) == 1000;
  }

  lemma SampleCount()
    ensures PutUvarint(2) == [2] && PutVarint(1000) == [0xd0, 0x0f]
  {
    assert PutUvarint(2000) == [0xd0, 0x0f];
  }

  lemma TwoRecords(prev: Int64, r0: Reading, r1: Reading)
    requires NonNegativeIds([r0, r1]) && GoSized([r0, r1])
    ensures r0 in [r0, r1] && r1 in [r0, r1]
    ensures EncodeRecords(prev, [r0, r1]) == EncodeRecord(prev, r0) + EncodeRecord(UnixMilli(r0.at), r1)
  {
    hide EncodeRecord;
    assert [r0, r1][1..] == [r1] && [r1][1..] == [];
    var last := EncodeRecord(UnixMilli(r0.at), r1);
    assert EncodeRecords(UnixMilli(r0.at), [r1]) == last + [];
  }

  lemma SampleHeaders()
    ensures PutKeys(300, 2, 0) == [0xac, 0x02] + ([2] + [0])
    ensures PutKeys(4, 1, -1) == [4] + ([1] + [1])
  {
    assert PutUvarint(300) == [0xac, 0x02];
  }

  lemma SampleBodies()
    ensures EncodeBody(SampleReadings()[0]) == [0x80] + [0, 0, 0, 0, 0, 0, 0x10, 0x40]
    ensures EncodeBody(SampleReadings()[1]) == [0x7f, 1, 88]
  {
    SampleValue();
    hide PutLittleEndian;
    assert PutUvarint(1) == [1];
  }

  lemma SampleValue()
    ensures PutLittleEndian(0x4010_0000_0000_0000, 8) == [0, 0, 0, 0, 0, 0, 0x10, 0x40]
  {
    assert PutLittleEndian(0x4010, 2) == [0x10, 0x40];
    assert PutLittleEndian(0x4010_0000_00, 5) == [0, 0, 0] + [0x10, 0x40];
  }

  /** The first byte names the format, and the listed qualities their codes. */
  lemma FormatNumbers(z: Flate, rs: seq<Reading>)
    requires NonNegativeIds(rs) && GoSized(rs)
    ensures EncodeBlob(z, rs)[0] == 1
    ensures QualityCode([71, 79, 79, 68]) == Some(0)
    ensures QualityCode([84, 73, 77, 69, 79, 85, 84]) == Some(1)
    ensures QualityCode([67, 82, 67, 95, 69, 82, 82, 79, 82]) == Some(2)
    ensures QualityCode([68, 69, 86, 73, 67, 69, 95, 79, 70, 70, 76, 73, 78, 69]) == Some(3)
    ensures QualityCode([73, 78, 86, 65, 76, 73, 68]) == Some(4)
  {
  }

  /** Another format, data that does not inflate, and a code that names no quality are refused. */
  lemma OtherFormatsRefused(z: Flate, blob: seq<Byte>, bs: seq<Byte>)
    ensures blob == [] || blob[0] != 1 || z.inflate(blob[1..]).None? ==> DecodeBlob(z, blob) == None
    ensures bs == [] || 5 <= bs[0] < 127 || 133 <= bs[0] < 255 ==> ReadQuality(bs) == Fail
  {
    hide DecodeRaw;
    hide ReadUvarint;
  }

  /** Distinct reading lists never share a blob, up to millisecond precision. */
  lemma BlobInjective(z: Flate, rs: seq<Reading>, rs': seq<Reading>)
    requires z.Inverse() && NonNegativeIds(rs) && GoSized(rs) && NonNegativeIds(rs') && GoSized(rs')
    requires EncodeBlob(z, rs) == EncodeBlob(z, rs')
    ensures AllAtMillis(rs) == AllAtMillis(rs')
  {
    BlobRoundTrip(z, rs);
    BlobRoundTrip(z, rs');
  }

  lemma EncodedReadsBack(z: Flate, rs: seq<Reading>)
    ensures NonNegativeIds(rs) && GoSized(rs) && z.Inverse() ==>
              var out := DecodeBlob(z, EncodeBlob(z, rs)); out.Some? && Kept(out.value, rs)
  {
    hide Kept;
    if NonNegativeIds(rs) && GoSized(rs) && z.Inverse() {
      BlobRoundTrip(z, rs);
    }
  }

  // ---------------------------------------------------------------------------
  // encodeChunk and decodeChunk

  method EncodeChunk(z: Flate, readings: seq<Reading>) returns (blob: Option<seq<Byte>>)
    requires GoSized(readings)
    ensures blob.Some? <==> NonNegativeIds(readings)
    ensures blob.Some? ==> blob.value == EncodeBlob(z, readings)
    ensures blob.Some? && z.Inverse() ==>
              DecodeBlob(z, blob.value).Some? && Kept(DecodeBlob(z, blob.value).value, readings)
  {
    hide Kept;
    hide DecodeBlob;
    hide QualityCode;
    EncodedReadsBack(z, readings);
    hide EncodeRecord;
    hide PutUvarint;
    hide UnixMilli;
    var raw: seq<Byte> := PutUvarint(|readings|);
    var prev: Int64 := 0;
    if |readings| > 0 {
      prev := UnixMilli(readings[0].at);
    }
    raw := raw + PutVarint(prev);
    assert NonNegativeIds(readings) ==> raw + EncodeRecords(prev, readings) == EncodeRaw(readings);
    assert readings[0..] == readings;
    for i := 0 to |readings|
      invariant NonNegativeIds(readings[..i])
      invariant NonNegativeIds(readings) ==>
                  raw + EncodeRecords(prev, readings[i..]) == EncodeRaw(readings)
    {
      var r := readings[i];
      assert readings[i..][0] == r && readings[i..][1..] == readings[i + 1..];
      if r.datapointId < 0 || r.deviceId < 0 {
        return None;
      }
      ghost var before, prevBefore := raw, prev;
      raw, prev := WriteRecord(raw, prev, r);
      assert readings[..i + 1] == readings[..i] + [r];
      if NonNegativeIds(readings) {
        ghost var more := EncodeRecords(prev, readings[i + 1..]);
        assert raw + more == before + (EncodeRecord(prevBefore, r) + more);
      }
    }
    assert readings[..|readings|] == readings && readings[|readings|..] == [];
    assert raw + [] == raw;
    blob := Some([CHUNK_FORMAT_V1] + z.deflate(raw));
  }

  /** The body of encodeChunk's loop: appends one record to the buffer. */
  method WriteRecord(buf: seq<Byte>, prev: Int64, r: Reading) returns (raw: seq<Byte>, next: Int64)
    requires r.datapointId >= 0 && r.deviceId >= 0 && |r.quality| < TWO63
    ensures raw == buf + EncodeRecord(prev, r) && next == UnixMilli(r.at)
  {
    hide PutUvarint;
    hide PutVarint;
    hide PutLittleEndian;
    raw := buf + PutUvarint(r.datapointId);
    raw := raw + PutUvarint(r.deviceId);
    next := UnixMilli(r.at);
    raw := raw + PutVarint(Wrap64(next - prev));
    assert raw == buf + EncodeHeader(prev, r);
    var known := QualityCode(r.quality);
    var code: Byte := if known.Some? then known.value else QUALITY_OTHER;
    if r.value.Some? {
      code := code + HAS_VALUE_BIT;
    }
    ghost var quality := [code];
    raw := raw + [code];
    if known.None? {
      quality := [code] + (PutUvarint(|r.quality|) + r.quality);
      raw := raw + PutUvarint(|r.quality|);
      raw := raw + r.quality;
    }
    assert quality == QualityBytes(r);
    assert raw == buf + EncodeHeader(prev, r) + quality;
    if r.value.Some? {
      raw := raw + PutLittleEndian(r.value.value, 8);
    }
    assert raw == buf + (EncodeHeader(prev, r) + (quality + ValueBytes(r)));
  }

  /** The readings decoded so far in front of the outcome for the remaining bytes. */
  function Prepend(done: seq<Reading>, more: Option<seq<Reading>>): Option<seq<Reading>> {
    if more.None? then None else Some(done + more.value)
  }

  lemma PrependStep(done: seq<Reading>, rd: Reading, more: Option<seq<Reading>>)
    ensures Prepend(done + [rd], more) == Prepend(done, Prepend([rd], more))
  {
    if more.Some? {
      assert done + [rd] + more.value == done + ([rd] + more.value);
    }
  }

  method DecodeChunk(z: Flate, blob: seq<Byte>) returns (out: Option<seq<Reading>>)
    ensures out == DecodeBlob(z, blob)
  {
    hide ReadRecord;
    if |blob| == 0 || blob[0] != CHUNK_FORMAT_V1 {
      return None;
    }
    var inflated := z.inflate(blob[1..]);
    if inflated.None? {
      return None;
    }
    var raw := inflated.value;
    var count := ReadUvarint(raw);
    if count.Fail? || count.value > |raw| {
      return None;
    }
    var base := ReadVarint(count.rest);
    if base.Fail? {
      return None;
    }
    var prev, bs := base.value, base.rest;
    var readings: seq<Reading> := [];
    ghost var decoded := DecodeRecords(count.value, prev, bs);
    assert Prepend([], decoded) == decoded by {
      assert decoded.Some? ==> [] + decoded.value == decoded.value;
    }
    for i := 0 to count.value
      invariant decoded == Prepend(readings, DecodeRecords(count.value - i, prev, bs))
    {
      var p := ParseRecord(prev, bs);
      if p.Fail? {
        return None;
      }
      PrependStep(readings, p.value.0, DecodeRecords(count.value - i - 1, p.value.1, p.rest));
      readings := readings + [p.value.0];
      prev, bs := p.value.1, p.rest;
    }
    assert readings + [] == readings;
    out := Some(readings);
  }

  /** The body of decodeChunk's loop: one record off the front of the reader. */
  method ParseRecord(prev: Int64, input: seq<Byte>) returns (p: Parsed<(Reading, Int64)>)
    ensures p == ReadRecord(prev, input)
  {
    hide ReadUvarint;
    hide ReadVarint;
    hide ReadWord;
    hide Wrap64;
    hide QualityName;
    var dp := ReadUvarint(input);
    if dp.Fail? { return Fail; }
    var dev := ReadUvarint(dp.rest);
    if dev.Fail? { return Fail; }
    var delta := ReadVarint(dev.rest);
    if delta.Fail? { return Fail; }
    var ts := Wrap64(prev + delta.value);
    var bs := delta.rest;
    assert ReadHeader(prev, input) == Ok(Header(AsInt64(dp.value), AsInt64(dev.value), ts), bs);
    if bs == [] { return Fail; }
    var code := bs[0];
    var codeBase := code % 128;
    var quality: seq<Byte> := [];
    var rest := bs[1..];
    if codeBase == QUALITY_OTHER {
      var n := ReadUvarint(rest);
      if n.Fail? || n.value > |n.rest| { return Fail; }
      quality := n.rest[..n.value];
      rest := n.rest[n.value..];
    } else if QualityName(codeBase).Some? {
      quality := QualityName(codeBase).value;
    } else {
      return Fail;
    }
    assert ReadQuality(bs) == Ok((code, quality), rest);
    var value: Option<UInt64> := None;
    if code >= HAS_VALUE_BIT {
      var w := ReadWord(rest);
      if w.Fail? { return Fail; }
      value := Some(w.value);
      rest := w.rest;
    }
    p := Ok((Reading(AsInt64(dev.value), AsInt64(dp.value), value, quality, ts * NANOS_PER_MILLI), ts), rest);
  }
}
