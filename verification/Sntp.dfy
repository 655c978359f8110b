/** The clock offset of one SNTP exchange. Times are nanoseconds since 1900-01-01, the epoch
    of sections 3 and 5 of RFC 4330. */
module Sntp {
  import opened Ints

  const SECOND := 1_000_000_000

  type UInt32 = x: int | 0 <= x < TWO32

  /** ntpTimestampToTime: the shift truncates the fraction to whole nanoseconds. */
  function TimestampNanos(secs: UInt32, frac: UInt32): int {
    secs * SECOND + frac * SECOND / TWO32
  }

  /** time.Time.Sub saturates at the int64 range. */
  function Sub(a: int, b: int): Int64 {
    if a - b < -TWO63 then -TWO63 else if a - b > TWO63 - 1 then TWO63 - 1 else a - b
  }

  /** Go's integer division by two truncates toward zero. */
  function Half(x: int): int {
    if x >= 0 then x / 2 else -((-x) / 2)
  }

  /** Half the way to zero: never past the exact half, and short of it by at most half. */
  lemma HalfTruncates(x: int)
    ensures x >= 0 ==> 2 * Half(x) <= x <= 2 * Half(x) + 1
    ensures x < 0 ==> 2 * Half(x) - 1 <= x <= 2 * Half(x)
  {
  }

  function Offset(t1: int, t2: int, t3: int, t4: int): int {
    Half(Wrap64(Sub(t2, t1) + Sub(t3, t4)))
  }

  /** The intermediate uint64 product and the Duration never overflow. */
  lemma TimestampNoOverflow(secs: UInt32, frac: UInt32)
    ensures 0 <= frac * SECOND < TWO64
    ensures 0 <= TimestampNanos(secs, frac) < TWO63
    ensures TimestampNanos(secs, frac) / SECOND == secs
  {
    assert 0 <= frac * SECOND / TWO32 < SECOND by {
      assert frac * SECOND < TWO32 * SECOND;
    }
  }

  /** A server time in nanoseconds, before truncation; the seconds are not those of the wire,
      which carries them modulo 2^32. */
  ghost function Exact(secs: nat, frac: UInt32): real {
    (secs * 1_000_000_000) as real + ((frac * 1_000_000_000) as real) / 4_294_967_296.0
  }

  /** What the code makes of a server time, given the seconds the wire carries. */
  function OnWire(secs: nat, frac: UInt32): int {
    TimestampNanos(secs % TWO32, frac)
  }

  lemma TruncationUnderOneNano(secs: UInt32, frac: UInt32)
    ensures TimestampNanos(secs, frac) as real <= Exact(secs, frac) < (TimestampNanos(secs, frac) + 1) as real
  {
    var num := frac * SECOND;
    var q, r := num / TWO32, num % TWO32;
    assert num == q * TWO32 + r && 0 <= r < TWO32;
    assert (num as real) == (q as real) * (TWO32 as real) + (r as real);
    assert (num as real) / (TWO32 as real) == (q as real) + (r as real) / (TWO32 as real);
    assert 0.0 <= (r as real) / (TWO32 as real) < 1.0;
  }

  const ERA := TWO32 * SECOND

  /** A time read off the wire is behind by whole eras of 2^32 seconds, and by less than a
      nanosecond more. */
  lemma OnWireMissesEras(secs: nat, frac: UInt32)
    ensures var wire := OnWire(secs, frac) + secs / TWO32 * ERA;
            wire as real <= Exact(secs, frac) < (wire + 1) as real
  {
    var e, low := secs / TWO32, secs % TWO32;
    TruncationUnderOneNano(low, frac);
    assert secs == e * TWO32 + low;
    assert secs * SECOND == e * ERA + low * SECOND;
    assert (secs * SECOND) as real == (e * ERA) as real + (low * SECOND) as real;
    assert Exact(secs, frac) == Exact(low, frac) + (e * ERA) as real;
  }

  const TWO62 := 0x4000_0000_0000_0000

  predicate FitsInt64(x: int) {
    -TWO63 <= x < TWO63
  }

  /** A local clock between 1900 and 2046 is close enough to any server answer for the two
      differences and their sum to fit; what remains to go wrong is the era. */
  lemma PlausibleClocksFit(t1: int, t4: int, s2: UInt32, f2: UInt32, s3: UInt32, f3: UInt32)
    requires 0 <= t1 < TWO62 && 0 <= t4 < TWO62
    ensures var d1, d2 := TimestampNanos(s2, f2) - t1, TimestampNanos(s3, f3) - t4;
            FitsInt64(d1) && FitsInt64(d2) && FitsInt64(d1 + d2)
  {
    TimestampNoOverflow(s2, f2);
    TimestampNoOverflow(s3, f3);
    assert TimestampNanos(s2, f2) < TWO32 * SECOND && TimestampNanos(s3, f3) < TWO32 * SECOND;
  }

  /** Differences that fit are taken exactly, and the offset is half their sum if and only if
      the sum fits too. */
  lemma OffsetExactIff(t1: int, t2: int, t3: int, t4: int)
    requires FitsInt64(t2 - t1) && FitsInt64(t3 - t4)
    ensures Offset(t1, t2, t3, t4) == Half((t2 - t1) + (t3 - t4)) <==> FitsInt64((t2 - t1) + (t3 - t4))
    ensures var sum := (t2 - t1) + (t3 - t4);
            Offset(t1, t2, t3, t4) == Half(if sum < -TWO63 then sum + TWO64 else if sum >= TWO63 then sum - TWO64 else sum)
  {
    var sum := (t2 - t1) + (t3 - t4);
    assert Wrap64(sum) == if sum < -TWO63 then sum + TWO64 else if sum >= TWO63 then sum - TWO64 else sum;
  }

  /** With no delay at all, and saturation included, the offset is the true one if and only if
      the clocks are at most 2^62 nanoseconds apart. */
  lemma InstantExchangeExactIff(local: int, server: int)
    ensures Offset(local, server, server, local) == server - local <==> -TWO62 <= server - local < TWO62
  {
    var d := server - local;
    assert Sub(server, local) == d || d < -TWO63 || d >= TWO63;
    assert d >= TWO63 ==> Wrap64(Sub(server, local) + Sub(server, local)) == -2;
    assert d < -TWO63 ==> Wrap64(Sub(server, local) + Sub(server, local)) == 0;
  }

  /** The interval the computed offset is promised to lie in. */
  ghost predicate Tight(error: real, out: real, back: real) {
    (out - back) / 2.0 - 1.5 < error <= (out - back) / 2.0 + 0.5
  }

  /** Any server clock offset, any path delays, any processing time at the server: the
      computed offset is off by at most half the difference of the two delays, plus less than
      a nanosecond and a half of truncation, if and only if the sum of the two differences
      fits int64 and both server times lie before 7 February 2036, when the seconds on the
      wire start over; and then by at most half the total delay. */
  lemma OffsetErrorIff(t1: int, t4: int, secs2: nat, f2: UInt32, secs3: nat, f3: UInt32,
                       theta: real, out: real, back: real)
    requires out >= 0.0 && back >= 0.0
    requires Exact(secs2, f2) == t1 as real + theta + out
    requires Exact(secs3, f3) + back == t4 as real + theta
    requires FitsInt64(OnWire(secs2, f2) - t1) && FitsInt64(OnWire(secs3, f3) - t4)
    ensures var t2, t3 := OnWire(secs2, f2), OnWire(secs3, f3);
            var error := Offset(t1, t2, t3, t4) as real - theta;
            && (Tight(error, out, back) <==>
                  FitsInt64((t2 - t1) + (t3 - t4)) && secs2 < TWO32 && secs3 < TWO32)
            && (Tight(error, out, back) ==> -(out + back) / 2.0 - 1.5 < error < (out + back) / 2.0 + 1.5)
  {
    var t2, t3 := OnWire(secs2, f2), OnWire(secs3, f3);
    var eras := secs2 / TWO32 + secs3 / TWO32;
    var sum := (t2 - t1) + (t3 - t4);
    hide OnWire;
    hide Exact;
    OffsetExactIff(t1, t2, t3, t4);
    hide Offset;
    hide Half;
    var wraps := if sum < -TWO63 then 1 else if sum >= TWO63 then -1 else 0;
    assert eras == 0 <==> secs2 < TWO32 && secs3 < TWO32;
    ErasNeverCancel(eras, wraps);
    SumBounds(t1, t4, secs2, f2, secs3, f3, theta, out, back);
    TightIff(sum, eras, wraps, Offset(t1, t2, t3, t4), theta, out, back);
  }

  lemma SumBounds(t1: int, t4: int, secs2: nat, f2: UInt32, secs3: nat, f3: UInt32, theta: real, out: real, back: real)
    requires Exact(secs2, f2) == t1 as real + theta + out
    requires Exact(secs3, f3) + back == t4 as real + theta
    ensures var sum := (OnWire(secs2, f2) - t1) + (OnWire(secs3, f3) - t4);
            var eras := secs2 / TWO32 + secs3 / TWO32;
            2.0 * theta + out - back - 2.0 < (sum + eras * ERA) as real <= 2.0 * theta + out - back
  {
    OnWireMissesEras(secs2, f2);
    OnWireMissesEras(secs3, f3);
    var e2, e3 := secs2 / TWO32, secs3 / TWO32;
    var t2, t3 := OnWire(secs2, f2), OnWire(secs3, f3);
    hide OnWire;
    hide Exact;
    assert (e2 + e3) * ERA == e2 * ERA + e3 * ERA;
    assert ((t2 - t1) + (t3 - t4) + (e2 + e3) * ERA) as real
           == (t2 + e2 * ERA) as real + (t3 + e3 * ERA) as real - t1 as real - t4 as real;
  }

  /** Missed eras and a wrapped sum never make up for each other. */
  lemma ErasNeverCancel(eras: nat, wraps: int)
    requires -1 <= wraps <= 1
    ensures eras != 0 || wraps != 0 ==> eras * ERA - wraps * TWO64 > 8 || eras * ERA - wraps * TWO64 < -8
  {
    assert TWO64 == TWO32 * TWO32;
    assert eras * ERA - wraps * TWO64 == TWO32 * (eras * SECOND - wraps * TWO32);
    assert eras * SECOND - wraps * TWO32 == 0 ==> eras == 0 && wraps == 0;
  }

  /** What is left of the error when both are put together. */
  lemma TightIff(sum: int, eras: nat, wraps: int, offset: int, theta: real, out: real, back: real)
    requires offset == Half(sum + wraps * TWO64)
    requires 2.0 * theta + out - back - 2.0 < (sum + eras * ERA) as real <= 2.0 * theta + out - back
    requires eras != 0 || wraps != 0 ==> eras * ERA - wraps * TWO64 > 8 || eras * ERA - wraps * TWO64 < -8
    ensures Tight(offset as real - theta, out, back) <==> eras == 0 && wraps == 0
  {
    var shift := eras * ERA - wraps * TWO64;
    HalfBounds(sum + wraps * TWO64);
    hide Half;
    var x := sum + eras * ERA;
    assert sum + wraps * TWO64 == x - shift;
    assert (x - shift) as real == x as real - shift as real;
    if eras == 0 && wraps == 0 {
      assert shift == 0;
    }
  }

  /** In 2036: the server says 2^32 + 10 seconds, of which the wire carries 10. The local clock
      is exactly right, there is no delay, everything fits, and the offset is off by an era. */
  lemma EraRollover()
    ensures var now := (TWO32 + 10) * SECOND;
            && OnWire(TWO32 + 10, 0) == 10 * SECOND && Exact(TWO32 + 10, 0) == now as real
            && 0 <= now < TWO62
            && FitsInt64(OnWire(TWO32 + 10, 0) - now) && FitsInt64(2 * (OnWire(TWO32 + 10, 0) - now))
            && Offset(now, OnWire(TWO32 + 10, 0), OnWire(TWO32 + 10, 0), now) == -ERA
            && !Tight(-ERA as real, 0.0, 0.0)
  {
  }

  /** A local clock more than 2^62 nanoseconds ahead of a server in 1900: the sum wraps, and
      the offset comes out positive. */
  lemma SumWraps()
    ensures var local := TWO62 + 1;
            && OnWire(0, 0) == 0 && FitsInt64(0 - local) && !FitsInt64(2 * (0 - local))
            && Offset(local, 0, 0, local) == TWO62 - 1
            && !Tight((TWO62 - 1) as real - (-local) as real, 0.0, 0.0)
  {
  }

  lemma HalfBounds(x: int)
    ensures x as real - 1.0 <= 2.0 * (Half(x) as real) <= x as real + 1.0
  {
    assert x - 1 <= 2 * Half(x) <= x + 1;
    assert (2 * Half(x)) as real == 2.0 * (Half(x) as real);
  }
}
