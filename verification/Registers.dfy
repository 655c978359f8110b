/** Register values: data types, byte orders, decoding, and the slave that answers reads. */
module Registers {
  import opened Ints

  datatype DataType = INT16 | UINT16 | INT32 | UINT32 | FLOAT32 | FLOAT64 | Unknown(name: string)

  function ByteWidth(dt: DataType): Option<nat> {
    match dt
    case INT16 => Some(2)
    case UINT16 => Some(2)
    case INT32 => Some(4)
    case UINT32 => Some(4)
    case FLOAT32 => Some(4)
    case FLOAT64 => Some(8)
    case Unknown(_) => None
  }

  function RegisterCount(dt: DataType): Option<nat> {
    var w := ByteWidth(dt);
    if w.None? then None else Some(w.value / 2)
  }

  /** A decoded value: integers exactly, floats as their bit pattern. */
  datatype Value = Integer(i: int) | Float32(bits: nat) | Float64(bits: nat)

  // ---------------------------------------------------------------------------
  // Byte order

  const LETTER_A := 65

  function Position(letter: Byte): int {
    letter - LETTER_A
  }

  ghost predicate ValidOrder(order: seq<Byte>, n: nat) {
    |order| == n && forall i :: 0 <= i < n ==> 0 <= Position(order[i]) < n
  }

  /** The bytes in natural order, or None for an order string that does not fit. */
  ghost function Reordered(raw: seq<Byte>, order: seq<Byte>): Option<seq<Byte>> {
    if order == [] then Some(raw)
    else if ValidOrder(order, |raw|) then Some(Permuted(raw, order))
    else None
  }

  ghost function Permuted(raw: seq<Byte>, order: seq<Byte>): (out: seq<Byte>)
    requires ValidOrder(order, |raw|)
    ensures |out| == |raw| && forall i :: 0 <= i < |raw| ==> out[i] == raw[Position(order[i])]
  {
    seq(|raw|, i requires 0 <= i < |raw| => raw[Position(order[i])])
  }

  method Reorder(raw: seq<Byte>, order: seq<Byte>) returns (out: Option<seq<Byte>>)
    ensures out == Reordered(raw, order)
  {
    if order == [] {
      return Some(raw);
    }
    if |order| != |raw| {
      return None;
    }
    var bytes := new Byte[|raw|](_ => 0);
    for i := 0 to |order|
      invariant forall j :: 0 <= j < i ==> 0 <= Position(order[j]) < |raw| && bytes[j] == raw[Position(order[j])]
    {
      assert Position(order[i]) == order[i] - LETTER_A;
      var pos: int := order[i] - LETTER_A;
      if pos < 0 || pos >= |raw| {
        return None;
      }
      bytes[i] := raw[pos];
    }
    assert bytes[..] == Permuted(raw, order);
    out := Some(bytes[..]);
  }

  // ---------------------------------------------------------------------------
  // Decode

  function BigEndian(bs: seq<Byte>): nat {
    if bs == [] then 0 else 256 * BigEndian(bs[..|bs| - 1]) + bs[|bs| - 1]
  }

  method Accumulate(bs: seq<Byte>) returns (v: nat)
    ensures v == BigEndian(bs)
  {
    v := 0;
    for i := 0 to |bs|
      invariant v == BigEndian(bs[..i])
    {
      assert bs[..i + 1][..i] == bs[..i];
      v := 256 * v + bs[i];
    }
    assert bs[..|bs|] == bs;
  }

  const TWO15 := 0x8000
  const TWO31 := 0x8000_0000

  /** Reinterprets the low bits as two's complement. */
  function Signed(v: int, half: int): int
    requires half > 0
  {
    if v % (2 * half) >= half then v % (2 * half) - 2 * half else v % (2 * half)
  }

  function Interpret(v: nat, dt: DataType): Option<Value> {
    match dt
    case INT16 => Some(Integer(Signed(v, TWO15)))
    case UINT16 => Some(Integer(v % TWO16))
    case INT32 => Some(Integer(Signed(v, TWO31)))
    case UINT32 => Some(Integer(v % TWO32))
    case FLOAT32 => Some(Float32(v % TWO32))
    case FLOAT64 => Some(Float64(v % TWO64))
    case Unknown(_) => None
  }

  ghost function Decoded(raw: seq<Byte>, dt: DataType, order: seq<Byte>): Option<Value> {
    if ByteWidth(dt) != Some(|raw|) then None
    else
      var natural := Reordered(raw, order);
      if natural.None? then None else Interpret(BigEndian(natural.value), dt)
  }

  method Decode(raw: seq<Byte>, dt: DataType, order: seq<Byte>) returns (out: Option<Value>)
    ensures out == Decoded(raw, dt, order)
  {
    var width := ByteWidth(dt);
    if width.None? || |raw| != width.value {
      return None;
    }
    var ordered := Reorder(raw, order);
    if ordered.None? {
      return None;
    }
    var v := Accumulate(ordered.value);
    out := Interpret(v, dt);
  }

  // ---------------------------------------------------------------------------
  // What a device that stores a value in a given order puts on the wire

  ghost predicate InRange(v: Value, dt: DataType) {
    match dt
    case INT16 => v.Integer? && -TWO15 <= v.i < TWO15
    case UINT16 => v.Integer? && 0 <= v.i < TWO16
    case INT32 => v.Integer? && -TWO31 <= v.i < TWO31
    case UINT32 => v.Integer? && 0 <= v.i < TWO32
    case FLOAT32 => v.Float32? && v.bits < TWO32
    case FLOAT64 => v.Float64? && v.bits < TWO64
    case Unknown(_) => false
  }

  ghost function Unsigned(v: Value, dt: DataType): nat
    requires InRange(v, dt)
  {
    match v
    case Integer(i) => if i >= 0 then i else if dt.INT16? then i + TWO16 else i + TWO32
    case Float32(bits) => bits
    case Float64(bits) => bits
  }

  function PutBigEndian(v: nat, n: nat): (bs: seq<Byte>)
    ensures |bs| == n
  {
    if n == 0 then [] else PutBigEndian(v / 256, n - 1) + [v % 256]
  }

  lemma {:induction false} BigEndianRoundTrip(v: nat, n: nat)
    requires v < Pow256(n)
    ensures BigEndian(PutBigEndian(v, n)) == v
  {
    if n > 0 {
      BigEndianRoundTrip(v / 256, n - 1);
      assert PutBigEndian(v, n)[..n - 1] == PutBigEndian(v / 256, n - 1);
    }
  }

  /** Every position is named exactly once. */
  ghost predicate Permutation(order: seq<Byte>, n: nat) {
    ValidOrder(order, n) && forall i, j :: 0 <= i < j < n ==> order[i] != order[j]
  }

  /** `raw` lays `natural` out in that order. */
  ghost predicate LaidOut(raw: seq<Byte>, natural: seq<Byte>, order: seq<Byte>) {
    && |raw| == |natural|
    && (order == [] ==> raw == natural)
    && (order != [] ==>
          && ValidOrder(order, |raw|)
          && forall i :: 0 <= i < |raw| ==> raw[Position(order[i])] == natural[i])
  }

  /** How many bytes a device stores a value in. */
  ghost function DeviceBytes(dt: DataType): nat {
    match dt
    case INT16 => 2
    case UINT16 => 2
    case INT32 => 4
    case UINT32 => 4
    case FLOAT32 => 4
    case FLOAT64 => 8
    case Unknown(_) => 0
  }

  /** Decode inverts the device for every type, every value and every byte order. */
  lemma DecodeInvertsDevice(v: Value, dt: DataType, raw: seq<Byte>, order: seq<Byte>)
    requires InRange(v, dt) && LaidOut(raw, PutBigEndian(Unsigned(v, dt), DeviceBytes(dt)), order)
    ensures Decoded(raw, dt, order) == Some(v)
  {
    var n := DeviceBytes(dt);
    var natural := PutBigEndian(Unsigned(v, dt), n);
    if order != [] {
      assert Permuted(raw, order) == natural;
    }
    WidthHolds(v, dt);
    BigEndianRoundTrip(Unsigned(v, dt), n);
  }

  lemma WidthHolds(v: Value, dt: DataType)
    requires InRange(v, dt) && ByteWidth(dt).Some?
    ensures Unsigned(v, dt) < Pow256(ByteWidth(dt).value)
    ensures Interpret(Unsigned(v, dt), dt) == Some(v)
  {
    assert Pow256(2) == TWO16;
    assert Pow256(4) == 256 * 256 * Pow256(2);
    assert Pow256(8) == 256 * 256 * 256 * 256 * Pow256(4);
  }

  /** Every order that names each position once has such a layout. */
  lemma LayoutExists(natural: seq<Byte>, order: seq<Byte>) returns (raw: seq<Byte>)
    requires Permutation(order, |natural|)
    ensures LaidOut(raw, natural, order)
  {
    raw := natural;
    for i := 0 to |order|
      invariant |raw| == |natural|
      invariant forall j :: 0 <= j < i ==> raw[Position(order[j])] == natural[j]
    {
      raw := raw[Position(order[i]) := natural[i]];
    }
  }

  // ---------------------------------------------------------------------------
  // The register-bank slave

  function RegisterBytes(bank: seq<UInt16>, address: nat, quantity: nat): (bs: seq<Byte>)
    requires address + quantity <= |bank|
    ensures |bs| == 2 * quantity
    ensures forall i :: 0 <= i < quantity ==> bs[2 * i] == bank[address + i] / 256 && bs[2 * i + 1] == bank[address + i] % 256
  {
    seq(2 * quantity, j requires 0 <= j < 2 * quantity =>
      if j % 2 == 0 then bank[address + j / 2] / 256 else bank[address + j / 2] % 256)
  }

  /** A 16-bit field, high byte first. */
  function Word(hi: Byte, lo: Byte): UInt16 {
    var h: int := hi;
    256 * h + lo
  }

  const MAX_REGISTERS_PER_READ := 125

  /** Whether the slave answers with data rather than an exception. */
  predicate Readable(bank: seq<UInt16>, address: nat, quantity: nat) {
    address + quantity <= |bank| && 1 <= quantity <= MAX_REGISTERS_PER_READ
  }

  const READ_COILS := 1
  const READ_DISCRETE := 2
  const READ_HOLDING := 3
  const READ_INPUT := 4

  function WithHighBit(b: Byte): Byte {
    if b < 128 then b + 128 else b
  }

  /** An exception response. */
  function Exception(fc: Byte, code: Byte): seq<Byte> {
    [WithHighBit(fc), code]
  }

  /** A request is answered with the registers it names, or with an exception. */
  function Response(pdu: seq<Byte>, holding: seq<UInt16>, input: seq<UInt16>): seq<Byte> {
    if pdu == [] then [0x80, 1]
    else if pdu[0] == READ_HOLDING || pdu[0] == READ_INPUT then
      if |pdu| != 5 then Exception(pdu[0], 2)
      else
        var bank := if pdu[0] == READ_INPUT then input else holding;
        var address, quantity := Word(pdu[1], pdu[2]), Word(pdu[3], pdu[4]);
        if Readable(bank, address, quantity)
        then [pdu[0], 2 * quantity] + RegisterBytes(bank, address, quantity)
        else Exception(pdu[0], 2)
    else if pdu[0] == READ_COILS || pdu[0] == READ_DISCRETE then
      if |pdu| != 5 || !(1 <= Word(pdu[3], pdu[4]) <= 2000) then Exception(pdu[0], 2)
      else
        var n := (Word(pdu[3], pdu[4]) + 7) / 8;
        [pdu[0], n] + seq(n, _ => 0)
    else Exception(pdu[0], 1)
  }

  /** handlePDU's loop over the registers. */
  method AppendRegisters(head: seq<Byte>, bank: seq<UInt16>, address: nat, quantity: nat) returns (out: seq<Byte>)
    requires address + quantity <= |bank|
    ensures out == head + RegisterBytes(bank, address, quantity)
  {
    out := head;
    ghost var data := RegisterBytes(bank, address, quantity);
    for i := 0 to quantity
      invariant out == head + data[..2 * i]
    {
      var v := bank[address + i];
      out := out + [v / 256, v % 256];
      assert data[..2 * (i + 1)] == data[..2 * i] + [v / 256, v % 256];
    }
    assert data[..2 * quantity] == data;
  }

  /** handlePDU. */
  method HandlePdu(pdu: seq<Byte>, holding: seq<UInt16>, input: seq<UInt16>) returns (out: seq<Byte>)
    ensures out == Response(pdu, holding, input)
  {
    hide RegisterBytes;
    hide Word;
    if |pdu| < 1 {
      return [0x80, 1];
    }
    var fc := pdu[0];
    if fc == READ_HOLDING || fc == READ_INPUT {
      if |pdu| != 5 {
        return Exception(fc, 2);
      }
      var address, quantity := Word(pdu[1], pdu[2]), Word(pdu[3], pdu[4]);
      var bank := holding;
      if fc == READ_INPUT {
        bank := input;
      }
      if address + quantity > |bank| || quantity == 0 || quantity > MAX_REGISTERS_PER_READ {
        return Exception(fc, 2);
      }
      out := AppendRegisters([fc, 2 * quantity], bank, address, quantity);
    } else if fc == READ_COILS || fc == READ_DISCRETE {
      if |pdu| != 5 {
        return Exception(fc, 2);
      }
      var quantity := Word(pdu[3], pdu[4]);
      if quantity == 0 || quantity > 2000 {
        return Exception(fc, 2);
      }
      var n := (quantity + 7) / 8;
      out := [fc, n] + seq(n, _ => 0);
    } else {
      out := Exception(fc, 1);
    }
  }

  /** The request a client sends to read registers. */
  function Request(fc: Byte, address: UInt16, quantity: UInt16): seq<Byte> {
    [fc, address / 256, address % 256, quantity / 256, quantity % 256]
  }

  /** A register request is answered with exactly the registers it names, from the bank of
      its function code, if they exist and number 1 to 125, and refused otherwise. */
  lemma RequestAnswered(fc: Byte, address: UInt16, quantity: UInt16, holding: seq<UInt16>, input: seq<UInt16>)
    requires fc == READ_HOLDING || fc == READ_INPUT
    ensures var bank := if fc == READ_INPUT then input else holding;
            Response(Request(fc, address, quantity), holding, input) ==
            if 1 <= quantity <= 125 && address + quantity <= |bank| then [fc, 2 * quantity] + RegisterBytes(bank, address, quantity)
            else [fc + 128, 2]
  {
    hide RegisterBytes;
    assert Word(address / 256, address % 256) == address;
    assert Word(quantity / 256, quantity % 256) == quantity;
  }

  /** The bytes of a range inside a larger read are those of a read of its own. */
  lemma SliceOfRead(bank: seq<UInt16>, start: nat, quantity: nat, address: nat, n: nat)
    requires start + quantity <= |bank| && start <= address && address + n <= start + quantity
    ensures var offset := 2 * (address - start);
            RegisterBytes(bank, start, quantity)[offset..offset + 2 * n] == RegisterBytes(bank, address, n)
  {
    hide RegisterBytes;
    var d := address - start;
    var whole, part := RegisterBytes(bank, start, quantity), RegisterBytes(bank, address, n);
    forall j | 0 <= j < 2 * n ensures whole[2 * d + j] == part[j] {
      var i := j / 2;
      assert bank[start + (d + i)] == bank[address + i];
      if j % 2 == 0 {
        assert j == 2 * i && 2 * d + j == 2 * (d + i);
      } else {
        assert j == 2 * i + 1 && 2 * d + j == 2 * (d + i) + 1;
      }
    }
  }

  // ---------------------------------------------------------------------------
  // Values straight from the bank

  /** One, two or four registers; a type that is none of these is not readable. */
  lemma RegisterCounts()
    ensures RegisterCount(INT16) == Some(1) && RegisterCount(UINT16) == Some(1)
    ensures RegisterCount(INT32) == Some(2) && RegisterCount(UINT32) == Some(2) && RegisterCount(FLOAT32) == Some(2)
    ensures RegisterCount(FLOAT64) == Some(4)
    ensures forall name :: RegisterCount(Unknown(name)) == None
  {
  }

  /** Each register adds its sixteen bits at the low end. */
  lemma OneRegisterMore(bank: seq<UInt16>, a: nat, n: nat)
    requires a + n + 1 <= |bank|
    ensures BigEndian(RegisterBytes(bank, a, n + 1)) == 65536 * BigEndian(RegisterBytes(bank, a, n)) + bank[a + n]
  {
    var all, init := RegisterBytes(bank, a, n + 1), RegisterBytes(bank, a, n);
    var w := bank[a + n];
    forall j | 0 <= j < 2 * n ensures all[j] == init[j] {
      assert j == 2 * (j / 2) + j % 2;
    }
    hide RegisterBytes;
    assert all == (init + [w / 256]) + [w % 256];
    assert all[..2 * n + 1] == init + [w / 256] && all[..2 * n + 1][..2 * n] == init;
  }

  lemma NoRegister(bank: seq<UInt16>, a: nat)
    requires a <= |bank|
    ensures BigEndian(RegisterBytes(bank, a, 0)) == 0
  {
    assert RegisterBytes(bank, a, 0) == [];
  }

  /** What a point with no byte order decodes to: the registers themselves, high word first. */
  lemma OneRegisterDecoded(bank: seq<UInt16>, a: nat)
    requires a + 1 <= |bank|
    ensures var raw := RegisterBytes(bank, a, 1);
            var v: int := bank[a];
            && Decoded(raw, UINT16, []) == Some(Integer(v))
            && Decoded(raw, INT16, []) == Some(Integer(if v < 32768 then v else v - 65536))
  {
    hide RegisterBytes;
    hide BigEndian;
    NoRegister(bank, a);
    OneRegisterMore(bank, a, 0);
  }

  lemma TwoRegistersDecoded(bank: seq<UInt16>, a: nat)
    requires a + 2 <= |bank|
    ensures var raw := RegisterBytes(bank, a, 2);
            var hi: int := bank[a];
            var v := hi * 65536 + bank[a + 1];
            && Decoded(raw, UINT32, []) == Some(Integer(v))
            && Decoded(raw, INT32, []) == Some(Integer(if v < 2147483648 then v else v - 4294967296))
            && Decoded(raw, FLOAT32, []) == Some(Float32(v))
  {
    hide RegisterBytes;
    hide BigEndian;
    NoRegister(bank, a);
    OneRegisterMore(bank, a, 0);
    OneRegisterMore(bank, a, 1);
  }

  lemma FourRegistersDecoded(bank: seq<UInt16>, a: nat)
    requires a + 4 <= |bank|
    ensures var first: int := bank[a];
            var v := ((first * 65536 + bank[a + 1]) * 65536 + bank[a + 2]) * 65536 + bank[a + 3];
            Decoded(RegisterBytes(bank, a, 4), FLOAT64, []) == Some(Float64(v))
  {
    hide RegisterBytes;
    hide BigEndian;
    NoRegister(bank, a);
    OneRegisterMore(bank, a, 0);
    OneRegisterMore(bank, a, 1);
    OneRegisterMore(bank, a, 2);
    OneRegisterMore(bank, a, 3);
  }

  /** Any other number of bytes is refused. */
  lemma WrongWidthRefused(raw: seq<Byte>, order: seq<Byte>)
    ensures |raw| != 2 ==> Decoded(raw, INT16, order) == None && Decoded(raw, UINT16, order) == None
    ensures |raw| != 4 ==> Decoded(raw, INT32, order) == None && Decoded(raw, UINT32, order) == None
    ensures |raw| != 4 ==> Decoded(raw, FLOAT32, order) == None
    ensures |raw| != 8 ==> Decoded(raw, FLOAT64, order) == None
    ensures forall name :: Decoded(raw, Unknown(name), order) == None
  {
  }

  /** "BA" swaps the two bytes of a register; "CDAB", "BADC" and "DCBA" rearrange four. */
  lemma ByteOrders(x0: Byte, x1: Byte, x2: Byte, x3: Byte)
    ensures Decoded([x0, x1], UINT16, [66, 65]) == Decoded([x1, x0], UINT16, [])
    ensures Decoded([x0, x1], UINT16, [65, 66]) == Decoded([x0, x1], UINT16, [])
    ensures var raw := [x0, x1, x2, x3];
            && Reordered(raw, [67, 68, 65, 66]) == Some([x2, x3, x0, x1])
            && Reordered(raw, [66, 65, 68, 67]) == Some([x1, x0, x3, x2])
            && Reordered(raw, [68, 67, 66, 65]) == Some([x3, x2, x1, x0])
            && Reordered(raw, [65, 66, 67, 68]) == Some(raw)
  {
    var raw := [x0, x1, x2, x3];
    assert Permuted([x0, x1], [66, 65]) == [x1, x0];
    assert Permuted([x0, x1], [65, 66]) == [x0, x1];
    assert Permuted(raw, [67, 68, 65, 66]) == [x2, x3, x0, x1];
    assert Permuted(raw, [66, 65, 68, 67]) == [x1, x0, x3, x2];
    assert Permuted(raw, [68, 67, 66, 65]) == [x3, x2, x1, x0];
    assert Permuted(raw, [65, 66, 67, 68]) == raw;
  }

  /** An order of the wrong length, or that names a byte there is not, is refused. */
  lemma BadOrderRefused(raw: seq<Byte>, order: seq<Byte>, i: nat)
    requires order != []
    ensures |order| != |raw| ==> Reordered(raw, order) == None
    ensures i < |order| && !(65 <= order[i] < 65 + |raw|) ==> Reordered(raw, order) == None
  {
  }

  /** Reads of coils and discrete inputs are answered with zeros, one bit each, if there are 1 to
      2000 of them; any other function code is refused as illegal. */
  lemma OtherRequests(pdu: seq<Byte>, holding: seq<UInt16>, input: seq<UInt16>)
    ensures pdu == [] ==> Response(pdu, holding, input) == [128, 1]
    ensures pdu != [] && (pdu[0] < 1 || pdu[0] > 4) ==>
              var fc: int := pdu[0];
              Response(pdu, holding, input) == [if fc < 128 then fc + 128 else fc, 1]
    ensures pdu != [] && 1 <= pdu[0] <= 4 && |pdu| != 5 ==> Response(pdu, holding, input) == [pdu[0] + 128, 2]
    ensures |pdu| == 5 && 1 <= pdu[0] <= 2 ==>
              var hi: int := pdu[3];
              var n := 256 * hi + pdu[4];
              var out := Response(pdu, holding, input);
              && (1 <= n <= 2000 ==>
                    && out[..2] == [pdu[0], (n + 7) / 8] && |out| == 2 + (n + 7) / 8
                    && forall i :: 2 <= i < |out| ==> out[i] == 0)
              && (!(1 <= n <= 2000) ==> out == [pdu[0] + 128, 2])
  {
    hide RegisterBytes;
  }
}
