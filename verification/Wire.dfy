/** Machine integers and fixed-width byte strings shared by the program and its client. */
module Wire {

  type byte = x: int | 0 <= x < 0x100

  type u64 = x: int | 0 <= x < 0x1_0000_0000_0000_0000

  type i64 = x: int | -0x8000_0000_0000_0000 <= x < 0x8000_0000_0000_0000

  const U64_MAX := 0xFFFF_FFFF_FFFF_FFFF
  const I64_MAX := 0x7FFF_FFFF_FFFF_FFFF

  function Zeros(n: nat): (z: seq<byte>)
    ensures |z| == n
  {
    seq(n, _ => 0)
  }

  type Bytes32 = b: seq<byte> | |b| == 32 witness Zeros(32)

  type Bytes64 = b: seq<byte> | |b| == 64 witness Zeros(64)

  /** A public key or program-derived address. */
  datatype Key = Key(bytes: Bytes32)

  /** A SHA-256 digest. */
  datatype Hash = Hash(bytes: Bytes32)

  const DEFAULT_KEY := Key(Zeros(32))
  const ZERO_HASH := Hash(Zeros(32))

  /** Little-endian bytes of the low `8 * n` bits. */
  function LittleEndian(value: nat, n: nat): (b: seq<byte>)
    ensures |b| == n
  {
    if n == 0 then [] else [value % 256] + LittleEndian(value / 256, n - 1)
  }

  function LittleEndianValue(b: seq<byte>): nat
  {
    if b == [] then 0 else b[0] + 256 * LittleEndianValue(b[1..])
  }

  function Pow256(n: nat): (p: nat)
    ensures p > 0
  {
    if n == 0 then 1 else 256 * Pow256(n - 1)
  }

  lemma {:induction false} DecodeEncodeLittleEndian(value: nat, n: nat)
    requires value < Pow256(n)
    ensures LittleEndianValue(LittleEndian(value, n)) == value
  {
    if n == 0 {
    } else {
      assert value / 256 < Pow256(n - 1);
      DecodeEncodeLittleEndian(value / 256, n - 1);
      assert LittleEndian(value, n)[1..] == LittleEndian(value / 256, n - 1);
    }
  }

  lemma {:induction false} EncodeDecodeLittleEndian(b: seq<byte>)
    ensures LittleEndianValue(b) < Pow256(|b|)
    ensures LittleEndian(LittleEndianValue(b), |b|) == b
  {
    if b == [] {
    } else {
      EncodeDecodeLittleEndian(b[1..]);
      var v := LittleEndianValue(b);
      assert v == b[0] + 256 * LittleEndianValue(b[1..]);
      assert v % 256 == b[0] && v / 256 == LittleEndianValue(b[1..]);
      assert b == [b[0]] + b[1..];
    }
  }

  lemma Pow256Eight()
    ensures Pow256(8) == 0x1_0000_0000_0000_0000
  {
    assert Pow256(4) == 0x1_0000_0000;
    assert Pow256(8) == 256 * 256 * 256 * 256 * Pow256(4);
  }

  function U64Bytes(value: u64): (b: seq<byte>)
    ensures |b| == 8
  {
    LittleEndian(value, 8)
  }

  /** Two's complement, little-endian. */
  function I64Bytes(value: i64): (b: seq<byte>)
    ensures |b| == 8
  {
    LittleEndian(if value < 0 then value + 0x1_0000_0000_0000_0000 else value, 8)
  }

  function U64Value(b: seq<byte>): u64
    requires |b| == 8
  {
    EncodeDecodeLittleEndian(b);
    Pow256Eight();
    LittleEndianValue(b)
  }

  function I64Value(b: seq<byte>): i64
    requires |b| == 8
  {
    var v: u64 := U64Value(b);
    if v >= 0x8000_0000_0000_0000 then v - 0x1_0000_0000_0000_0000 else v
  }

  lemma U64RoundTrip(value: u64)
    ensures U64Value(U64Bytes(value)) == value
  {
    Pow256Eight();
    DecodeEncodeLittleEndian(value, 8);
  }

  lemma U64BytesRoundTrip(b: seq<byte>)
    requires |b| == 8
    ensures U64Bytes(U64Value(b)) == b
  {
    EncodeDecodeLittleEndian(b);
  }

  lemma I64RoundTrip(value: i64)
    ensures I64Value(I64Bytes(value)) == value
  {
    Pow256Eight();
    DecodeEncodeLittleEndian(if value < 0 then value + 0x1_0000_0000_0000_0000 else value, 8);
  }

  lemma I64BytesRoundTrip(b: seq<byte>)
    requires |b| == 8
    ensures I64Bytes(I64Value(b)) == b
  {
    EncodeDecodeLittleEndian(b);
  }
}
