/** The bytes and names that other programs rely on, spelled out. */
module Layout {
  import opened Wire
  import opened Masks
  import opened Records
  import opened Allocation
  import Codec
  import Base58

  /** The weighted sum of eight bytes, least significant first. */
  function Weighed(b: seq<byte>): nat
    requires |b| == 8
  {
    b[0] as int + 0x100 * (b[1] as int) + 0x1_0000 * (b[2] as int) + 0x100_0000 * (b[3] as int)
    + 0x1_0000_0000 * (b[4] as int) + 0x100_0000_0000 * (b[5] as int) + 0x1_0000_0000_0000 * (b[6] as int)
    + 0x100_0000_0000_0000 * (b[7] as int)
  }

  lemma Unrolled(b: seq<byte>)
    requires |b| == 8
    ensures LittleEndianValue(b) == Weighed(b)
  {
    hide LittleEndianValue;
    Unroll(b);
    Unroll(b[1..]);
    Unroll(b[2..]);
    Unroll(b[3..]);
    Unroll(b[4..]);
    Unroll(b[5..]);
    Unroll(b[6..]);
    Unroll(b[7..]);
    assert b[1..][1..] == b[2..] && b[2..][1..] == b[3..] && b[3..][1..] == b[4..] && b[4..][1..] == b[5..];
    assert b[5..][1..] == b[6..] && b[6..][1..] == b[7..] && b[7..][1..] == [];
    Empty();
  }

  lemma Unroll(b: seq<byte>)
    requires b != []
    ensures LittleEndianValue(b) == b[0] as int + 256 * LittleEndianValue(b[1..])
  {
  }

  lemma Empty()
    ensures LittleEndianValue([]) == 0
  {
  }

  /** Integers are stored least significant byte first, negative ones in two's complement. */
  lemma IntegersLittleEndian(u: u64, i: i64)
    ensures Weighed(U64Bytes(u)) == u
    ensures Weighed(I64Bytes(i)) == if i < 0 then 0x1_0000_0000_0000_0000 + i else i
  {
    hide LittleEndian, Weighed;
    U64RoundTrip(u);
    Unrolled(U64Bytes(u));
    Unrolled(I64Bytes(i));
    I64RoundTrip(i);
  }

  /** A mask is stored as the sum of its bits. */
  lemma MaskByteSums(mask: bv8)
    ensures Codec.MaskByte(mask) == Weight(mask, 0) + Weight(mask, 1) + Weight(mask, 2) + Weight(mask, 3)
                                    + Weight(mask, 4) + Weight(mask, 5) + Weight(mask, 6) + Weight(mask, 7)
  {
    hide Has, Codec.BitsValue;
    BitsSum(Codec.Unpack(mask));
  }

  function BitWeight(on: bool, weight: nat): nat {
    if on then weight else 0
  }

  lemma FourBits(b: seq<bool>)
    requires |b| >= 4
    ensures Codec.BitsValue(b) == BitWeight(b[0], 1) + BitWeight(b[1], 2) + BitWeight(b[2], 4) + BitWeight(b[3], 8)
                                  + 16 * Codec.BitsValue(b[4..])
  {
    hide Codec.BitsValue;
    UnrollBits(b);
    UnrollBits(b[1..]);
    UnrollBits(b[2..]);
    UnrollBits(b[3..]);
    assert b[1..][1..] == b[2..] && b[2..][1..] == b[3..] && b[3..][1..] == b[4..];
  }

  lemma BitsSum(b: Codec.Octet)
    ensures Codec.BitsValue(b)
         == BitWeight(b[0], 1) + BitWeight(b[1], 2) + BitWeight(b[2], 4) + BitWeight(b[3], 8)
            + BitWeight(b[4], 16) + BitWeight(b[5], 32) + BitWeight(b[6], 64) + BitWeight(b[7], 128)
  {
    hide Codec.BitsValue;
    FourBits(b);
    FourBits(b[4..]);
    assert b[4..][4..] == [];
    NoBits();
  }

  lemma NoBits()
    ensures Codec.BitsValue([]) == 0
  {
  }

  lemma UnrollBits(b: seq<bool>)
    requires b != []
    ensures Codec.BitsValue(b) == (if b[0] then 1 else 0) + 2 * Codec.BitsValue(b[1..])
  {
  }

  /** What bit `index` adds to the stored byte. */
  function Weight(mask: bv8, index: nat): nat
    requires index < 8
  {
    if !Has(mask, index) then 0
    else if index == 0 then 1 else if index == 1 then 2 else if index == 2 then 4 else if index == 3 then 8
    else if index == 4 then 16 else if index == 5 then 32 else if index == 6 then 64 else 128
  }

  /** Bit `index` is one shifted by `index`. */
  lemma BitIsShift(mask: bv8, index: nat)
    requires index < 8
    ensures Has(mask, index) <==> (mask >> index) & 1 != 0
  {
  }

  /** Keys, revisions and hashes of the three seats lie in the order of the seats, and the six records in that of the
      slots. */
  lemma InSeatOrder(keys: Trio, revisions: Revisions, hashes: Hashes, seat: nat)
    requires seat < 3
    ensures Codec.TrioBytes(keys)[32 * seat..32 * seat + 32] == keys[seat].bytes
    ensures Codec.RevisionsBytes(revisions)[8 * seat..8 * seat + 8] == U64Bytes(revisions[seat])
    ensures Codec.HashesBytes(hashes)[32 * seat..32 * seat + 32] == hashes[seat].bytes
  {
    hide U64Bytes;
    assert seat == 0 || seat == 1 || seat == 2;
  }

  lemma InSlotOrder(assets: Assets, slot: nat)
    requires slot < 6
    ensures Codec.AssetsBytes(assets)[169 * slot..169 * slot + 169] == Codec.AssetBytes(assets[slot])
  {
    hide Codec.AssetBytes;
    assert Codec.AssetPart(Codec.AssetsBytes(assets), slot) == Codec.AssetBytes(assets[slot]);
  }

  /** Each variant is stored as its place in its declaration. */
  lemma VariantsByPlace(status: CoreStatus, phase: LivePhase, cycle: Cycle, action: LiveAction)
    ensures var s := Codec.StatusByte(status);
      s < 7 && [Funding, Active, Settled, Returning, Complete, Cancelled, Closed][s] == status
    ensures var p := Codec.PhaseByte(phase); p < 3 && [Negotiating, Finalizing, Finalized][p] == phase
    ensures var c := CycleByte(cycle); c < 2 && [Forward, Reverse][c] == cycle
    ensures var a := Codec.ActionByte(action);
      a < 5 && [Initialized, Proposed, Locked, Revoked, FinalizedAction][a] == action
  {
  }

  /** The tag of the hashed preimage, as text. */
  lemma TagSpells()
    ensures |TAG| == |"tradetable-allocation-v1"|
    ensures forall i :: 0 <= i < |TAG| ==> TAG[i] == "tradetable-allocation-v1"[i] as int
  {
  }

  /** Forward hands each asset to the next seat, reverse to the one before. */
  lemma CycleRoutes(seat: nat)
    requires seat < 3
    ensures DestinationsFor(Forward)[seat] == (seat + 1) % 3 && DestinationsFor(Reverse)[seat] == (seat + 2) % 3
  {
    assert seat == 0 || seat == 1 || seat == 2;
  }

  // ----- Texts of signatures -----

  /** The number that digits denote when read from left to right. */
  function Read(digits: seq<nat>, base: nat): nat {
    if digits == [] then 0 else Read(digits[..|digits| - 1], base) * base + digits[|digits| - 1]
  }

  lemma {:induction false} ReadsReversed(s: seq<nat>, base: nat)
    ensures Base58.Value(Base58.Reversed(s), base) == Read(s, base)
  {
    if s != [] {
      var init, last := s[..|s| - 1], s[|s| - 1];
      ReadsReversed(init, base);
      Base58.ReversedLast(init, last);
      assert s == init + [last];
      assert ([last] + Base58.Reversed(init))[1..] == Base58.Reversed(init);
      assert Base58.Value([last] + Base58.Reversed(init), base) == last
          + base * Base58.Value(Base58.Reversed(init), base);
    }
  }

  lemma {:induction false} LeadingNothing(s: seq<nat>, k: nat, base: nat)
    requires k <= |s| && forall i :: 0 <= i < k ==> s[i] == 0
    ensures Read(s, base) == Read(s[k..], base)
  {
    if s != [] {
      var init := s[..|s| - 1];
      if k < |s| {
        LeadingNothing(init, k, base);
        assert s[k..][..|s[k..]| - 1] == init[k..];
      } else {
        LeadingNothing(init, k - 1, base);
        assert init[k - 1..] == [] && s[k..] == [];
      }
    }
  }

  /** Read as a base-58 number, the text of a signature denotes what its bytes denote in base 256. */
  lemma TextDenotesBytes(bytes: seq<byte>)
    ensures Read(Base58.DigitsOf(Base58.Encoded(bytes)), 58) == Read(bytes, 256)
  {
    hide Base58.LeadingZeros, Base58.Digits, Base58.Value, Base58.Reversed, Base58.Text, Base58.Ones, Read,
         Base58.ALPHABET;
    var z := Base58.LeadingZeros(bytes);
    var rest := bytes[z..];
    var digits := Base58.Digits(Base58.BytesValue(rest), 58);
    Base58.DigitsCanonical(Base58.BytesValue(rest), 58);
    Base58.ReversedBelow(digits, 58);
    var shown := Base58.DigitsOf(Base58.Encoded(bytes));
    Base58.TextDigits(Base58.Reversed(digits));
    assert Base58.Encoded(bytes)[z..] == Base58.Text(Base58.Reversed(digits));
    assert shown[z..] == Base58.DigitsOf(Base58.Encoded(bytes)[z..]);
    Base58.OnlyOneIsZero('1');
    assert forall i :: 0 <= i < z ==> shown[i] == 0;
    LeadingNothing(shown, z, 58);
    LeadingNothing(bytes, z, 256);
    ReadsReversed(Base58.Reversed(digits), 58);
    ReadsReversed(rest, 256);
    Base58.ReversedTwice(digits);
  }
}
