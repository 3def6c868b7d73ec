/** The program's Borsh layout of the two accounts, field after field, and the client's decoders, offset by offset. */
module Codec {
  import opened Wire
  import opened Masks
  import opened Records
  import opened Allocation

  // ----- Consecutive fields -----

  /** Where field `k` starts. */
  function Offset(fields: seq<seq<byte>>, k: nat): nat
    requires k <= |fields|
  {
    if k == 0 then 0 else Offset(fields, k - 1) + |fields[k - 1]|
  }

  lemma JoinHead(fields: seq<seq<byte>>)
    requires fields != []
    ensures Join(fields) == fields[0] + Join(fields[1..])
  {
  }

  lemma {:induction false} JoinSplit(a: seq<seq<byte>>, b: seq<seq<byte>>)
    ensures Join(a + b) == Join(a) + Join(b)
  {
    if a == [] {
      assert a + b == b;
    } else {
      hide Join;
      JoinSplit(a[1..], b);
      assert (a + b)[1..] == a[1..] + b;
      JoinHead(a + b);
      JoinHead(a);
      Associate(a[0], Join(a[1..]), Join(b));
    }
  }

  lemma Associate(a: seq<byte>, b: seq<byte>, c: seq<byte>)
    ensures a + (b + c) == (a + b) + c
  {
  }

  lemma JoinOne(field: seq<byte>)
    ensures Join([field]) == field
  {
    var one: seq<seq<byte>> := [field];
    assert one[1..] == [];
  }

  lemma {:induction false} OffsetIsLength(fields: seq<seq<byte>>, k: nat)
    requires k <= |fields|
    ensures |Join(fields[..k])| == Offset(fields, k)
  {
    if k > 0 {
      OffsetIsLength(fields, k - 1);
      assert fields[..k] == fields[..k - 1] + [fields[k - 1]];
      JoinSplit(fields[..k - 1], [fields[k - 1]]);
      JoinOne(fields[k - 1]);
    }
  }

  lemma JoinAround(fields: seq<seq<byte>>, k: nat)
    requires k < |fields|
    ensures Join(fields) == Join(fields[..k]) + (fields[k] + Join(fields[k + 1..]))
  {
    var tail := fields[k..];
    assert fields == fields[..k] + tail && tail[1..] == fields[k + 1..];
    JoinSplit(fields[..k], tail);
    JoinHead(tail);
  }

  lemma Middle(a: seq<byte>, b: seq<byte>, c: seq<byte>)
    ensures (a + (b + c))[|a|..|a| + |b|] == b
  {
  }

  /** Each field is found at its offset. */
  lemma FieldAt(fields: seq<seq<byte>>, k: nat)
    requires k < |fields|
    ensures Offset(fields, k) + |fields[k]| <= |Join(fields)|
    ensures Join(fields)[Offset(fields, k)..Offset(fields, k) + |fields[k]|] == fields[k]
  {
    hide Join, Offset;
    OffsetIsLength(fields, k);
    JoinAround(fields, k);
    Middle(Join(fields[..k]), fields[k], Join(fields[k + 1..]));
  }

  lemma FieldsAt(fields: seq<seq<byte>>)
    ensures |Join(fields)| == Offset(fields, |fields|)
    ensures forall k :: 0 <= k < |fields| ==>
      Offset(fields, k) + |fields[k]| <= |Join(fields)|
      && Join(fields)[Offset(fields, k)..Offset(fields, k) + |fields[k]|] == fields[k]
  {
    OffsetIsLength(fields, |fields|);
    assert fields[..|fields|] == fields;
    forall k | 0 <= k < |fields|
      ensures Offset(fields, k) + |fields[k]| <= |Join(fields)|
      ensures Join(fields)[Offset(fields, k)..Offset(fields, k) + |fields[k]|] == fields[k]
    {
      FieldAt(fields, k);
    }
  }

  /** The two buffers hold the same bytes from `lo` to `hi`. */
  predicate Same(a: seq<byte>, b: seq<byte>, lo: nat, hi: nat) {
    lo <= hi <= |a| && hi <= |b| && a[lo..hi] == b[lo..hi]
  }

  lemma SameJoin(a: seq<byte>, b: seq<byte>, lo: nat, mid: nat, hi: nat)
    requires Same(a, b, lo, mid) && Same(a, b, mid, hi)
    ensures Same(a, b, lo, hi)
  {
    assert a[lo..hi] == a[lo..mid] + a[mid..hi];
    assert b[lo..hi] == b[lo..mid] + b[mid..hi];
  }

  lemma SameByte(a: seq<byte>, b: seq<byte>, at: nat)
    requires at < |a| && at < |b| && a[at] == b[at]
    ensures Same(a, b, at, at + 1)
  {
    assert a[at..at + 1] == [a[at]];
    assert b[at..at + 1] == [b[at]];
  }

  lemma SamePair(a: seq<byte>, b: seq<byte>, at: nat)
    requires at + 1 < |a| && at + 1 < |b| && a[at] == b[at] && a[at + 1] == b[at + 1]
    ensures Same(a, b, at, at + 2)
  {
    SameByte(a, b, at);
    SameByte(a, b, at + 1);
    SameJoin(a, b, at, at + 1, at + 2);
  }

  lemma {:induction false} SameThrough(a: seq<byte>, b: seq<byte>, bounds: seq<nat>, k: nat)
    requires k < |bounds| && bounds[0] <= |a| && bounds[0] <= |b|
    requires forall i :: 0 <= i < k ==> Same(a, b, bounds[i], bounds[i + 1])
    ensures Same(a, b, bounds[0], bounds[k])
  {
    if k > 0 {
      SameThrough(a, b, bounds, k - 1);
      SameJoin(a, b, bounds[0], bounds[k - 1], bounds[k]);
    }
  }

  lemma SubSlice(data: seq<byte>, offset: nat, n: nat, i: nat, j: nat)
    requires i <= j <= n && offset + n <= |data|
    ensures data[offset..offset + n][i..j] == data[offset + i..offset + j]
  {
    var part, whole := data[offset..offset + n][i..j], data[offset + i..offset + j];
    forall k | 0 <= k < j - i
      ensures part[k] == whole[k]
    {
    }
  }

  // ----- Masks and enums: one byte each -----

  function BitsValue(bits: seq<bool>): nat {
    if bits == [] then 0 else (if bits[0] then 1 else 0) + 2 * BitsValue(bits[1..])
  }

  function BitsOf(value: nat, n: nat): (bits: seq<bool>)
    ensures |bits| == n
  {
    if n == 0 then [] else [value % 2 == 1] + BitsOf(value / 2, n - 1)
  }

  function Pow2(n: nat): nat {
    if n == 0 then 1 else 2 * Pow2(n - 1)
  }

  lemma {:induction false} BitsOfValue(bits: seq<bool>)
    ensures BitsValue(bits) < Pow2(|bits|) && BitsOf(BitsValue(bits), |bits|) == bits
  {
    if bits != [] {
      BitsOfValue(bits[1..]);
      assert bits == [bits[0]] + bits[1..];
    }
  }

  lemma {:induction false} ValueOfBits(value: nat, n: nat)
    requires value < Pow2(n)
    ensures BitsValue(BitsOf(value, n)) == value
  {
    if n > 0 {
      ValueOfBits(value / 2, n - 1);
      assert BitsOf(value, n)[1..] == BitsOf(value / 2, n - 1);
    }
  }

  type Octet = s: seq<bool> | |s| == 8 witness [false, false, false, false, false, false, false, false]

  function Unpack(mask: bv8): Octet {
    [Has(mask, 0), Has(mask, 1), Has(mask, 2), Has(mask, 3), Has(mask, 4), Has(mask, 5), Has(mask, 6), Has(mask, 7)]
  }

  function Chosen(on: bool, index: nat): bv8
    requires index < 8
  {
    if on then Bit(index) else 0
  }

  function Pack(bits: Octet): bv8 {
    Chosen(bits[0], 0) | Chosen(bits[1], 1) | Chosen(bits[2], 2) | Chosen(bits[3], 3)
    | Chosen(bits[4], 4) | Chosen(bits[5], 5) | Chosen(bits[6], 6) | Chosen(bits[7], 7)
  }

  lemma HasPack(bits: Octet, index: nat)
    requires index < 8
    ensures Has(Pack(bits), index) == bits[index]
  {
  }

  lemma PackUnpack(mask: bv8, bits: Octet)
    ensures Pack(Unpack(mask)) == mask
    ensures Unpack(Pack(bits)) == bits
  {
    hide Pack, Has;
    forall i: nat | i < 8
      ensures Has(Pack(Unpack(mask)), i) == Has(mask, i)
      ensures Unpack(Pack(bits))[i] == bits[i]
    {
      HasPack(Unpack(mask), i);
      HasPack(bits, i);
    }
    MaskExtensional(Pack(Unpack(mask)), mask);
  }

  lemma Pow2Eight()
    ensures Pow2(8) == 256
  {
    assert Pow2(4) == 16;
  }

  function MaskByte(mask: bv8): byte {
    BitsOfValue(Unpack(mask));
    Pow2Eight();
    BitsValue(Unpack(mask))
  }

  function ByteMask(b: byte): bv8 {
    Pack(BitsOf(b, 8))
  }

  lemma MaskBytes(mask: bv8, b: byte)
    ensures ByteMask(MaskByte(mask)) == mask
    ensures MaskByte(ByteMask(b)) == b
  {
    Pow2Eight();
    BitsOfValue(Unpack(mask));
    ValueOfBits(b, 8);
    PackUnpack(mask, BitsOf(b, 8));
    hide Pack, Unpack;
  }

  lemma ByteOfMask(b: byte)
    ensures MaskByte(ByteMask(b)) == b
  {
    MaskBytes(0, b);
  }

  function StatusByte(status: CoreStatus): byte {
    match status
    case Funding => 0 case Active => 1 case Settled => 2 case Returning => 3
    case Complete => 4 case Cancelled => 5 case Closed => 6
  }

  function StatusAt(b: byte): Option<CoreStatus> {
    if b == 0 then Some(Funding) else if b == 1 then Some(Active) else if b == 2 then Some(Settled)
    else if b == 3 then Some(Returning) else if b == 4 then Some(Complete) else if b == 5 then Some(Cancelled)
    else if b == 6 then Some(Closed) else None
  }

  function PhaseByte(phase: LivePhase): byte {
    match phase case Negotiating => 0 case Finalizing => 1 case Finalized => 2
  }

  function PhaseAt(b: byte): Option<LivePhase> {
    if b == 0 then Some(Negotiating) else if b == 1 then Some(Finalizing) else if b == 2 then Some(Finalized) else None
  }

  function CycleAt(b: byte): Option<Cycle> {
    if b == 0 then Some(Forward) else if b == 1 then Some(Reverse) else None
  }

  function ActionByte(action: LiveAction): byte {
    match action
    case Initialized => 0 case Proposed => 1 case Locked => 2 case Revoked => 3 case FinalizedAction => 4
  }

  function ActionAt(b: byte): Option<LiveAction> {
    if b == 0 then Some(Initialized) else if b == 1 then Some(Proposed) else if b == 2 then Some(Locked)
    else if b == 3 then Some(Revoked) else if b == 4 then Some(FinalizedAction) else None
  }

  lemma EnumBytes(status: CoreStatus, cycle: Cycle, phase: LivePhase, action: LiveAction)
    ensures StatusAt(StatusByte(status)) == Some(status) && CycleAt(CycleByte(cycle)) == Some(cycle)
    ensures PhaseAt(PhaseByte(phase)) == Some(phase) && ActionAt(ActionByte(action)) == Some(action)
  {
  }

  lemma KnownBytes(b: byte)
    ensures StatusAt(b).Some? ==> StatusByte(StatusAt(b).value) == b
    ensures CycleAt(b).Some? ==> CycleByte(CycleAt(b).value) == b
    ensures PhaseAt(b).Some? ==> PhaseByte(PhaseAt(b).value) == b
    ensures ActionAt(b).Some? ==> ActionByte(ActionAt(b).value) == b
  {
  }

  // ----- Keys, integers and arrays of three -----

  function KeyAt(data: seq<byte>, offset: nat): Key
    requires offset + 32 <= |data|
  {
    Key(data[offset..offset + 32])
  }

  function U64At(data: seq<byte>, offset: nat): u64
    requires offset + 8 <= |data|
  {
    U64Value(data[offset..offset + 8])
  }

  function I64At(data: seq<byte>, offset: nat): i64
    requires offset + 8 <= |data|
  {
    I64Value(data[offset..offset + 8])
  }

  function TrioBytes(keys: Trio): (b: seq<byte>)
    ensures |b| == 96
  {
    keys[0].bytes + keys[1].bytes + keys[2].bytes
  }

  function TrioAt(data: seq<byte>, offset: nat): Trio
    requires offset + 96 <= |data|
  {
    [KeyAt(data, offset), KeyAt(data, offset + 32), KeyAt(data, offset + 64)]
  }

  function RevisionsBytes(revisions: Revisions): (b: seq<byte>)
    ensures |b| == 24
  {
    U64Bytes(revisions[0]) + U64Bytes(revisions[1]) + U64Bytes(revisions[2])
  }

  function RevisionsAt(data: seq<byte>, offset: nat): Revisions
    requires offset + 24 <= |data|
  {
    [U64At(data, offset), U64At(data, offset + 8), U64At(data, offset + 16)]
  }

  function HashesBytes(hashes: Hashes): (b: seq<byte>)
    ensures |b| == 96
  {
    hashes[0].bytes + hashes[1].bytes + hashes[2].bytes
  }

  function HashesAt(data: seq<byte>, offset: nat): Hashes
    requires offset + 96 <= |data|
  {
    [Hash(data[offset..offset + 32]), Hash(data[offset + 32..offset + 64]), Hash(data[offset + 64..offset + 96])]
  }

  function TripleAt(data: seq<byte>, offset: nat): Bytes3
    requires offset + 3 <= |data|
  {
    [data[offset], data[offset + 1], data[offset + 2]]
  }

  /** Three equal parts of a slice. */
  lemma Thirds(data: seq<byte>, offset: nat, n: nat)
    requires offset + 3 * n <= |data|
    ensures var part := data[offset..offset + 3 * n];
      && part[..n] == data[offset..offset + n] && part[n..2 * n] == data[offset + n..offset + 2 * n]
      && part[2 * n..] == data[offset + 2 * n..offset + 3 * n]
      && part == data[offset..offset + n] + data[offset + n..offset + 2 * n] + data[offset + 2 * n..offset + 3 * n]
  {
    SubSlice(data, offset, 3 * n, 0, n);
    SubSlice(data, offset, 3 * n, n, 2 * n);
    SubSlice(data, offset, 3 * n, 2 * n, 3 * n);
  }

  lemma ThreeOf(a: seq<byte>, b: seq<byte>, c: seq<byte>, n: nat)
    requires |a| == |b| == |c| == n
    ensures var d := a + b + c; d[..n] == a && d[n..2 * n] == b && d[2 * n..] == c
  {
  }

  lemma TrioAtBytes(data: seq<byte>, offset: nat, keys: Trio)
    requires offset + 96 <= |data|
    ensures data[offset..offset + 96] == TrioBytes(keys) ==> TrioAt(data, offset) == keys
    ensures TrioBytes(TrioAt(data, offset)) == data[offset..offset + 96]
  {
    Thirds(data, offset, 32);
    ThreeOf(keys[0].bytes, keys[1].bytes, keys[2].bytes, 32);
    if data[offset..offset + 96] == TrioBytes(keys) {
      assert KeyAt(data, offset) == keys[0] && KeyAt(data, offset + 32) == keys[1]
          && KeyAt(data, offset + 64) == keys[2];
    }
  }

  lemma HashesAtBytes(data: seq<byte>, offset: nat, hashes: Hashes)
    requires offset + 96 <= |data|
    ensures data[offset..offset + 96] == HashesBytes(hashes) ==> HashesAt(data, offset) == hashes
    ensures HashesBytes(HashesAt(data, offset)) == data[offset..offset + 96]
  {
    Thirds(data, offset, 32);
    ThreeOf(hashes[0].bytes, hashes[1].bytes, hashes[2].bytes, 32);
    if data[offset..offset + 96] == HashesBytes(hashes) {
      var at := HashesAt(data, offset);
      assert at[0] == hashes[0] && at[1] == hashes[1] && at[2] == hashes[2];
    }
  }

  lemma U64AtBytes(data: seq<byte>, offset: nat, value: u64)
    requires offset + 8 <= |data|
    ensures data[offset..offset + 8] == U64Bytes(value) ==> U64At(data, offset) == value
    ensures U64Bytes(U64At(data, offset)) == data[offset..offset + 8]
  {
    U64RoundTrip(value);
    U64BytesRoundTrip(data[offset..offset + 8]);
  }

  lemma I64AtBytes(data: seq<byte>, offset: nat, value: i64)
    requires offset + 8 <= |data|
    ensures data[offset..offset + 8] == I64Bytes(value) ==> I64At(data, offset) == value
    ensures I64Bytes(I64At(data, offset)) == data[offset..offset + 8]
  {
    I64RoundTrip(value);
    I64BytesRoundTrip(data[offset..offset + 8]);
  }

  lemma RevisionsAtBytes(data: seq<byte>, offset: nat, revisions: Revisions)
    requires offset + 24 <= |data|
    ensures data[offset..offset + 24] == RevisionsBytes(revisions) ==> RevisionsAt(data, offset) == revisions
    ensures RevisionsBytes(RevisionsAt(data, offset)) == data[offset..offset + 24]
  {
    Thirds(data, offset, 8);
    ThreeOf(U64Bytes(revisions[0]), U64Bytes(revisions[1]), U64Bytes(revisions[2]), 8);
    U64AtBytes(data, offset, revisions[0]);
    U64AtBytes(data, offset + 8, revisions[1]);
    U64AtBytes(data, offset + 16, revisions[2]);
    hide U64At, U64Bytes;
  }

  // ----- An asset record: 169 bytes -----

  function AssetBytes(a: AssetRecord): (b: seq<byte>)
    ensures |b| == 169
  {
    a.mint.bytes + a.vault.bytes + a.originalOwner.bytes + a.originalAta.bytes + a.finalAta.bytes
      + I64Bytes(a.depositedAt)
    + [MaskByte(a.flags)]
  }

  function DecodeAsset(data: seq<byte>, offset: nat): AssetRecord
    requires offset + 169 <= |data|
  {
    AssetRecord(KeyAt(data, offset), KeyAt(data, offset + 32), KeyAt(data, offset + 64), KeyAt(data, offset + 96),
                KeyAt(data, offset + 128), I64At(data, offset + 160), ByteMask(data[offset + 168]))
  }

  lemma AssetCuts(a: AssetRecord)
    ensures var b := AssetBytes(a);
      && b[0..32] == a.mint.bytes && b[32..64] == a.vault.bytes && b[64..96] == a.originalOwner.bytes
      && b[96..128] == a.originalAta.bytes && b[128..160] == a.finalAta.bytes && b[160..168] == I64Bytes(a.depositedAt)
      && b[168] == MaskByte(a.flags)
  {
    hide I64Bytes, MaskByte;
  }

  lemma ShiftedAsset(data: seq<byte>, offset: nat)
    requires offset + 169 <= |data|
    ensures DecodeAsset(data, offset) == DecodeAsset(data[offset..offset + 169], 0)
  {
    hide I64Value, ByteMask;
    SubSlice(data, offset, 169, 0, 32);
    SubSlice(data, offset, 169, 32, 64);
    SubSlice(data, offset, 169, 64, 96);
    SubSlice(data, offset, 169, 96, 128);
    SubSlice(data, offset, 169, 128, 160);
    SubSlice(data, offset, 169, 160, 168);
  }

  lemma DecodeEncodeAsset(a: AssetRecord)
    ensures DecodeAsset(AssetBytes(a), 0) == a
  {
    AssetCuts(a);
    I64AtBytes(AssetBytes(a), 160, a.depositedAt);
    MaskBytes(a.flags, 0);
    hide AssetBytes, I64At, I64Bytes, MaskByte, ByteMask;
  }

  lemma EncodeDecodeAsset(data: seq<byte>)
    requires |data| == 169
    ensures AssetBytes(DecodeAsset(data, 0)) == data
  {
    var b := AssetBytes(DecodeAsset(data, 0));
    AssetCuts(DecodeAsset(data, 0));
    I64AtBytes(data, 160, 0);
    ByteOfMask(data[168]);
    hide AssetBytes, I64At, I64Bytes, MaskByte, ByteMask;
    var bounds: seq<nat> := [0, 32, 64, 96, 128, 160, 168, 169];
    SameByte(b, data, 168);
    SameThrough(b, data, bounds, 7);
    assert b == b[0..169] && data == data[0..169];
  }

  function AssetPart(b: seq<byte>, slot: nat): (part: seq<byte>)
    requires |b| == 1014 && slot < 6
    ensures |part| == 169
  {
    b[169 * slot..169 * slot + 169]
  }

  /** The six records, one after the other. */
  function AssetsBytes(assets: Assets): (b: seq<byte>)
    ensures |b| == 1014
    ensures forall slot: nat :: slot < 6 ==> AssetPart(b, slot) == AssetBytes(assets[slot])
  {
    hide AssetBytes;
    AssetBytes(assets[0]) + AssetBytes(assets[1]) + AssetBytes(assets[2])
      + AssetBytes(assets[3]) + AssetBytes(assets[4]) + AssetBytes(assets[5])
  }

  function DecodeAssets(data: seq<byte>): Assets
    requires |data| >= 1194
  {
    seq(6, slot requires 0 <= slot < 6 => DecodeAsset(data, 180 + slot * 169))
  }

  lemma PartOf(data: seq<byte>, slot: nat)
    requires |data| >= 1194 && slot < 6
    ensures AssetPart(data[180..1194], slot) == data[180 + slot * 169..180 + slot * 169 + 169]
  {
    SubSlice(data, 180, 1014, 169 * slot, 169 * slot + 169);
  }

  lemma SixParts(a: seq<byte>, b: seq<byte>)
    requires |a| == |b| == 1014 && forall slot: nat :: slot < 6 ==> AssetPart(a, slot) == AssetPart(b, slot)
    ensures a == b
  {
    forall i | 0 <= i < 1014
      ensures a[i] == b[i]
    {
      var slot := i / 169;
      assert a[i] == AssetPart(a, slot)[i - 169 * slot];
      assert b[i] == AssetPart(b, slot)[i - 169 * slot];
    }
  }

  lemma DecodeEncodeAssets(assets: Assets, data: seq<byte>)
    requires |data| >= 1194 && data[180..1194] == AssetsBytes(assets)
    ensures DecodeAssets(data) == assets
  {
    hide AssetsBytes, AssetBytes, AssetPart, DecodeAsset;
    forall slot: nat | slot < 6
      ensures DecodeAsset(data, 180 + slot * 169) == assets[slot]
    {
      ShiftedAsset(data, 180 + slot * 169);
      PartOf(data, slot);
      DecodeEncodeAsset(assets[slot]);
    }
  }

  lemma EncodeDecodeAssetAt(data: seq<byte>, offset: nat)
    requires offset + 169 <= |data|
    ensures AssetBytes(DecodeAsset(data, offset)) == data[offset..offset + 169]
  {
    hide DecodeAsset;
    ShiftedAsset(data, offset);
    EncodeDecodeAsset(data[offset..offset + 169]);
  }

  lemma EncodeDecodeAssets(data: seq<byte>)
    requires |data| >= 1194
    ensures AssetsBytes(DecodeAssets(data)) == data[180..1194]
  {
    var assets := DecodeAssets(data);
    var b := AssetsBytes(assets);
    forall slot: nat | slot < 6
      ensures AssetPart(b, slot) == AssetPart(data[180..1194], slot)
    {
      assert assets[slot] == DecodeAsset(data, 180 + slot * 169);
      hide AssetsBytes, AssetBytes, DecodeAsset, AssetPart, DecodeAssets;
      EncodeDecodeAssetAt(data, 180 + slot * 169);
      PartOf(data, slot);
    }
    SixParts(b, data[180..1194]);
  }

  // ----- RoomCore: 1350 bytes -----

  const CORE_SIZE := 1350
  const CORE_DISCRIMINATOR: seq<byte> := [159, 7, 60, 81, 143, 33, 177, 65]

  function CoreFields(c: RoomCore): (f: seq<seq<byte>>)
    ensures |f| == 20
  {
    [CORE_DISCRIMINATOR, [c.version], [c.coreBump], [c.liveBump], [c.vaultAuthorityBump], c.creator.bytes,
     U64Bytes(c.roomNonce), TrioBytes(c.participants), c.liveRoom.bytes, AssetsBytes(c.assets),
     [MaskByte(c.depositedMask)], [MaskByte(c.returnedMask)], [MaskByte(c.selectedMask)], [StatusByte(c.status)],
     I64Bytes(c.createdAt), I64Bytes(c.expiresAt), U64Bytes(c.settledRevision), c.allocationHash.bytes,
     c.rentPayer.bytes, c.reserved]
  }

  function EncodeRoomCore(c: RoomCore): seq<byte> {
    Join(CoreFields(c))
  }

  function DecodeRoomCore(data: seq<byte>): Option<RoomCore> {
    if |data| < CORE_SIZE || data[..8] != CORE_DISCRIMINATOR || data[8] != 1 then None
    else
      var status := StatusAt(data[1197]);
      if status.None? then None
      else Some(RoomCore(
        data[8], data[9], data[10], data[11], KeyAt(data, 12), U64At(data, 44), TrioAt(data, 52), KeyAt(data, 148),
        DecodeAssets(data), ByteMask(data[1194]), ByteMask(data[1195]), ByteMask(data[1196]), status.value,
        I64At(data, 1198), I64At(data, 1206), U64At(data, 1214), Hash(data[1222..1254]), KeyAt(data, 1254),
        data[1286..1350]))
  }

  lemma CoreOffsets(c: RoomCore)
    ensures var f := CoreFields(c);
      && Offset(f, 0) == 0 && Offset(f, 1) == 8 && Offset(f, 2) == 9 && Offset(f, 3) == 10 && Offset(f, 4) == 11
      && Offset(f, 5) == 12 && Offset(f, 6) == 44 && Offset(f, 7) == 52 && Offset(f, 8) == 148
      && Offset(f, 9) == 180 && Offset(f, 10) == 1194 && Offset(f, 11) == 1195 && Offset(f, 12) == 1196
      && Offset(f, 13) == 1197 && Offset(f, 14) == 1198 && Offset(f, 15) == 1206 && Offset(f, 16) == 1214
      && Offset(f, 17) == 1222 && Offset(f, 18) == 1254 && Offset(f, 19) == 1286 && Offset(f, 20) == 1350
  {
    var f := CoreFields(c);
    hide MaskByte, StatusByte, I64Bytes, U64Bytes, TrioBytes, AssetsBytes;
    assert Offset(f, 0) == 0; assert Offset(f, 1) == 8; assert Offset(f, 2) == 9; assert Offset(f, 3) == 10;
    assert Offset(f, 4) == 11; assert Offset(f, 5) == 12; assert Offset(f, 6) == 44;
    assert Offset(f, 7) == 52; assert Offset(f, 8) == 148; assert Offset(f, 9) == 180;
    assert Offset(f, 10) == 1194; assert Offset(f, 11) == 1195; assert Offset(f, 12) == 1196;
    assert Offset(f, 13) == 1197; assert Offset(f, 14) == 1198; assert Offset(f, 15) == 1206;
    assert Offset(f, 16) == 1214; assert Offset(f, 17) == 1222; assert Offset(f, 18) == 1254;
    assert Offset(f, 19) == 1286; assert Offset(f, 20) == 1350;
  }

  /** Where the program's fields lie in the buffer. */
  lemma CoreCuts(c: RoomCore)
    ensures var d := EncodeRoomCore(c);
      && |d| == 1350 && d[..8] == CORE_DISCRIMINATOR && d[8] == c.version && d[9] == c.coreBump && d[10] == c.liveBump
      && d[11] == c.vaultAuthorityBump && d[12..44] == c.creator.bytes && d[44..52] == U64Bytes(c.roomNonce)
      && d[52..148] == TrioBytes(c.participants) && d[148..180] == c.liveRoom.bytes
         && d[180..1194] == AssetsBytes(c.assets)
      && d[1194] == MaskByte(c.depositedMask) && d[1195] == MaskByte(c.returnedMask)
         && d[1196] == MaskByte(c.selectedMask)
      && d[1197] == StatusByte(c.status) && d[1198..1206] == I64Bytes(c.createdAt)
         && d[1206..1214] == I64Bytes(c.expiresAt)
      && d[1214..1222] == U64Bytes(c.settledRevision) && d[1222..1254] == c.allocationHash.bytes
      && d[1254..1286] == c.rentPayer.bytes && d[1286..1350] == c.reserved
  {
    var f, d := CoreFields(c), EncodeRoomCore(c);
    CoreOffsets(c);
    FieldsAt(f);
    hide Join, Offset, TrioBytes, AssetsBytes, U64Bytes, I64Bytes, MaskByte, StatusByte;
    assert d[0..8] == f[0] && d[12..44] == f[5] && d[44..52] == f[6] && d[52..148] == f[7] && d[148..180] == f[8];
    assert d[180..1194] == f[9] && d[1198..1206] == f[14] && d[1206..1214] == f[15] && d[1214..1222] == f[16];
    assert d[1222..1254] == f[17] && d[1254..1286] == f[18] && d[1286..1350] == f[19];
    assert d[8..9] == f[1] && d[9..10] == f[2] && d[10..11] == f[3] && d[11..12] == f[4];
    assert d[1194..1195] == f[10] && d[1195..1196] == f[11] && d[1196..1197] == f[12] && d[1197..1198] == f[13];
    assert d[8] == d[8..9][0] && d[9] == d[9..10][0] && d[10] == d[10..11][0] && d[11] == d[11..12][0];
    assert d[1194] == d[1194..1195][0] && d[1195] == d[1195..1196][0] && d[1196] == d[1196..1197][0]
        && d[1197] == d[1197..1198][0];
  }

  /** The client reads back the record the program wrote, unless the program ever wrote another version. */
  lemma DecodeEncodeCore(c: RoomCore)
    ensures DecodeRoomCore(EncodeRoomCore(c)) == if c.version == 1 then Some(c) else None
  {
    hide EncodeRoomCore, DecodeAssets, AssetsBytes, TrioAt, TrioBytes, I64Bytes, I64At, U64Bytes, U64At, MaskByte,
         ByteMask, StatusAt, StatusByte;
    var d := EncodeRoomCore(c);
    CoreCuts(c);
    U64AtBytes(d, 44, c.roomNonce);
    U64AtBytes(d, 1214, c.settledRevision);
    I64AtBytes(d, 1198, c.createdAt);
    I64AtBytes(d, 1206, c.expiresAt);
    TrioAtBytes(d, 52, c.participants);
    MaskBytes(c.depositedMask, 0);
    MaskBytes(c.returnedMask, 0);
    MaskBytes(c.selectedMask, 0);
    EnumBytes(c.status, Forward, Negotiating, Initialized);
    DecodeEncodeAssets(c.assets, d);
  }

  lemma CoreHeadSame(data: seq<byte>)
    requires DecodeRoomCore(data).Some?
    ensures var d := EncodeRoomCore(DecodeRoomCore(data).value);
      Same(d, data, 0, 8) && Same(d, data, 8, 10) && Same(d, data, 10, 12) && Same(d, data, 12, 44)
        && Same(d, data, 44, 52)
      && Same(d, data, 52, 148) && Same(d, data, 148, 180) && Same(d, data, 180, 1194)
  {
    var c := DecodeRoomCore(data).value;
    var d := EncodeRoomCore(c);
    CoreCuts(c);
    U64AtBytes(data, 44, 0);
    TrioAtBytes(data, 52, c.participants);
    EncodeDecodeAssets(data);
    hide EncodeRoomCore, DecodeAssets, AssetsBytes, TrioAt, TrioBytes, I64Bytes, I64At, U64Bytes, U64At, MaskByte,
         ByteMask, StatusAt, StatusByte;
    SamePair(d, data, 8);
    SamePair(d, data, 10);
  }

  lemma DecodedMasks(data: seq<byte>)
    requires DecodeRoomCore(data).Some?
    ensures var c := DecodeRoomCore(data).value;
      && |data| >= 1350 && c.depositedMask == ByteMask(data[1194]) && c.returnedMask == ByteMask(data[1195])
      && c.selectedMask == ByteMask(data[1196]) && StatusAt(data[1197]) == Some(c.status)
  {
    hide ByteMask, StatusAt, DecodeAssets, TrioAt, I64At, U64At, KeyAt;
  }

  lemma CoreMaskCuts(c: RoomCore)
    ensures var d := EncodeRoomCore(c);
      && |d| == 1350 && d[1194] == MaskByte(c.depositedMask) && d[1195] == MaskByte(c.returnedMask)
      && d[1196] == MaskByte(c.selectedMask) && d[1197] == StatusByte(c.status)
  {
    hide EncodeRoomCore, MaskByte, StatusByte, AssetsBytes, TrioBytes, I64Bytes, U64Bytes;
    CoreCuts(c);
  }

  lemma CoreMaskBytes(data: seq<byte>)
    requires DecodeRoomCore(data).Some?
    ensures var d := EncodeRoomCore(DecodeRoomCore(data).value);
      && |d| == 1350 <= |data| && d[1194] == data[1194] && d[1195] == data[1195] && d[1196] == data[1196]
         && d[1197] == data[1197]
  {
    CoreMaskCuts(DecodeRoomCore(data).value);
    DecodedMasks(data);
    hide EncodeRoomCore, DecodeRoomCore, MaskByte, ByteMask, StatusAt, StatusByte;
    ByteOfMask(data[1194]);
    ByteOfMask(data[1195]);
    ByteOfMask(data[1196]);
    KnownBytes(data[1197]);
  }

  lemma CoreMasksSame(data: seq<byte>)
    requires DecodeRoomCore(data).Some?
    ensures var d := EncodeRoomCore(DecodeRoomCore(data).value);
      |d| == 1350 && Same(d, data, 1194, 1196) && Same(d, data, 1196, 1198)
  {
    CoreMaskBytes(data);
    hide EncodeRoomCore, DecodeRoomCore, Same;
    SamePair(EncodeRoomCore(DecodeRoomCore(data).value), data, 1194);
    SamePair(EncodeRoomCore(DecodeRoomCore(data).value), data, 1196);
  }

  lemma CoreTailSame(data: seq<byte>)
    requires DecodeRoomCore(data).Some?
    ensures var d := EncodeRoomCore(DecodeRoomCore(data).value);
      Same(d, data, 1198, 1206) && Same(d, data, 1206, 1214) && Same(d, data, 1214, 1222) && Same(d, data, 1222, 1254)
      && Same(d, data, 1254, 1286) && Same(d, data, 1286, 1350)
  {
    var c := DecodeRoomCore(data).value;
    var d := EncodeRoomCore(c);
    CoreCuts(c);
    U64AtBytes(data, 1214, 0);
    I64AtBytes(data, 1198, 0);
    I64AtBytes(data, 1206, 0);
    hide EncodeRoomCore, DecodeAssets, AssetsBytes, TrioAt, TrioBytes, I64Bytes, I64At, U64Bytes, U64At, MaskByte,
         ByteMask, StatusAt, StatusByte;
  }

  /** A buffer the client accepts starts with exactly the bytes the program writes for the record it read. */
  lemma EncodeDecodeCore(data: seq<byte>)
    requires DecodeRoomCore(data).Some?
    ensures EncodeRoomCore(DecodeRoomCore(data).value) == data[..1350]
  {
    hide EncodeRoomCore, DecodeRoomCore, Same;
    CoreHeadSame(data);
    CoreMasksSame(data);
    CoreTailSame(data);
    var d := EncodeRoomCore(DecodeRoomCore(data).value);
    var bounds: seq<nat> := [0, 8, 10, 12, 44, 52, 148, 180, 1194, 1196, 1198, 1206, 1214, 1222, 1254, 1286, 1350];
    SameThrough(d, data, bounds, 16);
    WholeSame(d, data);
  }

  lemma WholeSame(d: seq<byte>, data: seq<byte>)
    requires Same(d, data, 0, |d|)
    ensures d == data[..|d|]
  {
  }

  // ----- RoomLive: 420 bytes -----

  const LIVE_SIZE := 420
  const LIVE_DISCRIMINATOR: seq<byte> := [245, 92, 71, 83, 30, 246, 85, 29]

  function LiveFields(l: RoomLive): (f: seq<seq<byte>>)
    ensures |f| == 19
  {
    [LIVE_DISCRIMINATOR, [l.version], [l.bump], l.core.bytes, TrioBytes(l.participants), I64Bytes(l.expiresAt),
     U64Bytes(l.revision), l.selectedSlots, [CycleByte(l.cycle)], l.destinations, l.allocationHash.bytes,
     RevisionsBytes(l.lockedRevision), HashesBytes(l.lockedHash), [MaskByte(l.lockMask)], [PhaseByte(l.phase)],
     l.lastActor.bytes, [ActionByte(l.lastAction)], I64Bytes(l.updatedAt), l.reserved]
  }

  function EncodeRoomLive(l: RoomLive): seq<byte> {
    Join(LiveFields(l))
  }

  function DecodeRoomLive(data: seq<byte>): Option<RoomLive> {
    if |data| < LIVE_SIZE || data[..8] != LIVE_DISCRIMINATOR || data[8] != 1 then None
    else
      var cycle, phase, action := CycleAt(data[157]), PhaseAt(data[314]), ActionAt(data[347]);
      if cycle.None? || phase.None? || action.None? then None
      else Some(RoomLive(
        data[8], data[9], KeyAt(data, 10), TrioAt(data, 42), I64At(data, 138), U64At(data, 146), TripleAt(data, 154),
        cycle.value,
        TripleAt(data, 158), Hash(data[161..193]), RevisionsAt(data, 193), HashesAt(data, 217),
        ByteMask(data[313]), phase.value, KeyAt(data, 315), action.value, I64At(data, 348), data[356..420]))
  }

  lemma LiveOffsets(l: RoomLive)
    ensures var f := LiveFields(l);
      && Offset(f, 0) == 0 && Offset(f, 1) == 8 && Offset(f, 2) == 9 && Offset(f, 3) == 10 && Offset(f, 4) == 42
      && Offset(f, 5) == 138 && Offset(f, 6) == 146 && Offset(f, 7) == 154 && Offset(f, 8) == 157
      && Offset(f, 9) == 158 && Offset(f, 10) == 161 && Offset(f, 11) == 193 && Offset(f, 12) == 217
      && Offset(f, 13) == 313 && Offset(f, 14) == 314 && Offset(f, 15) == 315 && Offset(f, 16) == 347
      && Offset(f, 17) == 348 && Offset(f, 18) == 356 && Offset(f, 19) == 420
  {
    var f := LiveFields(l);
    hide MaskByte, PhaseByte, ActionByte, CycleByte, I64Bytes, U64Bytes, TrioBytes, HashesBytes, RevisionsBytes;
    assert Offset(f, 0) == 0; assert Offset(f, 1) == 8; assert Offset(f, 2) == 9; assert Offset(f, 3) == 10;
    assert Offset(f, 4) == 42; assert Offset(f, 5) == 138; assert Offset(f, 6) == 146;
    assert Offset(f, 7) == 154; assert Offset(f, 8) == 157; assert Offset(f, 9) == 158;
    assert Offset(f, 10) == 161; assert Offset(f, 11) == 193; assert Offset(f, 12) == 217;
    assert Offset(f, 13) == 313; assert Offset(f, 14) == 314; assert Offset(f, 15) == 315;
    assert Offset(f, 16) == 347; assert Offset(f, 17) == 348; assert Offset(f, 18) == 356;
    assert Offset(f, 19) == 420;
  }

  lemma LiveCuts(l: RoomLive)
    ensures var d := EncodeRoomLive(l);
      && |d| == 420 && d[..8] == LIVE_DISCRIMINATOR && d[8] == l.version && d[9] == l.bump && d[10..42] == l.core.bytes
      && d[42..138] == TrioBytes(l.participants) && d[138..146] == I64Bytes(l.expiresAt)
         && d[146..154] == U64Bytes(l.revision)
      && d[154..157] == l.selectedSlots && d[157] == CycleByte(l.cycle) && d[158..161] == l.destinations
      && d[161..193] == l.allocationHash.bytes && d[193..217] == RevisionsBytes(l.lockedRevision)
      && d[217..313] == HashesBytes(l.lockedHash) && d[313] == MaskByte(l.lockMask) && d[314] == PhaseByte(l.phase)
      && d[315..347] == l.lastActor.bytes && d[347] == ActionByte(l.lastAction) && d[348..356] == I64Bytes(l.updatedAt)
      && d[356..420] == l.reserved
  {
    var f, d := LiveFields(l), EncodeRoomLive(l);
    LiveOffsets(l);
    FieldsAt(f);
    hide Join, Offset, TrioBytes, HashesBytes, RevisionsBytes, U64Bytes, I64Bytes, MaskByte, CycleByte, PhaseByte,
         ActionByte;
    assert d[0..8] == f[0] && d[10..42] == f[3] && d[42..138] == f[4] && d[138..146] == f[5] && d[146..154] == f[6];
    assert d[154..157] == f[7] && d[158..161] == f[9] && d[161..193] == f[10] && d[193..217] == f[11]
        && d[217..313] == f[12];
    assert d[315..347] == f[15] && d[348..356] == f[17] && d[356..420] == f[18];
    assert d[8..9] == f[1] && d[9..10] == f[2] && d[157..158] == f[8] && d[313..314] == f[13] && d[314..315] == f[14];
    assert d[347..348] == f[16];
    assert d[8] == d[8..9][0] && d[9] == d[9..10][0] && d[157] == d[157..158][0] && d[313] == d[313..314][0];
    assert d[314] == d[314..315][0] && d[347] == d[347..348][0];
  }

  lemma TripleAtBytes(data: seq<byte>, offset: nat)
    requires offset + 3 <= |data|
    ensures TripleAt(data, offset) == data[offset..offset + 3]
  {
  }

  lemma DecodeEncodeLive(l: RoomLive)
    ensures DecodeRoomLive(EncodeRoomLive(l)) == if l.version == 1 then Some(l) else None
  {
    hide EncodeRoomLive, TrioAt, TrioBytes, HashesAt, HashesBytes, RevisionsAt, RevisionsBytes, TripleAt, I64Bytes,
         I64At, U64Bytes, U64At, MaskByte, ByteMask, CycleAt, CycleByte, PhaseAt, PhaseByte, ActionAt, ActionByte;
    var d := EncodeRoomLive(l);
    LiveCuts(l);
    I64AtBytes(d, 138, l.expiresAt);
    I64AtBytes(d, 348, l.updatedAt);
    U64AtBytes(d, 146, l.revision);
    TrioAtBytes(d, 42, l.participants);
    RevisionsAtBytes(d, 193, l.lockedRevision);
    HashesAtBytes(d, 217, l.lockedHash);
    TripleAtBytes(d, 154);
    TripleAtBytes(d, 158);
    MaskBytes(l.lockMask, 0);
    EnumBytes(Funding, l.cycle, l.phase, l.lastAction);
  }

  lemma LiveHeadSame(data: seq<byte>)
    requires DecodeRoomLive(data).Some?
    ensures var d := EncodeRoomLive(DecodeRoomLive(data).value);
      Same(d, data, 0, 8) && Same(d, data, 10, 42) && Same(d, data, 42, 138) && Same(d, data, 138, 146)
      && Same(d, data, 146, 154) && Same(d, data, 154, 157) && Same(d, data, 158, 161) && Same(d, data, 161, 193)
  {
    var l := DecodeRoomLive(data).value;
    LiveCuts(l);
    I64AtBytes(data, 138, 0);
    U64AtBytes(data, 146, 0);
    TrioAtBytes(data, 42, l.participants);
    TripleAtBytes(data, 154);
    TripleAtBytes(data, 158);
    hide EncodeRoomLive, TrioAt, TrioBytes, HashesAt, HashesBytes, RevisionsAt, RevisionsBytes, TripleAt, I64Bytes,
         I64At, U64Bytes, U64At, MaskByte, ByteMask, CycleAt, CycleByte, PhaseAt, PhaseByte, ActionAt, ActionByte;
  }

  lemma LiveBytesSame(data: seq<byte>)
    requires DecodeRoomLive(data).Some?
    ensures var d := EncodeRoomLive(DecodeRoomLive(data).value);
      |d| == 420 && Same(d, data, 8, 10) && Same(d, data, 157, 158) && Same(d, data, 313, 315)
        && Same(d, data, 347, 348)
  {
    hide EncodeRoomLive, TrioAt, TrioBytes, HashesAt, HashesBytes, RevisionsAt, RevisionsBytes, TripleAt, I64Bytes,
         I64At, U64Bytes, U64At, MaskByte, ByteMask, CycleAt, CycleByte, PhaseAt, PhaseByte, ActionAt, ActionByte,
         KeyAt, Same;
    var l := DecodeRoomLive(data).value;
    var d := EncodeRoomLive(l);
    LiveCuts(l);
    ByteOfMask(data[313]);
    KnownBytes(data[157]);
    KnownBytes(data[314]);
    KnownBytes(data[347]);
    SamePair(d, data, 8);
    SameByte(d, data, 157);
    SamePair(d, data, 313);
    SameByte(d, data, 347);
  }

  lemma LiveTailSame(data: seq<byte>)
    requires DecodeRoomLive(data).Some?
    ensures var d := EncodeRoomLive(DecodeRoomLive(data).value);
      Same(d, data, 193, 217) && Same(d, data, 217, 313) && Same(d, data, 315, 347) && Same(d, data, 348, 356)
        && Same(d, data, 356, 420)
  {
    var l := DecodeRoomLive(data).value;
    LiveCuts(l);
    I64AtBytes(data, 348, 0);
    RevisionsAtBytes(data, 193, l.lockedRevision);
    HashesAtBytes(data, 217, l.lockedHash);
    hide EncodeRoomLive, TrioAt, TrioBytes, HashesAt, HashesBytes, RevisionsAt, RevisionsBytes, TripleAt, I64Bytes,
         I64At, U64Bytes, U64At, MaskByte, ByteMask, CycleAt, CycleByte, PhaseAt, PhaseByte, ActionAt, ActionByte;
  }

  lemma EncodeDecodeLive(data: seq<byte>)
    requires DecodeRoomLive(data).Some?
    ensures EncodeRoomLive(DecodeRoomLive(data).value) == data[..420]
  {
    hide EncodeRoomLive, DecodeRoomLive, Same;
    LiveHeadSame(data);
    LiveBytesSame(data);
    LiveTailSame(data);
    var d := EncodeRoomLive(DecodeRoomLive(data).value);
    var bounds: seq<nat> := [0, 8, 10, 42, 138, 146, 154, 157, 158, 161, 193, 217, 313, 315, 347, 348, 356, 420];
    SameThrough(d, data, bounds, 17);
    WholeSame(d, data);
  }

  /** Which buffers the decoders accept: long enough, the right account, version one and known enum bytes. */
  lemma AcceptedBuffers(data: seq<byte>)
    ensures DecodeRoomCore(data).Some? <==>
      |data| >= 1350 && data[..8] == [159, 7, 60, 81, 143, 33, 177, 65] && data[8] == 1 && data[1197] < 7
    ensures DecodeRoomLive(data).Some? <==>
      |data| >= 420 && data[..8] == [245, 92, 71, 83, 30, 246, 85, 29] && data[8] == 1 && data[157] < 2 && data[314] < 3
        && data[347] < 5
  {
    hide DecodeAssets, KeyAt, U64At, I64At, ByteMask, TrioAt, HashesAt, RevisionsAt, TripleAt;
  }
}
