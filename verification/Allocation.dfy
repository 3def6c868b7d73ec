/** Address derivation, the two derangements and the hash that fingerprints a proposed allocation. */
module Allocation {
  import opened Wire
  import opened Records

  /** The derivations a room depends on. Nothing is assumed of them: no injectivity, no collision resistance. */
  datatype Env = Env(
    sha256: seq<byte> -> Hash,
    ata: (Key, Key) -> Key,          // associated token address of (owner, mint)
    roomPda: (Key, u64) -> Key,
    livePda: Key -> Key,
    vaultPda: Key -> Key,
    coreKey: Key)
  {
    function LiveKey(): Key { livePda(coreKey) }

    /** The program-derived signer of the room's vaults. It has no private key. */
    function VaultAuthority(): Key { vaultPda(coreKey) }

    function VaultOf(mint: Key): Key { ata(VaultAuthority(), mint) }
  }

  function DestinationsFor(cycle: Cycle): Bytes3 {
    match cycle
    case Forward => [1, 2, 0]
    case Reverse => [2, 0, 1]
  }

  /** Both cycles are derangements: nobody receives their own asset, and nobody is left out. */
  lemma Derangement(cycle: Cycle)
    ensures forall i :: 0 <= i < 3 ==> DestinationsFor(cycle)[i] < 3 && DestinationsFor(cycle)[i] != i
    ensures forall i, j :: 0 <= i < j < 3 ==> DestinationsFor(cycle)[i] != DestinationsFor(cycle)[j]
  {
    assert cycle.Forward? || cycle.Reverse?;
  }

  function CycleByte(cycle: Cycle): byte {
    if cycle == Forward then 0 else 1
  }

  /** The ASCII bytes of "tradetable-allocation-v1". */
  const TAG: seq<byte> := [
    116, 114, 97, 100, 101, 116, 97, 98, 108, 101, 45,
    97, 108, 108, 111, 99, 97, 116, 105, 111, 110, 45, 118, 49]

  /** `hashv` and `concatBytes` both run over the slices in order. */
  function Join(slices: seq<seq<byte>>): seq<byte> {
    if slices == [] then [] else slices[0] + Join(slices[1..])
  }

  /** The slices the program hashes; its destinations are an argument. */
  function ProgramSlices(core: Key, revision: u64, expiry: i64, slots: Bytes3, cycle: Cycle,
                         destinations: Bytes3): seq<seq<byte>> {
    [TAG, core.bytes, U64Bytes(revision), I64Bytes(expiry), slots, [CycleByte(cycle)], destinations]
  }

  function AllocationHash(env: Env, revision: u64, expiry: i64, slots: Bytes3, cycle: Cycle,
                          destinations: Bytes3): Hash {
    env.sha256(Join(ProgramSlices(env.coreKey, revision, expiry, slots, cycle, destinations)))
  }

  /** The slices `allocationHash` builds for a draft; it derives the destinations from the cycle. */
  function ClientSlices(core: Key, revision: u64, expiry: i64, slots: Bytes3, cycle: Cycle): seq<seq<byte>> {
    [TAG, core.bytes, U64Bytes(revision), I64Bytes(expiry), slots, [if cycle == Forward then 0 else 1],
     if cycle == Forward then [1, 2, 0] else [2, 0, 1]]
  }

  function ClientAllocationHash(env: Env, revision: u64, expiry: i64, slots: Bytes3, cycle: Cycle): Hash {
    env.sha256(Join(ClientSlices(env.coreKey, revision, expiry, slots, cycle)))
  }

  /** The slices `protocolAllocationHash` builds from a decoded live record. */
  function ProjectionSlices(core: Key, live: RoomLive): seq<seq<byte>> {
    [TAG, core.bytes, U64Bytes(live.revision), I64Bytes(live.expiresAt), live.selectedSlots,
     [if live.cycle == Forward then 0 else 1], if live.cycle == Forward then [1, 2, 0] else [2, 0, 1]]
  }

  function ProjectionAllocationHash(env: Env, live: RoomLive): Hash {
    env.sha256(Join(ProjectionSlices(env.coreKey, live)))
  }

  /** The preimage laid out flat: 24 + 32 + 8 + 8 + 3 + 1 + 3 bytes. */
  lemma PreimageLayout(core: Key, revision: u64, expiry: i64, slots: Bytes3, cycle: Cycle, destinations: Bytes3)
    ensures var p := Join(ProgramSlices(core, revision, expiry, slots, cycle, destinations));
      && |p| == 79
      && p[..24] == TAG && p[24..56] == core.bytes && p[56..64] == U64Bytes(revision) && p[64..72] == I64Bytes(expiry)
      && p[72..75] == slots && p[75] == CycleByte(cycle) && p[76..79] == destinations
  {
    var s := ProgramSlices(core, revision, expiry, slots, cycle, destinations);
    assert Join(s[6..]) == destinations by { assert s[6..] == [destinations]; assert Join(s[6..][1..]) == []; }
    var t5 := [CycleByte(cycle)] + destinations;
    assert Join(s[5..]) == t5 by { assert s[5..][1..] == s[6..]; }
    var t4 := slots + t5;
    assert Join(s[4..]) == t4 by { assert s[4..][1..] == s[5..]; }
    var t3 := I64Bytes(expiry) + t4;
    assert Join(s[3..]) == t3 by { assert s[3..][1..] == s[4..]; }
    var t2 := U64Bytes(revision) + t3;
    assert Join(s[2..]) == t2 by { assert s[2..][1..] == s[3..]; }
    var t1 := core.bytes + t2;
    assert Join(s[1..]) == t1 by { assert s[1..][1..] == s[2..]; }
    assert Join(s) == TAG + t1;
  }

  /** Two allocations with the same preimage are the same allocation of the same room. */
  lemma PreimageInjective(
    core: Key, revision: u64, expiry: i64, slots: Bytes3, cycle: Cycle, destinations: Bytes3,
    core': Key, revision': u64, expiry': i64, slots': Bytes3, cycle': Cycle, destinations': Bytes3)
    requires Join(ProgramSlices(core, revision, expiry, slots, cycle, destinations))
          == Join(ProgramSlices(core', revision', expiry', slots', cycle', destinations'))
    ensures core == core' && revision == revision' && expiry == expiry'
    ensures slots == slots' && cycle == cycle' && destinations == destinations'
  {
    PreimageLayout(core, revision, expiry, slots, cycle, destinations);
    PreimageLayout(core', revision', expiry', slots', cycle', destinations');
    U64RoundTrip(revision);
    U64RoundTrip(revision');
    I64RoundTrip(expiry);
    I64RoundTrip(expiry');
  }

  /** The program hashes a live record's own destinations, the client those of its cycle: the preimages agree exactly
      when the record is canonical. */
  lemma BuildersAgree(core: Key, live: RoomLive)
    ensures ProjectionSlices(core, live) == ClientSlices(core, live.revision, live.expiresAt, live.selectedSlots,
                                                         live.cycle)
    ensures Join(ProgramSlices(core, live.revision, live.expiresAt, live.selectedSlots, live.cycle, live.destinations))
            == Join(ProjectionSlices(core, live))
            <==> live.destinations == DestinationsFor(live.cycle)
  {
    var canonical := DestinationsFor(live.cycle);
    assert ProjectionSlices(core, live)
        == ProgramSlices(core, live.revision, live.expiresAt, live.selectedSlots, live.cycle, canonical);
    if Join(ProgramSlices(core, live.revision, live.expiresAt, live.selectedSlots, live.cycle, live.destinations))
       == Join(ProjectionSlices(core, live)) {
      PreimageInjective(core, live.revision, live.expiresAt, live.selectedSlots, live.cycle, live.destinations,
                        core, live.revision, live.expiresAt, live.selectedSlots, live.cycle, canonical);
    }
  }

  /** For a canonical proposal the three hashes are one. */
  lemma HashesAgree(env: Env, live: RoomLive)
    requires live.destinations == DestinationsFor(live.cycle)
    ensures AllocationHash(env, live.revision, live.expiresAt, live.selectedSlots, live.cycle, live.destinations)
         == ProjectionAllocationHash(env, live)
         == ClientAllocationHash(env, live.revision, live.expiresAt, live.selectedSlots, live.cycle)
  {
    BuildersAgree(env.coreKey, live);
  }
}
