/** The account records of the program, in its field order, and its error codes. */
module Records {
  import opened Wire

  datatype CoreStatus = Funding | Active | Settled | Returning | Complete | Cancelled | Closed

  datatype LivePhase = Negotiating | Finalizing | Finalized

  datatype Cycle = Forward | Reverse

  datatype LiveAction = Initialized | Proposed | Locked | Revoked | FinalizedAction

  datatype TradeError =
    | InvalidParticipants | InvalidExpiry | UnauthorizedParticipant | InvalidCoreStatus | SlotOutOfRange
    | SlotAlreadyDeposited | DuplicateMint | InvalidMintPolicy | InvalidSourceAccount | InvalidVault
    | NotFullyFunded | RevisionMismatch | InvalidSelection | InvalidCycle | AllocationHashMismatch
    | AlreadyLocked | NotLocked | DealFrozen | NotFinalizable | CoreLiveMismatch | InvalidDestination
    | InvalidSettlementAccounts | AlreadySettled | NotExpired | NotReturnable | AlreadyReturned
    | VaultNotFunded | ArithmeticOverflow | InvalidAccountOwner | InvalidAccountPda
    | ConstraintViolated  // an account constraint of the instruction's account list
    | CpiFailed           // the token or delegation program refused the inner call

  datatype Option<+T> = None | Some(value: T)

  /** What an instruction returns: a value, or the code it fails with. */
  datatype Result<+T> = Ok(value: T) | Err(error: TradeError) {
    predicate IsFailure() { Err? }

    function PropagateFailure<U>(): Result<U>
      requires Err?
    {
      Err(error)
    }

    function Extract(): T
      requires Ok?
    {
      value
    }
  }

  datatype Outcome = Pass | Fail(error: TradeError) {
    predicate IsFailure() { Fail? }

    function PropagateFailure<U>(): Result<U>
      requires Fail?
    {
      Err(error)
    }
  }

  /** What the caller of an instruction is told. */
  function Told<T>(r: Result<T>): Outcome {
    if r.Ok? then Pass else Fail(r.error)
  }

  /** `require!(condition, error)` */
  function Need(condition: bool, error: TradeError): Outcome {
    if condition then Pass else Fail(error)
  }

  datatype AssetRecord = AssetRecord(
    mint: Key, vault: Key, originalOwner: Key, originalAta: Key, finalAta: Key, depositedAt: i64, flags: bv8)

  const DEPOSITED: bv8 := 1
  const SELECTED: bv8 := 2
  const TRANSFERRED: bv8 := 4
  const RETURNED: bv8 := 8

  const EMPTY_ASSET := AssetRecord(DEFAULT_KEY, DEFAULT_KEY, DEFAULT_KEY, DEFAULT_KEY, DEFAULT_KEY, 0, 0)

  type Trio = s: seq<Key> | |s| == 3 witness [DEFAULT_KEY, DEFAULT_KEY, DEFAULT_KEY]
  type Assets = s: seq<AssetRecord> | |s| == 6
    witness [EMPTY_ASSET, EMPTY_ASSET, EMPTY_ASSET, EMPTY_ASSET, EMPTY_ASSET, EMPTY_ASSET]
  type Bytes3 = s: seq<byte> | |s| == 3 witness [0, 0, 0]
  type Revisions = s: seq<u64> | |s| == 3 witness [0, 0, 0]
  type Hashes = s: seq<Hash> | |s| == 3 witness [ZERO_HASH, ZERO_HASH, ZERO_HASH]

  /** The base-layer record of a room. */
  datatype RoomCore = RoomCore(
    version: byte, coreBump: byte, liveBump: byte, vaultAuthorityBump: byte,
    creator: Key, roomNonce: u64, participants: Trio, liveRoom: Key,
    assets: Assets, depositedMask: bv8, returnedMask: bv8, selectedMask: bv8,
    status: CoreStatus, createdAt: i64, expiresAt: i64, settledRevision: u64,
    allocationHash: Hash, rentPayer: Key, reserved: Bytes64)

  /** The negotiation record that is delegated to the ephemeral rollup. */
  datatype RoomLive = RoomLive(
    version: byte, bump: byte, core: Key, participants: Trio, expiresAt: i64,
    revision: u64, selectedSlots: Bytes3, cycle: Cycle, destinations: Bytes3,
    allocationHash: Hash, lockedRevision: Revisions, lockedHash: Hashes,
    lockMask: bv8, phase: LivePhase, lastActor: Key, lastAction: LiveAction,
    updatedAt: i64, reserved: Bytes64)
}
