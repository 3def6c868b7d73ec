/** The program's instructions as functions from the accounts they are given to the accounts they leave. */
module Rules {
  import opened Wire
  import opened Masks
  import opened Records
  import opened Tokens
  import opened Allocation

  const MIN_ROOM_SECONDS := 1200

  /** Which program owns the base copy of the live account. */
  datatype LiveOwner = ProgramOwned | DelegationOwned

  datatype LegAccounts = LegAccounts(mint: Key, vault: Key, destination: Key)

  const NO_LEG := LegAccounts(DEFAULT_KEY, DEFAULT_KEY, DEFAULT_KEY)

  type Legs = s: seq<LegAccounts> | |s| == 3 witness [NO_LEG, NO_LEG, NO_LEG]

  // ----- Shared guards -----

  function ParticipantIndex(participants: Trio, actor: Key): (r: Result<nat>)
    ensures r.Ok? ==> r.value < 3 && participants[r.value] == actor
  {
    if participants[0] == actor then Ok(0)
    else if participants[1] == actor then Ok(1)
    else if participants[2] == actor then Ok(2)
    else Err(UnauthorizedParticipant)
  }

  function RequireParticipant(participants: Trio, actor: Key): Outcome {
    if ParticipantIndex(participants, actor).Ok? then Pass else Fail(UnauthorizedParticipant)
  }

  function ValidateParticipants(participants: Trio): Outcome {
    Need(participants[0] != DEFAULT_KEY && participants[1] != DEFAULT_KEY && participants[2] != DEFAULT_KEY
         && participants[0] != participants[1] && participants[0] != participants[2]
            && participants[1] != participants[2],
         InvalidParticipants)
  }

  /** An immutable classic asset: no decimals, no authorities and a supply of one. */
  predicate MintEligible(m: Mint) {
    FixedPolicy(m) && m.supply == 1
  }

  predicate MintTaken(core: RoomCore, mint: Key) {
    exists s :: 0 <= s < 6 && core.assets[s].flags & DEPOSITED != 0 && core.assets[s].mint == mint
  }

  predicate SlotsInRange(slots: Bytes3) {
    slots[0] <= 1 && 2 <= slots[1] <= 3 && 4 <= slots[2] <= 5
  }

  function ValidateSelection(core: RoomCore, slots: Bytes3): Outcome {
    Need(SlotsInRange(slots)
         && Has(core.depositedMask, slots[0]) && Has(core.depositedMask, slots[1]) && Has(core.depositedMask, slots[2]),
         InvalidSelection)
  }

  function ValidateLockSet(live: RoomLive): Outcome {
    if live.lockMask != SEATS then Fail(NotFinalizable)
    else if live.lockedRevision[0] != live.revision then Fail(RevisionMismatch)
    else if live.lockedHash[0] != live.allocationHash then Fail(AllocationHashMismatch)
    else if live.lockedRevision[1] != live.revision then Fail(RevisionMismatch)
    else if live.lockedHash[1] != live.allocationHash then Fail(AllocationHashMismatch)
    else if live.lockedRevision[2] != live.revision then Fail(RevisionMismatch)
    else Need(live.lockedHash[2] == live.allocationHash, AllocationHashMismatch)
  }

  /** Checked before every negotiation step, against whichever copy of the core that ledger can read. */
  function LiveContext(env: Env, core: RoomCore, live: RoomLive, now: i64, actor: Key): Outcome {
    if env.roomPda(core.creator, core.roomNonce) != env.coreKey then Fail(InvalidAccountPda)
    else if core.status != Active then Fail(InvalidCoreStatus)
    else if core.liveRoom != env.LiveKey() || live.core != env.coreKey then Fail(CoreLiveMismatch)
    else if core.participants != live.participants || core.expiresAt != live.expiresAt then Fail(CoreLiveMismatch)
    else if now >= core.expiresAt then Fail(InvalidExpiry)
    else RequireParticipant(core.participants, actor)
  }

  /** An associated token account that the instruction creates when it is missing. */
  function OpenAta(l: Ledger, account: Key, mint: Key, owner: Key): Result<Ledger> {
    if account in l.accounts then
      if l.accounts[account].mint == mint && l.accounts[account].owner == owner then Ok(l) else Err(ConstraintViolated)
    else if mint in l.mints then
      Ok(l.(accounts := l.accounts[account := TokenAccount(mint, owner, 0, false)]))
    else Err(ConstraintViolated)
  }

  function TransferOne(l: Ledger, authority: Key, from: Key, mint: Key, to: Key): Result<Ledger> {
    match TransferTokens(l, authority, from, mint, to, 1, 0)
    case None => Err(CpiFailed)
    case Some(next) => Ok(next)
  }

  // ----- Creation and funding -----

  function InitialCore(env: Env, creator: Key, roomNonce: u64, participants: Trio, expiresAt: i64, now: i64,
                       coreBump: byte, liveBump: byte, vaultBump: byte): RoomCore {
    RoomCore(1, coreBump, liveBump, vaultBump, creator, roomNonce, participants, env.LiveKey(),
             [EMPTY_ASSET, EMPTY_ASSET, EMPTY_ASSET, EMPTY_ASSET, EMPTY_ASSET, EMPTY_ASSET],
             0, 0, 0, Funding, now, expiresAt, 0, ZERO_HASH, creator, Zeros(64))
  }

  function InitialLive(env: Env, core: RoomCore, bump: byte): RoomLive {
    RoomLive(1, bump, env.coreKey, core.participants, core.expiresAt, 0, [0, 2, 4], Forward, [1, 2, 0],
             ZERO_HASH, [0, 0, 0], [ZERO_HASH, ZERO_HASH, ZERO_HASH], 0, Negotiating,
             DEFAULT_KEY, Initialized, core.createdAt, Zeros(64))
  }

  function InitializeRoom(env: Env, creator: Key, roomNonce: u64, participants: Trio, expiresAt: i64, now: i64,
                          coreBump: byte, liveBump: byte, vaultBump: byte): Result<(RoomCore, RoomLive)> {
    var accounts := Need(env.roomPda(creator, roomNonce) == env.coreKey, ConstraintViolated);
    :- accounts;
    :- ValidateParticipants(participants);
    :- Need(now + MIN_ROOM_SECONDS <= I64_MAX, ArithmeticOverflow);
    :- Need(expiresAt >= now + MIN_ROOM_SECONDS, InvalidExpiry);
    var core := InitialCore(env, creator, roomNonce, participants, expiresAt, now, coreBump, liveBump, vaultBump);
    Ok((core, InitialLive(env, core, liveBump)))
  }

  function DepositRecord(env: Env, participant: Key, mint: Key, source: Key, vault: Key, now: i64): AssetRecord {
    AssetRecord(mint, vault, participant, source, DEFAULT_KEY, now, DEPOSITED)
  }

  function DepositAsset(env: Env, core: RoomCore, l: Ledger, now: i64, participant: Key,
                        slot: byte, mint: Key, source: Key, vault: Key): Result<(RoomCore, Ledger)> {
    var accounts := Need(mint in l.mints && source == env.ata(participant, mint)
                         && vault == env.VaultOf(mint), ConstraintViolated);
    :- accounts;
    :- Need(source in l.accounts && l.accounts[source].mint == mint
            && l.accounts[source].owner == participant, ConstraintViolated);
    var ready :- OpenAta(l, vault, mint, env.VaultAuthority());
    :- Need(slot < 6, SlotOutOfRange);
    :- Need(core.status == Funding, InvalidCoreStatus);
    :- Need(core.participants[slot / 2] == participant, UnauthorizedParticipant);
    :- Need(!Has(core.depositedMask, slot), SlotAlreadyDeposited);
    :- Need(MintEligible(l.mints[mint]), InvalidMintPolicy);
    :- Need(!MintTaken(core, mint), DuplicateMint);
    :- Need(ready.accounts[source].amount == 1, InvalidSourceAccount);
    :- Need(ready.accounts[vault].amount == 0, InvalidVault);
    var moved :- TransferOne(ready, participant, source, mint, vault);
    Ok((core.(assets := core.assets[slot as int := DepositRecord(env, participant, mint, source, vault, now)],
              depositedMask := With(core.depositedMask, slot)),
        moved))
  }

  function ActivateAndDelegateLive(core: RoomCore, liveOwner: LiveOwner, now: i64, participant: Key): Result<RoomCore> {
    var seat := RequireParticipant(core.participants, participant);
    :- seat;
    :- Need(core.status == Funding, InvalidCoreStatus);
    :- Need(core.depositedMask == SLOTS, NotFullyFunded);
    :- Need(now < core.expiresAt, InvalidExpiry);
    :- Need(liveOwner.ProgramOwned?, CpiFailed);
    Ok(core.(status := Active))
  }

  // ----- Negotiation -----

  function Propose(env: Env, core: RoomCore, live: RoomLive, now: i64, actor: Key,
                   expectedRevision: u64, slots: Bytes3, cycle: Cycle): Result<RoomLive> {
    var context := LiveContext(env, core, live, now, actor);
    :- context;
    :- Need(live.phase == Negotiating, DealFrozen);
    :- Need(live.revision == expectedRevision, RevisionMismatch);
    :- ValidateSelection(core, slots);
    :- Need(expectedRevision < U64_MAX, ArithmeticOverflow);
    var hash := AllocationHash(env, expectedRevision + 1, core.expiresAt, slots, cycle, DestinationsFor(cycle));
    Ok(live.(revision := expectedRevision + 1, selectedSlots := slots, cycle := cycle,
             destinations := DestinationsFor(cycle), allocationHash := hash,
             lockedRevision := [0, 0, 0], lockedHash := [ZERO_HASH, ZERO_HASH, ZERO_HASH], lockMask := 0,
             lastActor := actor, lastAction := Proposed, updatedAt := now))
  }

  function Lock(env: Env, core: RoomCore, live: RoomLive, now: i64, actor: Key,
                expectedRevision: u64, expectedHash: Hash): Result<RoomLive> {
    var context := LiveContext(env, core, live, now, actor);
    :- context;
    :- Need(live.phase == Negotiating, DealFrozen);
    :- Need(live.revision == expectedRevision, RevisionMismatch);
    :- Need(live.allocationHash == expectedHash, AllocationHashMismatch);
    var index :- ParticipantIndex(core.participants, actor);
    :- Need(!Has(live.lockMask, index), AlreadyLocked);
    var locked := live.(lockedRevision := live.lockedRevision[index := expectedRevision],
                        lockedHash := live.lockedHash[index := expectedHash],
                        lockMask := With(live.lockMask, index));
    var full := locked.lockMask == SEATS;
    :- if full then ValidateLockSet(locked) else Pass;
    Ok(locked.(phase := if full then Finalizing
               else Negotiating, lastActor := actor, lastAction := Locked, updatedAt := now))
  }

  function RevokeLock(env: Env, core: RoomCore, live: RoomLive, now: i64, actor: Key,
                      expectedRevision: u64, expectedHash: Hash): Result<RoomLive> {
    var context := LiveContext(env, core, live, now, actor);
    :- context;
    :- Need(live.phase == Negotiating, DealFrozen);
    :- Need(live.revision == expectedRevision, RevisionMismatch);
    :- Need(live.allocationHash == expectedHash, AllocationHashMismatch);
    var index :- ParticipantIndex(core.participants, actor);
    :- Need(Has(live.lockMask, index), NotLocked);
    Ok(live.(lockedRevision := live.lockedRevision[index := 0], lockedHash := live.lockedHash[index := ZERO_HASH],
             lockMask := Without(live.lockMask, index), lastActor := actor, lastAction := Revoked, updatedAt := now))
  }

  /** `finalize_commit_only`, and `finalize` without its check of the account list it hands on to settlement. */
  function FinalizeLive(env: Env, core: RoomCore, live: RoomLive, now: i64, actor: Key): Result<RoomLive> {
    var context := LiveContext(env, core, live, now, actor);
    :- context;
    :- ValidateLockSet(live);
    :- Need(live.phase == Finalizing, NotFinalizable);
    Ok(live.(phase := Finalized, lastActor := actor, lastAction := FinalizedAction, updatedAt := now))
  }

  // ----- Settlement -----

  predicate LegIndicesInRange(live: RoomLive) {
    SlotsInRange(live.selectedSlots) && live.destinations == DestinationsFor(live.cycle)
  }

  function SettleLeg(env: Env, core: RoomCore, l: Ledger, live: RoomLive, accounts: LegAccounts,
                     leg: nat): Result<(RoomCore, Ledger)>
    requires leg < 3 && LegIndicesInRange(live)
  {
    var slot := live.selectedSlots[leg];
    var asset := core.assets[slot];
    :- Need(accounts.mint in l.mints, InvalidMintPolicy);
    :- Need(accounts.vault in l.accounts, InvalidVault);
    :- Need(accounts.destination in l.accounts, InvalidDestination);
    var vault := l.accounts[accounts.vault];
    var destination := l.accounts[accounts.destination];
    :- Need(MintEligible(l.mints[accounts.mint]), InvalidMintPolicy);
    :- Need(asset.mint == accounts.mint && asset.vault == accounts.vault, InvalidSettlementAccounts);
    :- Need(vault.owner == env.VaultAuthority() && vault.amount == 1, VaultNotFunded);
    var recipient := core.participants[live.destinations[leg]];
    :- Need(accounts.destination == env.ata(recipient, accounts.mint) && destination.owner == recipient
            && destination.mint == accounts.mint, InvalidDestination);
    var moved :- TransferOne(l, env.VaultAuthority(), accounts.vault, accounts.mint, accounts.destination);
    Ok((core.(assets := core.assets[slot as int := asset.(flags := asset.flags | SELECTED | TRANSFERRED,
                                                          finalAta := accounts.destination)]),
        moved))
  }

  /** The first `n` legs, each reading what the one before it left, and the mask of their slots. */
  function SettleLegs(env: Env, core: RoomCore, l: Ledger, live: RoomLive, legs: Legs, n: nat): Result<(RoomCore,
                                                                                                        Ledger, bv8)>
    requires n <= 3 && LegIndicesInRange(live)
  {
    if n == 0 then Ok((core, l, 0)) else
    var before :- SettleLegs(env, core, l, live, legs, n - 1);
    var after :- SettleLeg(env, before.0, before.1, live, legs[n - 1], n - 1);
    Ok((after.0, after.1, With(before.2, live.selectedSlots[n - 1])))
  }

  /** Everything settlement checks before the first transfer. `required` is the owner the entry point expects:
      the delegation program for the post-commit action, this program for the committed path. */
  function SettlementGuard(env: Env, core: RoomCore, live: RoomLive, liveOwner: LiveOwner, required: LiveOwner,
                           now: i64): Outcome {
    if core.status != Active then Fail(AlreadySettled)
    else if liveOwner != required then Fail(InvalidAccountOwner)
    else if env.livePda(live.core) != env.LiveKey() then Fail(InvalidAccountPda)
    else if live.core != env.coreKey || core.liveRoom != env.LiveKey() then Fail(CoreLiveMismatch)
    else if live.participants != core.participants || live.expiresAt != core.expiresAt then Fail(CoreLiveMismatch)
    else if now >= core.expiresAt then Fail(InvalidExpiry)
    else if live.phase != Finalized then Fail(NotFinalizable)
    else if ValidateLockSet(live).Fail? then ValidateLockSet(live)
    else if ValidateSelection(core, live.selectedSlots).Fail? then ValidateSelection(core, live.selectedSlots)
    else if live.destinations != DestinationsFor(live.cycle) then Fail(InvalidCycle)
    else Need(AllocationHash(env, live.revision, live.expiresAt, live.selectedSlots, live.cycle, live.destinations)
              == live.allocationHash, AllocationHashMismatch)
  }

  function Settle(env: Env, core: RoomCore, live: RoomLive, liveOwner: LiveOwner, required: LiveOwner, l: Ledger,
                  now: i64,
                  legs: Legs): Result<(RoomCore, Ledger)> {
    var guard := SettlementGuard(env, core, live, liveOwner, required, now);
    :- guard;
    var moved :- SettleLegs(env, core, l, live, legs, 3);
    Ok((moved.0.(selectedMask := moved.2, settledRevision := live.revision, allocationHash := live.allocationHash,
                 status := Settled),
        moved.1))
  }

  // ----- Cancellation and returns -----

  function CancelCore(core: RoomCore): Result<RoomCore> {
    if core.status == Funding || core.status == Active then Ok(core.(status := Cancelled)) else Err(InvalidCoreStatus)
  }

  function CancelByParticipant(core: RoomCore, participant: Key): Result<RoomCore> {
    var seat := RequireParticipant(core.participants, participant);
    :- seat;
    :- Need(core.status == Funding, InvalidCoreStatus);
    CancelCore(core)
  }

  function CancelExpired(core: RoomCore, now: i64): Result<RoomCore> {
    var expired := Need(now >= core.expiresAt, NotExpired);
    :- expired;
    CancelCore(core)
  }

  /** The status and mask part of the guard on a return. */
  function ReturnMaskGuard(core: RoomCore, slot: nat): Outcome
    requires slot < 6
  {
    if !Has(core.depositedMask, slot) then Fail(NotReturnable)
    else if Has(core.returnedMask, slot) then Fail(AlreadyReturned)
    else Need(core.status == Cancelled
              || ((core.status == Settled || core.status == Returning) && !Has(core.selectedMask, slot)), NotReturnable)
  }

  function RequiredReturns(core: RoomCore): bv8 {
    if core.status == Returning then Minus(core.depositedMask, core.selectedMask)
    else if core.status == Cancelled then core.depositedMask
    else 0
  }

  function FinishReturnsIfEmpty(core: RoomCore): RoomCore {
    var required := RequiredReturns(core);
    if required != 0 && Covers(core.returnedMask, required)
    then core.(status := if core.status == Returning then Complete else Closed)
    else core
  }

  function RecordReturn(core: RoomCore, slot: nat): RoomCore
    requires slot < 6
  {
    core.(status := if core.status == Settled then Returning else core.status,
          assets := core.assets[slot := core.assets[slot].(flags := core.assets[slot].flags | RETURNED)],
          returnedMask := With(core.returnedMask, slot))
  }

  function MarkReturned(core: RoomCore, slot: nat): RoomCore
    requires slot < 6
  {
    FinishReturnsIfEmpty(RecordReturn(core, slot))
  }

  function ReturnAsset(env: Env, core: RoomCore, l: Ledger, slot: byte,
                       mint: Key, vault: Key, originalOwner: Key, originalAta: Key): Result<(RoomCore, Ledger)> {
    var accounts := Need(mint in l.mints && vault in l.accounts
                         && originalAta == env.ata(originalOwner, mint), ConstraintViolated);
    :- accounts;
    var ready :- OpenAta(l, originalAta, mint, originalOwner);
    :- Need(slot < 6, SlotOutOfRange);
    :- ReturnMaskGuard(core, slot);
    var asset := core.assets[slot];
    :- Need(asset.mint == mint && asset.vault == vault, InvalidVault);
    :- Need(asset.originalAta == originalAta, InvalidDestination);
    :- Need(asset.originalOwner == originalOwner, InvalidDestination);
    :- Need(ready.accounts[vault].amount == 1 && ready.accounts[vault].owner == env.VaultAuthority(), VaultNotFunded);
    :- Need(ready.accounts[originalAta].mint == asset.mint
            && ready.accounts[originalAta].owner == asset.originalOwner, InvalidDestination);
    var moved :- TransferOne(ready, env.VaultAuthority(), vault, mint, originalAta);
    Ok((MarkReturned(core, slot), moved))
  }
}
