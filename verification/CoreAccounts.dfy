/** The base-layer account of a room, and the instructions that write it in place. */
module CoreAccounts {
  import opened Wire
  import opened Masks
  import opened Records
  import Tokens
  import opened Allocation
  import opened Accounts
  import Rules

  class CoreAccount {
    var version: byte
    var coreBump: byte
    var liveBump: byte
    var vaultAuthorityBump: byte
    var creator: Key
    var roomNonce: u64
    var participants: Trio
    var liveRoom: Key
    const assets: array<AssetRecord>
    var depositedMask: bv8
    var returnedMask: bv8
    var selectedMask: bv8
    var status: CoreStatus
    var createdAt: i64
    var expiresAt: i64
    var settledRevision: u64
    var allocationHash: Hash
    var rentPayer: Key
    var reserved: Bytes64

    ghost predicate Valid() {
      assets.Length == 6
    }

    function Value(): RoomCore
      requires assets.Length == 6
      reads this, assets
    {
      RoomCore(version, coreBump, liveBump, vaultAuthorityBump, creator, roomNonce, participants, liveRoom, assets[..],
               depositedMask, returnedMask, selectedMask, status, createdAt, expiresAt, settledRevision, allocationHash,
               rentPayer, reserved)
    }

    constructor (v: RoomCore)
      ensures Valid() && Value() == v && fresh(assets)
    {
      version, coreBump, liveBump, vaultAuthorityBump := v.version, v.coreBump, v.liveBump, v.vaultAuthorityBump;
      creator, roomNonce, participants, liveRoom := v.creator, v.roomNonce, v.participants, v.liveRoom;
      assets := new AssetRecord[6](i requires 0 <= i < 6 => v.assets[i]);
      depositedMask, returnedMask, selectedMask := v.depositedMask, v.returnedMask, v.selectedMask;
      status, createdAt, expiresAt, settledRevision := v.status, v.createdAt, v.expiresAt, v.settledRevision;
      allocationHash, rentPayer, reserved := v.allocationHash, v.rentPayer, v.reserved;
      new;
      assert assets[..] == v.assets;
    }

    /** What `initialize_room` writes into the fresh account. */
    constructor Opened(env: Env, founder: Key, nonce: u64, roster: Trio, expiry: i64, now: i64,
                       bump: byte, negotiationBump: byte, vaultBump: byte)
      ensures Valid() && fresh(assets)
      ensures Value() == Rules.InitialCore(env, founder, nonce, roster, expiry, now, bump, negotiationBump, vaultBump)
    {
      version := 1;
      coreBump, liveBump, vaultAuthorityBump := bump, negotiationBump, vaultBump;
      creator, roomNonce, participants, liveRoom := founder, nonce, roster, env.LiveKey();
      assets := new AssetRecord[6](_ => EMPTY_ASSET);
      depositedMask, returnedMask, selectedMask := 0, 0, 0;
      status, createdAt, expiresAt, settledRevision := Funding, now, expiry, 0;
      allocationHash, rentPayer, reserved := ZERO_HASH, founder, Zeros(64);
    }

    /** The loop behind `validate_new_mint`. */
    method ValidateNewMint(mint: Key) returns (r: Outcome)
      requires Valid()
      ensures r == if Rules.MintTaken(Value(), mint) then Fail(DuplicateMint) else Pass
    {
      for slot := 0 to 6
        invariant forall s :: 0 <= s < slot ==> !(assets[s].flags & DEPOSITED != 0 && assets[s].mint == mint)
      {
        if assets[slot].flags & DEPOSITED != 0 && assets[slot].mint == mint { return Fail(DuplicateMint); }
      }
      r := Pass;
    }

    method RecordDeposit(slot: nat, record: AssetRecord)
      requires Valid() && slot < 6
      modifies this`depositedMask, assets
      ensures Value() == old(Value()).(assets := old(assets[..])[slot := record],
                                       depositedMask := With(old(depositedMask), slot))
    {
      hide With;
      assets[slot] := record;
      depositedMask := With(depositedMask, slot);
    }

    method DepositAsset(env: Env, tokens: TokenStore, now: i64, participant: Key, slot: byte, mint: Key, source: Key,
                        vault: Key)
      returns (r: Outcome)
      requires Valid()
      modifies this, assets, tokens
      ensures var spec := Rules.DepositAsset(env, old(Value()), old(tokens.Value()), now, participant, slot, mint,
                                             source, vault);
        && r == Told(spec)
        && (spec.Ok? ==> Value() == spec.value.0 && tokens.Value() == spec.value.1)
    {
      hide Rules.OpenAta, Rules.TransferOne, Rules.MintTaken, Has, With, Rules.MintEligible;
      if mint !in tokens.mints || source != env.ata(participant, mint) || vault != env.VaultOf(mint) {
        return Fail(ConstraintViolated);
      }
      if source !in tokens.accounts || tokens.accounts[source].mint != mint
          || tokens.accounts[source].owner != participant {
        return Fail(ConstraintViolated);
      }
      r := tokens.OpenAta(vault, mint, env.VaultAuthority());
      if r.Fail? { return; }
      if slot >= 6 { return Fail(SlotOutOfRange); }
      if status != Funding { return Fail(InvalidCoreStatus); }
      if participants[slot / 2] != participant { return Fail(UnauthorizedParticipant); }
      if Has(depositedMask, slot) { return Fail(SlotAlreadyDeposited); }
      OpenAtaMints(old(tokens.Value()), vault, mint, env.VaultAuthority());
      if !Rules.MintEligible(tokens.mints[mint]) { return Fail(InvalidMintPolicy); }
      r := ValidateNewMint(mint);
      if r.Fail? { return; }
      OpenAtaKeeps(old(tokens.Value()), vault, mint, env.VaultAuthority(), source);
      if tokens.accounts[source].amount != 1 { return Fail(InvalidSourceAccount); }
      if tokens.accounts[vault].amount != 0 { return Fail(InvalidVault); }
      r := tokens.TransferOne(participant, source, mint, vault);
      if r.Fail? { return; }
      RecordDeposit(slot, Rules.DepositRecord(env, participant, mint, source, vault, now));
    }

    method Activate(liveOwner: Rules.LiveOwner, now: i64, participant: Key) returns (r: Outcome)
      requires Valid()
      modifies this`status
      ensures var spec := Rules.ActivateAndDelegateLive(old(Value()), liveOwner, now, participant);
        && r == Told(spec) && (spec.Ok? ==> Value() == spec.value)
    {
      hide Rules.ParticipantIndex;
      r := RequireParticipant(participants, participant);
      if r.Fail? { return; }
      if status != Funding { return Fail(InvalidCoreStatus); }
      if depositedMask != SLOTS { return Fail(NotFullyFunded); }
      if now >= expiresAt { return Fail(InvalidExpiry); }
      status := Active;
      if !liveOwner.ProgramOwned? { return Fail(CpiFailed); }
    }

    method Cancel() returns (r: Outcome)
      requires Valid()
      modifies this`status
      ensures var spec := Rules.CancelCore(old(Value()));
        && r == Told(spec) && (spec.Ok? ==> Value() == spec.value)
    {
      if status != Funding && status != Active { return Fail(InvalidCoreStatus); }
      status := Cancelled;
      r := Pass;
    }

    method CancelByParticipant(participant: Key) returns (r: Outcome)
      requires Valid()
      modifies this`status
      ensures var spec := Rules.CancelByParticipant(old(Value()), participant);
        && r == Told(spec) && (spec.Ok? ==> Value() == spec.value)
    {
      r := RequireParticipant(participants, participant);
      if r.Fail? { return; }
      if status != Funding { return Fail(InvalidCoreStatus); }
      r := Cancel();
    }

    method CancelExpired(now: i64) returns (r: Outcome)
      requires Valid()
      modifies this`status
      ensures var spec := Rules.CancelExpired(old(Value()), now);
        && r == Told(spec) && (spec.Ok? ==> Value() == spec.value)
    {
      if now < expiresAt { return Fail(NotExpired); }
      r := Cancel();
    }

    // ----- Settlement -----

    method MarkAsset(slot: nat, next: AssetRecord)
      requires Valid() && slot < 6
      modifies assets
      ensures Value() == old(Value()).(assets := old(assets[..])[slot := next])
    {
      assets[slot] := next;
    }

    method SettleLeg(env: Env, tokens: TokenStore, live: RoomLive, accounts: Rules.LegAccounts, leg: nat)
        returns (r: Outcome)
      requires Valid() && leg < 3 && Rules.LegIndicesInRange(live)
      modifies assets, tokens
      ensures var spec := Rules.SettleLeg(env, old(Value()), old(tokens.Value()), live, accounts, leg);
        && r == Told(spec)
        && (spec.Ok? ==> Value() == spec.value.0 && tokens.Value() == spec.value.1)
    {
      hide Rules.TransferOne, Rules.MintEligible;
      var slot := live.selectedSlots[leg];
      var asset := assets[slot];
      if accounts.mint !in tokens.mints { return Fail(InvalidMintPolicy); }
      if accounts.vault !in tokens.accounts { return Fail(InvalidVault); }
      if accounts.destination !in tokens.accounts { return Fail(InvalidDestination); }
      var vault, destination := tokens.accounts[accounts.vault], tokens.accounts[accounts.destination];
      if !Rules.MintEligible(tokens.mints[accounts.mint]) { return Fail(InvalidMintPolicy); }
      if asset.mint != accounts.mint || asset.vault != accounts.vault { return Fail(InvalidSettlementAccounts); }
      if vault.owner != env.VaultAuthority() || vault.amount != 1 { return Fail(VaultNotFunded); }
      var recipient := participants[live.destinations[leg]];
      if accounts.destination != env.ata(recipient, accounts.mint) || destination.owner != recipient
         || destination.mint != accounts.mint {
        return Fail(InvalidDestination);
      }
      r := tokens.TransferOne(env.VaultAuthority(), accounts.vault, accounts.mint, accounts.destination);
      if r.Fail? { return; }
      MarkAsset(slot, asset.(flags := asset.flags | SELECTED | TRANSFERRED, finalAta := accounts.destination));
    }

    /** Every check before the first transfer, `read_live` first. */
    method ValidateSettlement(env: Env, live: RoomLive, liveOwner: Rules.LiveOwner, required: Rules.LiveOwner, now: i64)
      returns (r: Outcome)
      requires Valid()
      ensures r == Rules.SettlementGuard(env, Value(), live, liveOwner, required, now)
    {
      hide Rules.ValidateLockSet, Rules.ValidateSelection, AllocationHash;
      if status != Active { return Fail(AlreadySettled); }
      if liveOwner != required { return Fail(InvalidAccountOwner); }
      if env.livePda(live.core) != env.LiveKey() { return Fail(InvalidAccountPda); }
      if live.core != env.coreKey || liveRoom != env.LiveKey() { return Fail(CoreLiveMismatch); }
      if live.participants != participants || live.expiresAt != expiresAt { return Fail(CoreLiveMismatch); }
      if now >= expiresAt { return Fail(InvalidExpiry); }
      if live.phase != Finalized { return Fail(NotFinalizable); }
      r := ValidateLockSet(live);
      if r.Fail? { return; }
      r := ValidateSelection(Value(), live.selectedSlots);
      if r.Fail? { return; }
      if live.destinations != DestinationsFor(live.cycle) { return Fail(InvalidCycle); }
      var expected := AllocationHash(env, live.revision, live.expiresAt, live.selectedSlots, live.cycle,
                                     live.destinations);
      r := if expected == live.allocationHash then Pass else Fail(AllocationHashMismatch);
    }

    method RecordSettlement(mask: bv8, revision: u64, hash: Hash)
      requires Valid()
      modifies this`selectedMask, this`settledRevision, this`allocationHash, this`status
      ensures Value() == old(Value()).(selectedMask := mask, settledRevision := revision, allocationHash := hash,
                                       status := Settled)
    {
      selectedMask := mask;
      settledRevision := revision;
      allocationHash := hash;
      status := Settled;
    }

    method SettleFromAccounts(env: Env, tokens: TokenStore, live: RoomLive, liveOwner: Rules.LiveOwner,
                              required: Rules.LiveOwner, now: i64, legs: Rules.Legs) returns (r: Outcome)
      requires Valid()
      modifies this, assets, tokens
      ensures var spec := Rules.Settle(env, old(Value()), live, liveOwner, required, old(tokens.Value()), now, legs);
        && r == Told(spec)
        && (spec.Ok? ==> Value() == spec.value.0 && tokens.Value() == spec.value.1)
    {
      hide Rules.SettlementGuard, Rules.SettleLeg, With;
      ghost var before, ledger := Value(), tokens.Value();
      r := ValidateSettlement(env, live, liveOwner, required, now);
      if r.Fail? { return; }
      GuardRange(env, before, live, liveOwner, required, now);
      var mask: bv8 := 0;
      for leg := 0 to 3
        modifies assets, tokens
        invariant Rules.SettleLegs(env, before, ledger, live, legs, leg) == Ok((Value(), tokens.Value(), mask))
      {
        r := SettleLeg(env, tokens, live, legs[leg], leg);
        if r.Fail? {
          LegFailure(env, before, ledger, live, legs, leg + 1);
          return;
        }
        mask := With(mask, live.selectedSlots[leg]);
      }
      RecordSettlement(mask, live.revision, live.allocationHash);
      r := Pass;
    }

    // ----- Returns -----

    method FinishReturnsIfEmpty()
      requires Valid()
      modifies this`status
      ensures Value() == Rules.FinishReturnsIfEmpty(old(Value()))
    {
      hide Covers;
      var required := match status
        case Returning => Minus(depositedMask, selectedMask)
        case Cancelled => depositedMask
        case _ => 0;
      if required != 0 && Covers(returnedMask, required) {
        status := if status == Returning then Complete else Closed;
      }
    }

    method RecordReturn(slot: nat)
      requires Valid() && slot < 6
      modifies this`status, this`returnedMask, assets
      ensures Value() == Rules.RecordReturn(old(Value()), slot)
    {
      hide With;
      if status == Settled { status := Returning; }
      assets[slot] := assets[slot].(flags := assets[slot].flags | RETURNED);
      returnedMask := With(returnedMask, slot);
    }

    /** The mask and status checks of `validate_return`. */
    method ValidateReturnable(slot: nat) returns (r: Outcome)
      requires Valid() && slot < 6
      ensures r == Rules.ReturnMaskGuard(Value(), slot)
    {
      hide Has;
      if !Has(depositedMask, slot) { return Fail(NotReturnable); }
      if Has(returnedMask, slot) { return Fail(AlreadyReturned); }
      var returnable := status == Cancelled
        || ((status == Settled || status == Returning) && !Has(selectedMask, slot));
      r := if returnable then Pass else Fail(NotReturnable);
    }

    method ReturnAsset(env: Env, tokens: TokenStore, slot: byte, mint: Key, vault: Key, originalOwner: Key,
                       originalAta: Key)
      returns (r: Outcome)
      requires Valid()
      modifies this, assets, tokens
      ensures var spec := Rules.ReturnAsset(env, old(Value()), old(tokens.Value()), slot, mint, vault, originalOwner,
                                            originalAta);
        && r == Told(spec)
        && (spec.Ok? ==> Value() == spec.value.0 && tokens.Value() == spec.value.1)
    {
      hide Rules.OpenAta, Rules.TransferOne, Rules.ReturnMaskGuard, Rules.RecordReturn, Rules.FinishReturnsIfEmpty;
      if mint !in tokens.mints || vault !in tokens.accounts || originalAta != env.ata(originalOwner, mint) {
        return Fail(ConstraintViolated);
      }
      r := tokens.OpenAta(originalAta, mint, originalOwner);
      if r.Fail? { return; }
      if slot >= 6 { return Fail(SlotOutOfRange); }
      r := ValidateReturnable(slot);
      if r.Fail? { return; }
      var asset := assets[slot];
      if asset.mint != mint || asset.vault != vault { return Fail(InvalidVault); }
      if asset.originalAta != originalAta { return Fail(InvalidDestination); }
      if asset.originalOwner != originalOwner { return Fail(InvalidDestination); }
      OpenAtaKeeps(old(tokens.Value()), originalAta, mint, originalOwner, vault);
      if tokens.accounts[vault].amount != 1
          || tokens.accounts[vault].owner != env.VaultAuthority() { return Fail(VaultNotFunded); }
      if tokens.accounts[originalAta].mint != asset.mint || tokens.accounts[originalAta].owner != asset.originalOwner {
        return Fail(InvalidDestination);
      }
      r := tokens.TransferOne(env.VaultAuthority(), vault, mint, originalAta);
      if r.Fail? { return; }
      RecordReturn(slot);
      FinishReturnsIfEmpty();
    }
  }

  lemma OpenAtaMints(l: Tokens.Ledger, account: Key, mint: Key, owner: Key)
    ensures var r := Rules.OpenAta(l, account, mint, owner); r.Ok? ==> r.value.mints == l.mints
  {
  }

  lemma OpenAtaKeeps(l: Tokens.Ledger, account: Key, mint: Key, owner: Key, other: Key)
    requires other in l.accounts
    ensures var r := Rules.OpenAta(l, account, mint, owner); r.Ok? ==>
      other in r.value.accounts && account in r.value.accounts
  {
  }

  lemma GuardRange(env: Env, core: RoomCore, live: RoomLive, liveOwner: Rules.LiveOwner, required: Rules.LiveOwner,
                   now: i64)
    requires Rules.SettlementGuard(env, core, live, liveOwner, required, now).Pass?
    ensures Rules.LegIndicesInRange(live)
  {
    hide Rules.ValidateLockSet;
  }

  /** A leg that fails fails the settlement, with its own error. */
  lemma {:induction false} LegFailure(env: Env, core: RoomCore, l: Tokens.Ledger, live: RoomLive, legs: Rules.Legs,
                                      n: nat)
    requires n <= 3 && Rules.LegIndicesInRange(live) && Rules.SettleLegs(env, core, l, live, legs, n).Err?
    ensures Rules.SettleLegs(env, core, l, live, legs, 3) == Rules.SettleLegs(env, core, l, live, legs, n)
    decreases 3 - n
  {
    hide Rules.SettleLeg;
    if n < 3 {
      LegFailure(env, core, l, live, legs, n + 1);
    }
  }
}
