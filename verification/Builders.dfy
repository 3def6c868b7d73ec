/** The client's builders against the program's guards, on whatever records a node may have sent. */
module Builders {
  import opened Wire
  import opened Masks
  import opened Records
  import opened Tokens
  import opened Allocation
  import opened Machine
  import opened Invariant
  import opened RoomState
  import opened RoomActions
  import ClientLaws
  import Instructions
  import Offers
  import Rights
  import Effects
  import Rules

  /** The record of a slot, as its depositor left it. */
  predicate Canonical(env: Env, core: RoomCore, slot: nat)
    requires slot < 6
  {
    var a := core.assets[slot];
    a.vault == env.ata(env.vaultPda(env.coreKey), a.mint) && a.originalOwner == core.participants[slot / 2]
  }

  /** Every check that the program makes before a settlement's first transfer, on the committed path. */
  ghost predicate GuardHolds(env: Env, core: RoomCore, live: RoomLive, now: i64) {
    Instructions.Answers(Pass, Instructions.GuardChecks(env, core, live, Rules.ProgramOwned, Rules.ProgramOwned, now))
  }

  /** From any two records, the builder makes a settlement exactly when the program's own guard would pass on them,
      the core is at its own address and the three assets are canonical: on bad records it refuses before the program
      does. */
  lemma SettlementBuiltIff(env: Env, core: RoomCore, live: RoomLive, now: i64)
    ensures BuildSettleCommitted(env, env.coreKey, env.LiveKey(), core, live, now).Some? <==>
      && GuardHolds(env, core, live, now) && env.roomPda(core.creator, core.roomNonce) == env.coreKey
      && forall leg :: 0 <= leg < 3 ==> live.selectedSlots[leg] < 6 && Canonical(env, core, live.selectedSlots[leg])
  {
    hide Instructions.Answers, GuardHolds, ValidSettlementState, ValidSettlementSelection, ValidSettlementLinkage;
    GuardMeans(env, core, live, now);
    BuilderMeans(env, core, live, now);
    LegsMean(env, core, live);
  }

  /** Both are the same conditions on link, state and selection. */
  predicate Settleable(env: Env, core: RoomCore, live: RoomLive, now: int) {
    && core.status == Active && live.core == env.coreKey && core.liveRoom == env.livePda(env.coreKey)
    && live.participants == core.participants && live.expiresAt == core.expiresAt && now < core.expiresAt
    && live.phase == Finalized && live.lockMask == SEATS
    && (forall i :: 0 <= i < 3 ==>
          live.lockedRevision[i] == live.revision && live.lockedHash[i] == live.allocationHash)
    && Instructions.OneFundedSlotEach(core.depositedMask, live.selectedSlots)
    && live.destinations == Instructions.Destinations(live.cycle)
    && live.allocationHash
       == AllocationHash(env, live.revision, live.expiresAt, live.selectedSlots, live.cycle, live.destinations)
  }

  lemma GuardMeans(env: Env, core: RoomCore, live: RoomLive, now: i64)
    ensures GuardHolds(env, core, live, now) <==> Settleable(env, core, live, now)
  {
    hide AllocationHash, Instructions.OneFundedSlotEach, Instructions.Destinations;
    var link := Instructions.LinkChecks(env, core, live, Rules.ProgramOwned, Rules.ProgramOwned, now);
    var locks := [Instructions.Check(live.lockMask == SEATS, NotFinalizable)] + Instructions.LockSetChecks(live);
    var deal := Instructions.DealChecks(env, core, live);
    Rights.PassBoth(link, locks + deal);
    Rights.PassBoth(locks, deal);
    Rights.ThreePass(deal);
    LinkPass(link);
    LocksPass(live);
    hide Instructions.Answers;
  }

  lemma LinkPass(c: seq<Instructions.Check>)
    requires |c| == 7
    ensures Instructions.Answers(Pass, c) <==>
      c[0].holds && c[1].holds && c[2].holds && c[3].holds && c[4].holds && c[5].holds && c[6].holds
  {
  }

  lemma LocksPass(live: RoomLive)
    ensures Instructions.Answers(Pass, [Instructions.Check(live.lockMask == SEATS, NotFinalizable)]
                                       + Instructions.LockSetChecks(live)) <==>
      && live.lockMask == SEATS
      && forall i :: 0 <= i < 3 ==> live.lockedRevision[i] == live.revision && live.lockedHash[i] == live.allocationHash
  {
    var c := [Instructions.Check(live.lockMask == SEATS, NotFinalizable)] + Instructions.LockSetChecks(live);
    assert Instructions.Answers(Pass, c) <==>
        c[0].holds && c[1].holds && c[2].holds && c[3].holds && c[4].holds && c[5].holds && c[6].holds;
    hide Instructions.Answers;
  }

  lemma BuilderMeans(env: Env, core: RoomCore, live: RoomLive, now: int)
    ensures ValidSettlementLinkage(env, env.coreKey, env.LiveKey(), core, live)
            && ValidSettlementState(env, env.coreKey, core, live, now) && ValidSettlementSelection(core, live) <==>
      Settleable(env, core, live, now) && env.roomPda(core.creator, core.roomNonce) == env.coreKey
  {
    hide Has, Members, Join, ClientSlices, ProgramSlices, Instructions.OneFundedSlotEach;
    SelectionMeans(core, live);
    if live.destinations == Instructions.Destinations(live.cycle) { SameHash(env, live); }
    assert live.lockedRevision == [live.revision, live.revision, live.revision] <==>
        forall i :: 0 <= i < 3 ==> live.lockedRevision[i] == live.revision;
    assert live.lockedHash == [live.allocationHash, live.allocationHash, live.allocationHash] <==>
        forall i :: 0 <= i < 3 ==> live.lockedHash[i] == live.allocationHash;
  }

  lemma SameHash(env: Env, live: RoomLive)
    requires live.destinations == Instructions.Destinations(live.cycle)
    ensures AllocationHash(env, live.revision, live.expiresAt, live.selectedSlots, live.cycle, live.destinations)
         == env.sha256(Join(ClientSlices(env.coreKey, live.revision, live.expiresAt, live.selectedSlots, live.cycle)))
  {
    HashesAgree(env, live);
  }

  lemma SelectionMeans(core: RoomCore, live: RoomLive)
    ensures ValidSettlementSelection(core, live) <==>
      && Instructions.OneFundedSlotEach(core.depositedMask, live.selectedSlots)
      && live.destinations == Instructions.Destinations(live.cycle)
  {
    hide Has, Members;
    Offers.OwnSlots(core.depositedMask);
    var s := live.selectedSlots;
    assert (forall owner :: 0 <= owner < 3 ==> s[owner] == owner * 2 || s[owner] == owner * 2 + 1) <==>
        s[0] / 2 == 0 && s[1] / 2 == 1 && s[2] / 2 == 2;
  }

  lemma LegsMean(env: Env, core: RoomCore, live: RoomLive)
    ensures ValidSettlementSelection(core, live) ==>
      (BuildLegs(env, env.coreKey, core, live).Some? <==>
         forall leg :: 0 <= leg < 3 ==> live.selectedSlots[leg] < 6 && Canonical(env, core, live.selectedSlots[leg]))
  {
    hide Has;
  }

  /** The legs it makes are those of the record. */
  lemma BuiltLegs(env: Env, core: RoomCore, live: RoomLive, now: i64, leg: nat)
    requires leg < 3 && BuildSettleCommitted(env, env.coreKey, env.LiveKey(), core, live, now).Some?
    ensures var built := BuildSettleCommitted(env, env.coreKey, env.LiveKey(), core, live, now).value[leg];
      && built.slot == live.selectedSlots[leg] && built.slot < 6 && live.destinations[leg] < 3
      && built.mint == core.assets[built.slot].mint && built.vault == core.assets[built.slot].vault
      && built.recipient == core.participants[live.destinations[leg]]
      && built.destination == env.ata(built.recipient, built.mint)
  {
    hide Has, ValidSettlementState, ValidSettlementLinkage;
  }

  /** From any record, the builder makes a return exactly when the program's checks of room and slot would pass, the
      record's flags say the same as the masks, and the record is the depositor's own. */
  lemma ReturnBuiltIff(env: Env, core: RoomCore, slot: byte)
    ensures BuildReturnAsset(env, env.coreKey, core, slot).Some? <==>
      && Instructions.Answers(Pass, Instructions.ReturnRoomChecks(core, slot)) && slot < 6
      && env.roomPda(core.creator, core.roomNonce) == env.coreKey
      && core.assets[slot].flags & 1 != 0 && core.assets[slot].flags & 8 == 0 && core.assets[slot].flags & 4 == 0
      && Canonical(env, core, slot)
      && core.assets[slot].originalAta == env.ata(core.assets[slot].originalOwner, core.assets[slot].mint)
    ensures var built := BuildReturnAsset(env, env.coreKey, core, slot);
      built.Some? ==>
        var a := core.assets[slot];
        built.value == Action.Return(slot, a.mint, a.vault, a.originalOwner, a.originalAta)
  {
    hide Has, Members;
    Rights.FourPass(Instructions.ReturnRoomChecks(core, slot));
    Offers.OwnSlots(core.depositedMask);
    Offers.OwnSlots(core.returnedMask);
    Offers.OwnSlots(core.selectedMask);
    hide Instructions.Answers;
  }

  /** For an empty slot of the signer's in a funding room the preflight is exact: the deposit that the client would send
      goes through if and only if the preflight passes and neither account is frozen. */
  lemma PreflightIff(env: Env, w: World, signer: Key, slot: nat, mint: Key)
    requires CoreFits(env, w.core) && signer != env.VaultAuthority()
    requires slot < 6 && w.core.status == Funding && w.core.participants[slot / 2] == signer
    requires !Has(w.core.depositedMask, slot)
    ensures Perform(env, w, signer, Deposit(slot, mint, env.ata(signer, mint), env.VaultOf(mint))).Ok? <==>
      && ValidDeposit(env, w.ledger, signer, env.coreKey, w.core, mint, slot)
      && Instructions.Thawed(w.ledger, env.ata(signer, mint)) && Instructions.Thawed(w.ledger, env.VaultOf(mint))
  {
    var source, vault := env.ata(signer, mint), env.VaultOf(mint);
    hide Perform, CoreFits, Has, Members, Effects.Leaves, DepositMintUnique;
    Rights.OkIff(env, w, signer, Deposit(slot, mint, source, vault));
    ClientLaws.UniquenessAgrees(env, w.core, mint, slot);
    Instructions.TakenMeans(w.core, mint);
    hide Rules.MintTaken;
    Offers.OwnSlots(w.core.depositedMask);
    var a, r, t := Instructions.DepositAccountChecks(env, w.ledger, signer, mint, source, vault),
                   Instructions.DepositRoomChecks(w.core, signer, slot),
                   Instructions.DepositTokenChecks(w.core, w.ledger, mint, source, vault);
    Rights.PassBoth(a, r + t);
    Rights.PassBoth(r, t);
    Rights.ThreePass(a);
    Rights.FourPass(r);
    FivePass(t);
    hide Instructions.Answers;
  }

  lemma FivePass(c: seq<Instructions.Check>)
    requires |c| == 5
    ensures Instructions.Answers(Pass, c) <==> c[0].holds && c[1].holds && c[2].holds && c[3].holds && c[4].holds
  {
  }

  /** A transaction and an expectation are made for the eleven writes only, and for two of them only with a slot. */
  lemma OnlyWritesAreBuilt(env: Env, action: RoomAction, venue: Venue, signer: Key, coreAddress: Key, liveAddress: Key,
                           core: RoomCore, live: RoomLive, draft: DraftProposal, slot: Option<nat>, mint: Key, now: int,
                           seat: int)
    ensures BuildWrite(env, action, venue, signer, coreAddress, liveAddress, core, live, draft, slot, mint,
                       now).Some? ==>
      ClientLaws.IsWrite(action) && (NeedsSlot(action) ==> slot.Some?)
    ensures (NeedsSlot(action) && slot.Some? ==> slot.value < 6)
            && (action == SettleCommitted ==> ValidSelection(live.selectedSlots)) ==>
      (BuildPendingRequest(env, action, coreAddress, core, live, seat, draft, slot).Some? <==>
         ClientLaws.IsWrite(action) && (NeedsSlot(action) ==> slot.Some?))
  {
    hide BuildReturnAsset, BuildSettleCommitted;
  }
}
