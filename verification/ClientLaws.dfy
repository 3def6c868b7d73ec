/** The client against the program: what it permits succeeds, and what it expects is what happens. */
module ClientLaws {
  import opened Wire
  import opened Masks
  import opened Records
  import opened Tokens
  import opened Allocation
  import opened Machine
  import opened Invariant
  import opened RoomState
  import opened RoomActions
  import Rules
  import Preservation
  import Settlement
  import Agreement
  import Codec
  import CustodyLaws
  import Recovery

  // ----- A fresh snapshot and an attempt to act on it -----

  /** The projection shows the room as it is: the base core, and the live copy of the ledger it was read from. The clock
      is the client's own. What it believes of the time, the delegation and the account's owner is left open. */
  ghost predicate Fresh(env: Env, w: World, input: RoomUiInput) {
    && input.core == Some(w.core) && input.coreAddress == env.coreKey && input.liveAddress == env.LiveKey()
    && input.live.Some?
    && match input.authority.source
       case Unavailable => true
       case MagicBlockEr => !w.er.Absent? && input.live.value == w.er.live
       case SolanaBase => input.live.value == w.live
  }

  /** An action taken on a view; the client reads its clock again, as `builtAt`, when it builds the write. */
  datatype Attempt = Attempt(action: RoomAction, signer: Key, slot: Option<nat>, mint: Key, venue: Venue, builtAt: int)

  predicate OnRollup(action: RoomAction) {
    action == Propose || action == Lock || action == RevokeLock || action == FinalizeCommitOnly
  }

  /** The rollup shows the instruction some active copy of the core, however old, and a clock before the expiry. */
  predicate RollupSees(w: World, venue: Venue) {
    venue.OnEr? && venue.snapshot < |w.coreLog| && w.coreLog[venue.snapshot].status == Active
      && venue.erNow < w.core.expiresAt
  }

  predicate IsWrite(action: RoomAction) {
    ParticipantOnly(action) || action == CancelExpired || action == SettleCommitted || action == ReturnAsset
  }

  ghost predicate Permitted(env: Env, w: World, input: RoomUiInput, at: Attempt) {
    && Fresh(env, w, input)
    && input.role == DeriveWalletRole(Some(at.signer), w.core.participants)
    && at.signer != env.VaultAuthority()
    && IsWrite(at.action)
    && LegalAction(at.action, DeriveRoomUiState(env, input), input.role, at.slot)
    && (at.action == DepositAsset ==>
          at.slot.Some? && ValidDeposit(env, w.ledger, at.signer, input.coreAddress, w.core, at.mint, at.slot.value))
  }

  function Sent(env: Env, input: RoomUiInput, at: Attempt): Option<Transaction>
    requires input.core.Some? && input.live.Some?
  {
    BuildWrite(env, at.action, at.venue, at.signer, input.coreAddress, input.liveAddress, input.core.value,
               input.live.value, input.draft, at.slot, at.mint, at.builtAt)
  }

  function RoleIndex(role: WalletRole): int {
    if role.Participant? then role.index else -1
  }

  function Expected(env: Env, input: RoomUiInput, at: Attempt): Option<Expectation>
    requires input.core.Some? && input.live.Some?
    requires NeedsSlot(at.action) && at.slot.Some? ==> at.slot.value < 6
    requires at.action == SettleCommitted ==> ValidSelection(input.live.value.selectedSlots)
  {
    BuildPendingRequest(env, at.action, input.coreAddress, input.core.value, input.live.value, RoleIndex(input.role),
                        input.draft, at.slot)
  }

  /** The room as a client sees it. */
  function View(w: World): Snapshot {
    Snapshot(Some(w.core), Some(Current(w)), None, None)
  }

  /** The expectation tells the two states apart. */
  predicate Confirms(w: World, w': World, e: Expectation) {
    !ExpectationMet(e, View(w)) && ExpectationMet(e, View(w'))
  }

  predicate NotFrozen(l: Ledger, account: Key) {
    account in l.accounts ==> !l.accounts[account].frozen
  }

  /** `tx` succeeds exactly when `clear`, and its success is exactly what `e` reports. */
  ghost predicate Sound(env: Env, w: World, signer: Key, tx: Transaction, e: Expectation, clear: bool) {
    var r := Send(env, w, signer, tx);
    && (r.Ok? <==> clear)
    && (r.Ok? ==> Confirms(w, r.value, e))
  }

  // ----- Funding -----

  lemma DepositOffered(env: Env, input: RoomUiInput, core: RoomCore, signer: Key, slot: nat)
    requires input.core == Some(core) && input.role == DeriveWalletRole(Some(signer), core.participants)
    requires LegalAction(DepositAsset, DeriveRoomUiState(env, input), input.role, Some(slot))
    ensures slot < 6 && core.status == Funding && core.participants[slot / 2] == signer
    ensures !Has(core.depositedMask, slot)
  {
    hide Has;
  }

  /** For an empty slot the client's uniqueness check is the program's. */
  lemma UniquenessAgrees(env: Env, core: RoomCore, mint: Key, slot: nat)
    requires CoreFits(env, core) && slot < 6 && !Has(core.depositedMask, slot)
    ensures DepositMintUnique(core, mint, slot) <==> !Rules.MintTaken(core, mint)
  {
    forall s | 0 <= s < 6
      ensures Has(core.depositedMask, s) <==> core.assets[s].flags & DEPOSITED != 0
    {
      assert AssetFits(env, core, s);
    }
    hide Has, AssetFits, MasksFit;
  }

  lemma DepositRule(env: Env, core: RoomCore, l: Ledger, now: i64, signer: Key, slot: nat, mint: Key)
    requires slot < 6 && core.status == Funding && core.participants[slot / 2] == signer
    requires !Has(core.depositedMask, slot)
    requires signer != env.VaultAuthority() && !Rules.MintTaken(core, mint)
    requires ValidDeposit(env, l, signer, env.coreKey, core, mint, slot)
    ensures var r := Rules.DepositAsset(env, core, l, now, signer, slot, mint, env.ata(signer, mint),
                                        env.VaultOf(mint));
      && (r.Ok? <==> NotFrozen(l, env.ata(signer, mint)) && NotFrozen(l, env.VaultOf(mint)))
      && (r.Ok? ==> r.value.0.depositedMask == With(core.depositedMask, slot))
  {
    hide Has, With, DepositMintUnique, Rules.MintTaken;
  }

  lemma DepositSound(env: Env, w: World, signer: Key, slot: nat, mint: Key)
    requires CoreFits(env, w.core) && signer != env.VaultAuthority()
    requires slot < 6 && w.core.status == Funding && w.core.participants[slot / 2] == signer
    requires !Has(w.core.depositedMask, slot)
    requires ValidDeposit(env, w.ledger, signer, env.coreKey, w.core, mint, slot)
    ensures Sound(env, w, signer, Single(Deposit(slot, mint, env.ata(signer, mint), env.VaultOf(mint))),
                  Mask(DepositedMask, With(w.core.depositedMask, slot)),
                  NotFrozen(w.ledger, env.ata(signer, mint)) && NotFrozen(w.ledger, env.VaultOf(mint)))
  {
    UniquenessAgrees(env, w.core, mint, slot);
    WithHas(w.core.depositedMask, slot, slot);
    assert DepositMintUnique(w.core, mint, slot);
    hide CoreFits, Has, With, DepositMintUnique, Rules.MintTaken, Rules.DepositAsset, ValidDeposit, NotFrozen;
    DepositRule(env, w.core, w.ledger, w.now, signer, slot, mint);
  }

  // ----- Activation and cancellation -----

  lemma ActivateOffered(env: Env, input: RoomUiInput, core: RoomCore, signer: Key)
    requires input.core == Some(core) && input.role == DeriveWalletRole(Some(signer), core.participants)
    requires SnapshotActionAllowed(ActivateAndDelegate, DeriveRoomUiState(env, input), input.role)
    ensures core.status == Funding && core.depositedMask == SLOTS && input.now < core.expiresAt
    ensures Rules.RequireParticipant(core.participants, signer).Pass?
  {
    hide Has;
  }

  lemma ActivateSound(env: Env, w: World, signer: Key)
    requires CopiesFit(w) && signer != env.VaultAuthority()
    requires w.core.status == Funding && w.core.depositedMask == SLOTS
    requires Rules.RequireParticipant(w.core.participants, signer).Pass?
    ensures Sound(env, w, signer, Single(Activate), Status(Active), w.now < w.core.expiresAt)
  {
    hide Rules.RequireParticipant;
  }

  lemma CancelOffered(env: Env, input: RoomUiInput, core: RoomCore, signer: Key, action: RoomAction)
    requires input.core == Some(core) && input.role == DeriveWalletRole(Some(signer), core.participants)
    requires action == CancelByParticipant || action == CancelExpired
    requires SnapshotActionAllowed(action, DeriveRoomUiState(env, input), input.role)
    ensures action == CancelByParticipant ==>
      core.status == Funding && Rules.RequireParticipant(core.participants, signer).Pass?
    ensures action == CancelExpired ==> (core.status == Funding || core.status == Active) && input.now >= core.expiresAt
  {
    hide Has;
  }

  lemma CancelSound(env: Env, w: World, signer: Key, action: Action)
    requires signer != env.VaultAuthority()
    requires action.CancelAsParticipant? || action.CancelAfterExpiry?
    requires action.CancelAsParticipant? ==>
      w.core.status == Funding && Rules.RequireParticipant(w.core.participants, signer).Pass?
    requires action.CancelAfterExpiry? ==> w.core.status == Funding || w.core.status == Active
    ensures Sound(env, w, signer, Single(action), Status(Cancelled),
                  action.CancelAfterExpiry? ==> w.now >= w.core.expiresAt)
  {
    hide Rules.RequireParticipant;
  }

  // ----- Negotiation on the rollup -----

  /** The delegated copy and the seat of the signer, as every negotiation step needs them. */
  predicate AtTable(w: World, input: RoomUiInput, signer: Key, phase: LivePhase) {
    && input.role.Participant? && w.core.participants[input.role.index] == signer
    && w.er.Delegated? && input.live == Some(w.er.live) && w.er.live.phase == phase
    && w.core.status == Active
  }

  lemma NegotiationOffered(env: Env, w: World, input: RoomUiInput, signer: Key, action: RoomAction)
    requires Fresh(env, w, input) && CopiesFit(w) && input.role == DeriveWalletRole(Some(signer), w.core.participants)
    requires action == Propose || action == Lock || action == RevokeLock
    requires SnapshotActionAllowed(action, DeriveRoomUiState(env, input), input.role)
    ensures AtTable(w, input, signer, Negotiating)
    ensures action == Propose ==> FundedChoice(input.draft.selectedSlots, w.core)
    ensures action == Lock ==> !Has(w.er.live.lockMask, input.role.index)
    ensures action == RevokeLock ==> Has(w.er.live.lockMask, input.role.index)
  {
    hide Has, FundedChoice, AuthorityValid, CanonicalInitialProposal;
  }

  lemma FinalizeOffered(env: Env, w: World, input: RoomUiInput, signer: Key)
    requires Fresh(env, w, input) && CopiesFit(w) && input.role == DeriveWalletRole(Some(signer), w.core.participants)
    requires SnapshotActionAllowed(FinalizeCommitOnly, DeriveRoomUiState(env, input), input.role)
    ensures AtTable(w, input, signer, Finalizing)
  {
    hide Has, FundedChoice, AuthorityValid, CanonicalInitialProposal;
  }

  /** The guard every negotiation step starts with passes, whichever active snapshot the rollup reads. */
  lemma ContextPasses(env: Env, w: World, venue: Venue, signer: Key, seat: SeatIndex)
    requires CoreFits(env, w.core) && LogFits(env, w) && w.er.Delegated? && LiveFits(env, w.core, w.er.live)
    requires RollupSees(w, venue) && w.core.participants[seat] == signer
    ensures CoreSeen(w, venue).Ok? && LiveSeen(w, venue) == Ok(w.er.live)
    ensures var core := CoreSeen(w, venue).value;
      && SameTerms(core, w.core) && core.depositedMask == SLOTS
      && Rules.LiveContext(env, core, w.er.live, venue.erNow, signer).Pass?
      && Rules.ParticipantIndex(core.participants, signer) == Ok(seat)
  {
    hide AssetFits, DistinctMints, LocksFit, ProposalFits;
    var core := w.coreLog[venue.snapshot];
    assert SameTerms(core, w.core) && CoreFits(env, core);
  }

  /** The hash the client predicts; its 64-bit encoder wraps a revision past the largest one. */
  function PredictedHash(env: Env, live: RoomLive, slots: Bytes3, cycle: Cycle): Hash {
    var next := live.revision + 1;
    env.sha256(Join(ClientSlices(env.coreKey, if next > U64_MAX then 0 else next, live.expiresAt, slots, cycle)))
  }

  lemma ProposeRule(env: Env, core: RoomCore, live: RoomLive, now: i64, signer: Key, slots: Bytes3, cycle: Cycle)
    requires Rules.LiveContext(env, core, live, now, signer).Pass? && live.phase == Negotiating
    requires live.expiresAt == core.expiresAt
    requires Rules.ValidateSelection(core, slots).Pass?
    ensures var r := Rules.Propose(env, core, live, now, signer, live.revision, slots, cycle);
      && (r.Ok? <==> live.revision < U64_MAX)
      && (r.Ok? ==> r.value.revision == live.revision + 1 && r.value.selectedSlots == slots && r.value.cycle == cycle
                    && r.value.allocationHash == PredictedHash(env, live, slots, cycle))
  {
    hide Rules.LiveContext, Rules.ValidateSelection, Join;
    if live.revision < U64_MAX {
      assert ClientSlices(env.coreKey, live.revision + 1, live.expiresAt, slots, cycle)
          == ProgramSlices(env.coreKey, live.revision + 1, core.expiresAt, slots, cycle, DestinationsFor(cycle));
    }
  }

  /** A rollup that shows no active core or a clock past the expiry refuses every negotiation step. */
  lemma BlindRollup(env: Env, w: World, signer: Key, action: Action)
    requires CopiesFit(w) && LogFits(env, w) && w.er.Delegated? && LiveFits(env, w.core, w.er.live)
    requires Agreement.Negotiates(action) && !RollupSees(w, action.venue)
    ensures Perform(env, w, signer, action).Err?
  {
    hide LocksFit, ProposalFits, CoreFits, Rules.ValidateLockSet, Rules.ValidateSelection, Rules.ParticipantIndex,
         AllocationHash;
    if action.venue.OnEr? && action.venue.snapshot < |w.coreLog| {
      assert SameTerms(w.coreLog[action.venue.snapshot], w.core);
    }
  }

  /** The signer of a seat at the table, and what every negotiation step relies on. */
  ghost predicate Seated(env: Env, w: World, signer: Key, seat: SeatIndex) {
    && CoreFits(env, w.core) && LogFits(env, w) && CopiesFit(w) && w.er.Delegated? && LiveFits(env, w.core, w.er.live)
    && w.core.participants[seat] == signer && signer != env.VaultAuthority()
  }

  lemma BlindSound(env: Env, w: World, signer: Key, seat: SeatIndex, action: Action, e: Expectation, clear: bool)
    requires Seated(env, w, signer, seat) && Agreement.Negotiates(action) && !RollupSees(w, action.venue)
    ensures Sound(env, w, signer, Single(action), e, RollupSees(w, action.venue) && clear)
  {
    BlindRollup(env, w, signer, action);
    hide Perform, Confirms, RollupSees;
  }

  lemma ProposeSeen(env: Env, w: World, venue: Venue, signer: Key, seat: SeatIndex, slots: Bytes3, cycle: Cycle)
    requires Seated(env, w, signer, seat) && RollupSees(w, venue)
    requires w.er.live.phase == Negotiating && ValidSelection(slots)
    ensures var live := w.er.live;
      Sound(env, w, signer, Single(MakeProposal(venue, live.revision, slots, cycle)),
            Proposal(live.revision + 1, slots, cycle, PredictedHash(env, live, slots, cycle)), live.revision < U64_MAX)
  {
    hide CoreFits, LogFits, LiveFits, CopiesFit, SameTerms, Rules.LiveContext, Rules.ParticipantIndex,
         Rules.ValidateSelection, CoreSeen, Rules.Propose, PredictedHash;
    ContextPasses(env, w, venue, signer, seat);
    var core, live := CoreSeen(w, venue).value, w.er.live;
    Agreement.FundedSelection(core, slots);
    ExpiryAgrees(env, w, core);
    ProposeRule(env, core, live, venue.erNow, signer, slots, cycle);
  }

  lemma ExpiryAgrees(env: Env, w: World, core: RoomCore)
    requires LiveFits(env, w.core, Current(w)) && SameTerms(core, w.core)
    ensures Current(w).expiresAt == core.expiresAt
  {
  }

  lemma LockSeen(env: Env, w: World, venue: Venue, signer: Key, seat: SeatIndex)
    requires Seated(env, w, signer, seat) && RollupSees(w, venue)
    requires w.er.live.phase == Negotiating && !Has(w.er.live.lockMask, seat)
    ensures var live := w.er.live;
      Sound(env, w, signer, Single(TakeLock(venue, live.revision, live.allocationHash)),
            SeatLock(seat, live.revision, live.allocationHash), true)
  {
    hide CoreFits, LogFits, LiveFits, CopiesFit, SameTerms, Rules.LiveContext, CoreSeen, Rules.ParticipantIndex,
         Rules.Lock;
    ContextPasses(env, w, venue, signer, seat);
    var core, live := CoreSeen(w, venue).value, w.er.live;
    Preservation.SameTermsLive(env, w.core, core, live);
    LockRule(env, core, live, venue.erNow, signer, seat);
  }

  lemma LockRule(env: Env, core: RoomCore, live: RoomLive, now: i64, signer: Key, seat: SeatIndex)
    requires LiveFits(env, core, live) && Rules.LiveContext(env, core, live, now, signer).Pass?
    requires Rules.ParticipantIndex(core.participants, signer) == Ok(seat)
    requires live.phase == Negotiating && !Has(live.lockMask, seat)
    ensures var r := Rules.Lock(env, core, live, now, signer, live.revision, live.allocationHash);
      && r.Ok?
      && Has(r.value.lockMask, seat) && r.value.lockedRevision[seat] == live.revision
      && r.value.lockedHash[seat] == live.allocationHash
      && r.value.revision == live.revision && r.value.allocationHash == live.allocationHash
  {
    hide LiveFits, Has, With, Rules.LiveContext, Rules.ParticipantIndex, Rules.ValidateLockSet;
    Agreement.LockIff(env, core, live, now, signer, live.revision, live.allocationHash);
    WithHas(live.lockMask, seat, seat);
  }

  lemma RevokeSeen(env: Env, w: World, venue: Venue, signer: Key, seat: SeatIndex)
    requires Seated(env, w, signer, seat) && RollupSees(w, venue)
    requires w.er.live.phase == Negotiating && Has(w.er.live.lockMask, seat)
    ensures var live := w.er.live;
      Sound(env, w, signer, Single(DropLock(venue, live.revision, live.allocationHash)),
            SeatRevoke(seat, live.revision, live.allocationHash), true)
  {
    hide CoreFits, LogFits, LiveFits, CopiesFit, SameTerms, Rules.LiveContext, CoreSeen, Has, Without,
         Rules.ParticipantIndex;
    ContextPasses(env, w, venue, signer, seat);
    WithoutHas(w.er.live.lockMask, seat, seat);
  }

  lemma FinalizeSeen(env: Env, w: World, venue: Venue, signer: Key, seat: SeatIndex)
    requires Seated(env, w, signer, seat) && RollupSees(w, venue)
    requires w.er.live.phase == Finalizing
    ensures Sound(env, w, signer, Single(Finalize(venue)), Phase(Finalized), true)
  {
    ContextPasses(env, w, venue, signer, seat);
    Agreement.FullLockSet(w.er.live);
    hide CoreFits, LogFits, LiveFits, CopiesFit, SameTerms, Rules.LiveContext, RollupSees, CoreSeen,
         Rules.ValidateLockSet, Rules.ParticipantIndex;
  }

  lemma ProposeSound(env: Env, w: World, venue: Venue, signer: Key, seat: SeatIndex, slots: Bytes3, cycle: Cycle)
    requires Seated(env, w, signer, seat) && w.er.live.phase == Negotiating && ValidSelection(slots)
    ensures var live := w.er.live;
      Sound(env, w, signer, Single(MakeProposal(venue, live.revision, slots, cycle)),
            Proposal(live.revision + 1, slots, cycle, PredictedHash(env, live, slots, cycle)),
            RollupSees(w, venue) && live.revision < U64_MAX)
  {
    assert w.er.Delegated?;
    hide Seated, Sound, RollupSees, PredictedHash, ValidSelection;
    var live := w.er.live;
    if RollupSees(w, venue) {
      ProposeSeen(env, w, venue, signer, seat, slots, cycle);
    } else {
      BlindSound(env, w, signer, seat, MakeProposal(venue, live.revision, slots, cycle),
                 Proposal(live.revision + 1, slots, cycle, PredictedHash(env, live, slots, cycle)),
                 live.revision < U64_MAX);
    }
  }

  lemma LockSound(env: Env, w: World, venue: Venue, signer: Key, seat: SeatIndex)
    requires Seated(env, w, signer, seat) && w.er.live.phase == Negotiating && !Has(w.er.live.lockMask, seat)
    ensures var live := w.er.live;
      Sound(env, w, signer, Single(TakeLock(venue, live.revision, live.allocationHash)),
            SeatLock(seat, live.revision, live.allocationHash), RollupSees(w, venue))
  {
    assert w.er.Delegated?;
    hide Seated, Sound, RollupSees, Has;
    var live := w.er.live;
    if RollupSees(w, venue) {
      LockSeen(env, w, venue, signer, seat);
    } else {
      BlindSound(env, w, signer, seat, TakeLock(venue, live.revision, live.allocationHash),
                 SeatLock(seat, live.revision, live.allocationHash), true);
    }
  }

  lemma RevokeSound(env: Env, w: World, venue: Venue, signer: Key, seat: SeatIndex)
    requires Seated(env, w, signer, seat) && w.er.live.phase == Negotiating && Has(w.er.live.lockMask, seat)
    ensures var live := w.er.live;
      Sound(env, w, signer, Single(DropLock(venue, live.revision, live.allocationHash)),
            SeatRevoke(seat, live.revision, live.allocationHash), RollupSees(w, venue))
  {
    assert w.er.Delegated?;
    hide Seated, Sound, RollupSees, Has;
    var live := w.er.live;
    if RollupSees(w, venue) {
      RevokeSeen(env, w, venue, signer, seat);
    } else {
      BlindSound(env, w, signer, seat, DropLock(venue, live.revision, live.allocationHash),
                 SeatRevoke(seat, live.revision, live.allocationHash), true);
    }
  }

  lemma FinalizeSound(env: Env, w: World, venue: Venue, signer: Key, seat: SeatIndex)
    requires Seated(env, w, signer, seat) && w.er.live.phase == Finalizing
    ensures Sound(env, w, signer, Single(Finalize(venue)), Phase(Finalized), RollupSees(w, venue))
  {
    hide Seated, Sound, RollupSees;
    if RollupSees(w, venue) {
      FinalizeSeen(env, w, venue, signer, seat);
    } else {
      BlindSound(env, w, signer, seat, Finalize(venue), Phase(Finalized), true);
    }
  }

  // ----- Returns -----

  lemma ReturnOffered(env: Env, input: RoomUiInput, core: RoomCore, slot: nat)
    requires input.core == Some(core)
    requires LegalAction(ReturnAsset, DeriveRoomUiState(env, input), input.role, Some(slot))
    ensures slot < 6 && slot in ReturnableSlots(core)
  {
    hide Has, FundedChoice, AuthorityValid, CanonicalInitialProposal, ReturnableSlots;
    if ReturnableSlots(core) != [] {
      ReturnableInRange(core, slot);
    }
  }

  lemma ReturnableInRange(core: RoomCore, slot: nat)
    ensures slot in ReturnableSlots(core) ==> slot < 6
  {
  }

  lemma ReturnableIff(core: RoomCore, slot: nat)
    requires slot < 6 && MasksFit(core)
    ensures slot in ReturnableSlots(core) <==> Rules.ReturnMaskGuard(core, slot).Pass?
    ensures slot in ReturnableSlots(core) <==> !Undecided(core) && Held(core, slot)
  {
    hide MasksFit, ReturnableSlots, Rules.ReturnMaskGuard, Held;
    ReturnableHas(core, slot);
    ReturnableHeld(core, slot);
  }

  lemma ReturnableHas(core: RoomCore, slot: nat)
    requires slot < 6
    ensures slot in ReturnableSlots(core) <==> Rules.ReturnMaskGuard(core, slot).Pass?
  {
    MinusHas(core.depositedMask, core.selectedMask, slot);
    MinusHas(core.depositedMask, core.returnedMask, slot);
    MinusHas(Minus(core.depositedMask, core.selectedMask), core.returnedMask, slot);
    MinusHas(0, core.returnedMask, slot);
    assert !Has(0, slot);
    hide Has, Minus;
  }

  lemma ReturnableHeld(core: RoomCore, slot: nat)
    requires slot < 6 && MasksFit(core)
    ensures Rules.ReturnMaskGuard(core, slot).Pass? <==> !Undecided(core) && Held(core, slot)
  {
    MinusHas(core.depositedMask, core.selectedMask, slot);
    MinusHas(core.depositedMask, core.returnedMask, slot);
    hide Has, Minus, Within, Apart, OnePerSeat;
    if core.status == Complete || core.status == Closed {
      DoneHoldsNothing(core, slot);
    }
  }

  lemma DoneHoldsNothing(core: RoomCore, slot: nat)
    requires slot < 6 && MasksFit(core) && (core.status == Complete || core.status == Closed)
    ensures !Held(core, slot)
  {
    MinusHas(core.depositedMask, core.selectedMask, slot);
  }

  lemma FlagsAgree(env: Env, core: RoomCore, slot: nat)
    requires slot < 6 && AssetFits(env, core, slot)
    ensures core.assets[slot].flags & DEPOSITED != 0 <==> Has(core.depositedMask, slot)
    ensures Has(core.depositedMask, slot) ==>
      && (core.assets[slot].flags & RETURNED != 0 <==> Has(core.returnedMask, slot))
      && (core.assets[slot].flags & TRANSFERRED != 0 <==> Has(core.selectedMask, slot))
  {
  }

  /** On every core a room can have, the slots the interface offers, the slots the builder accepts, the slots the
      program's guard accepts and the assets still in custody after the outcome are the same slots. */
  lemma ReturnGuardsAgree(env: Env, core: RoomCore, slot: nat)
    requires slot < 6 && CoreFits(env, core)
    ensures slot in ReturnableSlots(core) <==> ValidReturnState(env, env.coreKey, core, slot)
    ensures slot in ReturnableSlots(core) <==> Rules.ReturnMaskGuard(core, slot).Pass?
    ensures slot in ReturnableSlots(core) <==> !Undecided(core) && Held(core, slot)
  {
    assert AssetFits(env, core, slot);
    hide MasksFit, DistinctMints, ReturnableSlots, Has;
    FlagsAgree(env, core, slot);
    ReturnableIff(core, slot);
    CancelledSelects(core, slot);
  }

  lemma CancelledSelects(core: RoomCore, slot: nat)
    requires slot < 6 && MasksFit(core)
    ensures core.status == Cancelled ==> !Has(core.selectedMask, slot)
  {
  }

  lemma ReturnSend(env: Env, w: World, signer: Key, slot: nat, clear: bool)
    requires signer != env.VaultAuthority() && slot < 6 && !Has(w.core.returnedMask, slot)
    requires var a := w.core.assets[slot];
      var r := Rules.ReturnAsset(env, w.core, w.ledger, slot, a.mint, a.vault, a.originalOwner, a.originalAta);
      (r.Ok? <==> clear) && (r.Ok? ==> r.value.0 == Rules.MarkReturned(w.core, slot))
    ensures var a := w.core.assets[slot];
      Sound(env, w, signer, Single(Machine.Return(slot, a.mint, a.vault, a.originalOwner, a.originalAta)),
            Expectation.Return(slot), clear)
  {
    hide Has, Rules.ReturnAsset, Rules.MarkReturned;
    MarkedReturned(w.core, slot);
  }

  lemma ReturnSound(env: Env, w: World, signer: Key, slot: nat)
    requires Inv(env, w) && signer != env.VaultAuthority() && slot < 6 && slot in ReturnableSlots(w.core)
    ensures var built := BuildReturnAsset(env, env.coreKey, w.core, slot);
      built.Some? && Sound(env, w, signer, Single(built.value), Expectation.Return(slot),
                           Recovery.Reclaimable(w.core, w.ledger, slot))
  {
    assert CoreFits(env, w.core);
    ReturnGuardsAgree(env, w.core, slot);
    Agreement.InvParts(env, w);
    hide Inv, MasksFit, Conserved, Has, Rules.ReturnAsset, Recovery.Reclaimable, ReturnableSlots, Rules.MarkReturned,
         ValidReturnState, Undecided, Sound, Rules.ReturnMaskGuard, AssetFits, DistinctMints;
    Recovery.ReturnIff(env, w, slot);
    var a := w.core.assets[slot];
    Settlement.ReturnEffect(env, w.core, w.ledger, slot, a.mint, a.vault, a.originalOwner, a.originalAta);
    ReturnSend(env, w, signer, slot, Recovery.Reclaimable(w.core, w.ledger, slot));
  }

  lemma MarkedReturned(core: RoomCore, slot: nat)
    requires slot < 6
    ensures Has(Rules.MarkReturned(core, slot).returnedMask, slot)
  {
    WithHas(core.returnedMask, slot, slot);
  }

  // ----- Settlement -----

  lemma SettleOffered(env: Env, w: World, input: RoomUiInput)
    requires Fresh(env, w, input)
    requires SnapshotActionAllowed(SettleCommitted, DeriveRoomUiState(env, input), input.role)
    ensures w.core.status == Active && input.now < w.core.expiresAt
    ensures input.live == Some(w.live) && w.live.phase == Finalized
    ensures w.live.lockMask == SEATS && w.live.revision > 0 && ValidSelection(w.live.selectedSlots)
  {
    hide Has, ProposalIntegrity, LocksMatchAuthority, SelectionFunded, CanonicalInitialProposal, ReturnableSlots;
  }

  /** The base copy a settlement can be built from. */
  predicate Committed(w: World) {
    && w.core.status == Active && w.live.phase == Finalized
    && w.live.lockMask == SEATS && w.live.revision > 0
  }

  /** The leg the program expects, with the account owner the preparation names. */
  predicate CanonicalLeg(env: Env, w: World, leg: SettlementLeg, i: nat)
    requires i < 3 && Rules.LegIndicesInRange(w.live)
  {
    AccountsOf(leg) == CustodyLaws.LegOf(env, w.core, w.live, i)
      && leg.recipient == w.core.participants[w.live.destinations[i]]
  }

  lemma SettlementChecksPass(env: Env, w: World, builtAt: int)
    requires CoreFits(env, w.core) && LiveFits(env, w.core, w.live) && Committed(w)
    ensures Rules.LegIndicesInRange(w.live)
    ensures ValidSettlementLinkage(env, env.coreKey, env.LiveKey(), w.core, w.live)
    ensures ValidSettlementState(env, env.coreKey, w.core, w.live, builtAt) <==> builtAt < w.core.expiresAt
    ensures ValidSettlementSelection(w.core, w.live)
  {
    hide AssetFits, DistinctMints;
    Agreement.FullLockSet(w.live);
    HashesAgree(env, w.live);
    Agreement.FundedSelection(w.core, w.live.selectedSlots);
  }

  /** Of the builder's own checks only the one of the client's clock can refuse what the interface offered, and the legs
      are the canonical ones. */
  lemma SettleBuilds(env: Env, w: World, builtAt: int) returns (legs: SettlementLegs)
    requires CoreFits(env, w.core) && LiveFits(env, w.core, w.live) && Committed(w)
    ensures Rules.LegIndicesInRange(w.live)
    ensures BuildSettleCommitted(env, env.coreKey, env.LiveKey(), w.core, w.live, builtAt)
      == if builtAt < w.core.expiresAt then Some(legs) else None
    ensures CanonicalLeg(env, w, legs[0], 0) && CanonicalLeg(env, w, legs[1], 1) && CanonicalLeg(env, w, legs[2], 2)
  {
    SettlementChecksPass(env, w, builtAt);
    var s := w.live.selectedSlots;
    assert AssetFits(env, w.core, s[0]) && AssetFits(env, w.core, s[1]) && AssetFits(env, w.core, s[2]);
    hide LiveFits, DistinctMints, ValidSettlementState, ValidSettlementLinkage;
    legs := BuildLegs(env, env.coreKey, w.core, w.live).value;
  }

  lemma OpenAtaStep(env: Env, w: World, signer: Key, account: Key, mint: Key, owner: Key)
    requires Reachable(env, w) && signer != env.VaultAuthority() && Rules.OpenAta(w.ledger, account, mint, owner).Ok?
    ensures Reachable(env, w.(ledger := Rules.OpenAta(w.ledger, account, mint, owner).value))
  {
    var step := Token(signer, CreateAccount(account, mint, owner));
    ReachableNext(env, w, step);
    hide Reachable;
    assert After(env, w, step) == w.(ledger := Rules.OpenAta(w.ledger, account, mint, owner).value);
  }

  lemma OpenAtaOpens(l: Ledger, account: Key, mint: Key, owner: Key, other: Key)
    ensures var r := Rules.OpenAta(l, account, mint, owner);
      r.Ok? ==>
        && account in r.value.accounts && r.value.accounts[account].mint == mint
           && r.value.accounts[account].owner == owner
        && (other in l.accounts ==> other in r.value.accounts && r.value.accounts[other] == l.accounts[other])
  {
  }

  predicate Opened(l: Ledger, leg: SettlementLeg) {
    leg.destination in l.accounts && l.accounts[leg.destination].mint == leg.mint
      && l.accounts[leg.destination].owner == leg.recipient
  }

  /** The prepared ledger is one the room can reach, with all three recipients' accounts open. */
  lemma PreparedReachable(env: Env, w: World, signer: Key, legs: SettlementLegs)
    requires Reachable(env, w) && signer != env.VaultAuthority() && PrepareRecipients(w.ledger, legs).Ok?
    ensures var ready := PrepareRecipients(w.ledger, legs).value;
      Reachable(env, w.(ledger := ready)) && Opened(ready, legs[0]) && Opened(ready, legs[1]) && Opened(ready, legs[2])
  {
    hide Reachable, Rules.OpenAta;
    var l1 := Rules.OpenAta(w.ledger, legs[0].destination, legs[0].mint, legs[0].recipient).value;
    var l2 := Rules.OpenAta(l1, legs[1].destination, legs[1].mint, legs[1].recipient).value;
    OpenAtaStep(env, w, signer, legs[0].destination, legs[0].mint, legs[0].recipient);
    OpenAtaStep(env, w.(ledger := l1), signer, legs[1].destination, legs[1].mint, legs[1].recipient);
    OpenAtaStep(env, w.(ledger := l2), signer, legs[2].destination, legs[2].mint, legs[2].recipient);
    OpenAtaOpens(w.ledger, legs[0].destination, legs[0].mint, legs[0].recipient, legs[0].destination);
    OpenAtaOpens(l1, legs[1].destination, legs[1].mint, legs[1].recipient, legs[0].destination);
    OpenAtaOpens(l2, legs[2].destination, legs[2].mint, legs[2].recipient, legs[0].destination);
    OpenAtaOpens(l2, legs[2].destination, legs[2].mint, legs[2].recipient, legs[1].destination);
  }

  predicate AllThawed(l: Ledger, legs: SettlementLegs) {
    NotFrozen(l, legs[0].destination) && NotFrozen(l, legs[1].destination) && NotFrozen(l, legs[2].destination)
  }

  /** The recipient's account is absent, or of the leg's mint, theirs and not frozen. */
  predicate RecipientOpen(l: Ledger, leg: SettlementLeg) {
    leg.destination in l.accounts ==>
      l.accounts[leg.destination].mint == leg.mint && l.accounts[leg.destination].owner == leg.recipient
      && !l.accounts[leg.destination].frozen
  }

  /** All three recipients can take their asset, each on an account of its own. */
  predicate RecipientsOpen(l: Ledger, legs: SettlementLegs) {
    && RecipientOpen(l, legs[0]) && RecipientOpen(l, legs[1]) && RecipientOpen(l, legs[2])
    && legs[0].destination != legs[1].destination && legs[0].destination != legs[2].destination
    && legs[1].destination != legs[2].destination
  }

  predicate ThreeMints(l: Ledger, legs: SettlementLegs) {
    && legs[0].mint in l.mints && legs[1].mint in l.mints && legs[2].mint in l.mints
    && legs[0].mint != legs[1].mint && legs[0].mint != legs[2].mint && legs[1].mint != legs[2].mint
  }

  /** The account creations succeed and leave no frozen recipient exactly when every recipient was open before them. */
  lemma PreparationIff(l: Ledger, legs: SettlementLegs)
    requires ThreeMints(l, legs)
    ensures PrepareRecipients(l, legs).Ok? && AllThawed(PrepareRecipients(l, legs).value, legs)
      <==> RecipientsOpen(l, legs)
  {
  }

  lemma ReadyIff(env: Env, w: World, legs: SettlementLegs)
    requires Rules.LegIndicesInRange(w.live)
    requires CanonicalLeg(env, w, legs[0], 0) && CanonicalLeg(env, w, legs[1], 1) && CanonicalLeg(env, w, legs[2], 2)
    requires Opened(w.ledger, legs[0]) && Opened(w.ledger, legs[1]) && Opened(w.ledger, legs[2])
    ensures CustodyLaws.LegsCanonical(env, w.core, w.live,
                                      [AccountsOf(legs[0]), AccountsOf(legs[1]), AccountsOf(legs[2])])
    ensures CustodyLaws.RecipientsReady(env, w.core, w.ledger, w.live) <==> AllThawed(w.ledger, legs)
  {
  }

  lemma SettleRecords(env: Env, w: World, legs: Rules.Legs)
    requires Reachable(env, w) && Committed(w) && Rules.LegIndicesInRange(w.live)
    ensures var r := Rules.Settle(env, w.core, w.live, w.liveOwner, Rules.ProgramOwned, w.ledger, w.now, legs);
      r.Ok? ==> r.value.0.status == Settled && r.value.0.selectedMask == SlotMask(w.live.selectedSlots)
                && r.value.0.settledRevision == w.live.revision && r.value.0.allocationHash == w.live.allocationHash
  {
    Settlement.ReachableInv(env, w);
    Agreement.InvParts(env, w);
    hide Inv, Reachable, Conserved, MasksFit, Rules.Settle, With;
    Settlement.SettleGuarded(env, w.core, w.live, w.liveOwner, Rules.ProgramOwned, w.ledger, w.now, legs);
  }

  lemma PreparedSettles(env: Env, w: World, legs: SettlementLegs)
    requires Reachable(env, w) && Committed(w) && w.liveOwner.ProgramOwned? && Rules.LegIndicesInRange(w.live)
    requires w.now < w.core.expiresAt
    requires CanonicalLeg(env, w, legs[0], 0) && CanonicalLeg(env, w, legs[1], 1) && CanonicalLeg(env, w, legs[2], 2)
    requires Opened(w.ledger, legs[0]) && Opened(w.ledger, legs[1]) && Opened(w.ledger, legs[2])
    ensures var accounts := [AccountsOf(legs[0]), AccountsOf(legs[1]), AccountsOf(legs[2])];
      Rules.Settle(env, w.core, w.live, w.liveOwner, Rules.ProgramOwned, w.ledger, w.now, accounts).Ok?
      <==> AllThawed(w.ledger, legs)
  {
    hide Reachable, Rules.Settle, AllThawed, CanonicalLeg, Opened, CustodyLaws.RecipientsReady,
         CustodyLaws.LegsCanonical, Rules.SettlementGuard;
    Agreement.ProposedDealPasses(env, w);
    ReadyIff(env, w, legs);
    CustodyLaws.GuardedDealSettles(env, w, Rules.ProgramOwned,
                                   [AccountsOf(legs[0]), AccountsOf(legs[1]), AccountsOf(legs[2])]);
  }

  lemma LegMints(env: Env, w: World, legs: SettlementLegs)
    requires Inv(env, w) && w.core.status == Active && Rules.LegIndicesInRange(w.live)
    requires CanonicalLeg(env, w, legs[0], 0) && CanonicalLeg(env, w, legs[1], 1) && CanonicalLeg(env, w, legs[2], 2)
    ensures ThreeMints(w.ledger, legs)
  {
    var s := w.live.selectedSlots;
    assert SlotInCustody(env, w.core, w.ledger, s[0]) && SlotInCustody(env, w.core, w.ledger, s[1])
        && SlotInCustody(env, w.core, w.ledger, s[2]);
    SlotsHas(s[0]);
    SlotsHas(s[1]);
    SlotsHas(s[2]);
    hide LogFits, LiveFits, CopiesFit, Consent, SettlementFits, ProgressFits, ReturnsFit, AssetFits, Conserved, Has,
         Held, VaultHolds;
  }

  /** While base still counts the account as delegated, the committed path refuses it. */
  lemma WrongOwner(env: Env, w: World, signer: Key, legs: SettlementLegs)
    requires !w.liveOwner.ProgramOwned?
    ensures Send(env, w, signer, Prepared(legs)).Err?
  {
    hide PrepareRecipients, Rules.SettleLegs, Rules.ValidateLockSet, Rules.ValidateSelection;
  }

  /** At or after the expiry, whatever the client's clock says, a settlement is refused. */
  lemma LateSettlement(env: Env, w: World, signer: Key, legs: SettlementLegs)
    requires w.now >= w.core.expiresAt
    ensures Send(env, w, signer, Prepared(legs)).Err?
  {
    hide PrepareRecipients, Rules.SettleLegs, Rules.ValidateLockSet, Rules.ValidateSelection;
  }

  lemma RefusedSettles(env: Env, w: World, signer: Key, legs: SettlementLegs)
    requires Reachable(env, w) && Committed(w) && Rules.LegIndicesInRange(w.live)
    requires !w.liveOwner.ProgramOwned? || w.now >= w.core.expiresAt
    ensures var e := Expectation.Settlement(SlotMask(w.live.selectedSlots), w.live.revision, w.live.allocationHash);
      Sound(env, w, signer, Prepared(legs), e, false)
  {
    hide Reachable, Send, SlotMask;
    if w.now >= w.core.expiresAt {
      LateSettlement(env, w, signer, legs);
    } else {
      WrongOwner(env, w, signer, legs);
    }
  }

  lemma DealMints(env: Env, w: World, legs: SettlementLegs)
    requires Reachable(env, w) && w.core.status == Active && Rules.LegIndicesInRange(w.live)
    requires CanonicalLeg(env, w, legs[0], 0) && CanonicalLeg(env, w, legs[1], 1) && CanonicalLeg(env, w, legs[2], 2)
    ensures ThreeMints(w.ledger, legs)
  {
    Settlement.ReachableInv(env, w);
    hide Reachable, Inv, ThreeMints, CanonicalLeg;
    LegMints(env, w, legs);
  }

  lemma OwnedSettles(env: Env, w: World, signer: Key, legs: SettlementLegs)
    requires Reachable(env, w) && Committed(w) && Rules.LegIndicesInRange(w.live) && signer != env.VaultAuthority()
    requires CanonicalLeg(env, w, legs[0], 0) && CanonicalLeg(env, w, legs[1], 1) && CanonicalLeg(env, w, legs[2], 2)
    requires w.liveOwner.ProgramOwned? && w.now < w.core.expiresAt
    ensures var e := Expectation.Settlement(SlotMask(w.live.selectedSlots), w.live.revision, w.live.allocationHash);
      Sound(env, w, signer, Prepared(legs), e,
            PrepareRecipients(w.ledger, legs).Ok? && AllThawed(PrepareRecipients(w.ledger, legs).value, legs))
  {
    hide Reachable, Rules.Settle, AllThawed, PrepareRecipients, Opened, SlotMask;
    if PrepareRecipients(w.ledger, legs).Ok? {
      PreparedReachable(env, w, signer, legs);
      var w1 := w.(ledger := PrepareRecipients(w.ledger, legs).value);
      PreparedSettles(env, w1, legs);
      SettleRecords(env, w1, [AccountsOf(legs[0]), AccountsOf(legs[1]), AccountsOf(legs[2])]);
    }
  }

  lemma SettleSound(env: Env, w: World, signer: Key, legs: SettlementLegs)
    requires Reachable(env, w) && Committed(w) && Rules.LegIndicesInRange(w.live) && signer != env.VaultAuthority()
    requires CanonicalLeg(env, w, legs[0], 0) && CanonicalLeg(env, w, legs[1], 1) && CanonicalLeg(env, w, legs[2], 2)
    ensures var e := Expectation.Settlement(SlotMask(w.live.selectedSlots), w.live.revision, w.live.allocationHash);
      Sound(env, w, signer, Prepared(legs), e,
            w.now < w.core.expiresAt && w.liveOwner.ProgramOwned? && RecipientsOpen(w.ledger, legs))
  {
    hide Reachable, Sound, AllThawed, PrepareRecipients, SlotMask, RecipientsOpen, CanonicalLeg, ThreeMints;
    DealMints(env, w, legs);
    PreparationIff(w.ledger, legs);
    if w.liveOwner.ProgramOwned? && w.now < w.core.expiresAt {
      OwnedSettles(env, w, signer, legs);
    } else {
      RefusedSettles(env, w, signer, legs);
    }
  }

  // ----- All of them together -----

  /** What can still stop a permitted write, all of it on the ledgers before the call: a frozen account, a base clock on
      the other side of the expiry than the client's, a rollup that shows no active core or a clock past the expiry, a
      spent revision counter, a live account not yet handed back, or an account of a recipient or of the depositor that
      cannot take the token. */
  predicate Clear(env: Env, w: World, input: RoomUiInput, at: Attempt)
    requires NeedsSlot(at.action) && at.slot.Some? ==> at.slot.value < 6
    requires input.live.Some?
  {
    match at.action
    case DepositAsset => NotFrozen(w.ledger, env.ata(at.signer, at.mint)) && NotFrozen(w.ledger, env.VaultOf(at.mint))
    case Propose => RollupSees(w, at.venue) && input.live.value.revision < U64_MAX
    case Lock => RollupSees(w, at.venue)
    case RevokeLock => RollupSees(w, at.venue)
    case FinalizeCommitOnly => RollupSees(w, at.venue)
    case ReturnAsset => at.slot.Some? && Recovery.Reclaimable(w.core, w.ledger, at.slot.value)
    case ActivateAndDelegate => w.now < w.core.expiresAt
    case CancelExpired => w.now >= w.core.expiresAt
    case SettleCommitted =>
      var legs := BuildSettleCommitted(env, env.coreKey, env.LiveKey(), w.core, w.live, at.builtAt);
      legs.Some? && w.now < w.core.expiresAt && w.liveOwner.ProgramOwned? && RecipientsOpen(w.ledger, legs.value)
    case _ => true
  }

  /** The client builds the write, unless its own clock has passed the expiry when it builds a settlement. */
  predicate InTime(w: World, at: Attempt) {
    at.action == SettleCommitted ==> at.builtAt < w.core.expiresAt
  }

  /** A write is built for the attempt, if in time. It succeeds exactly when nothing outside the room's own rules
      stops it, and its success is exactly what the client's expectation reports. */
  ghost predicate Faithful(env: Env, w: World, input: RoomUiInput, at: Attempt)
    requires input.core.Some? && input.live.Some?
  {
    && (NeedsSlot(at.action) ==> at.slot.Some? && at.slot.value < 6)
    && (at.action == SettleCommitted ==> ValidSelection(input.live.value.selectedSlots))
    && var tx, e := Sent(env, input, at), Expected(env, input, at);
       && e.Some? && (tx.Some? <==> InTime(w, at))
       && (tx.Some? ==> Sound(env, w, at.signer, tx.value, e.value, Clear(env, w, input, at)))
  }

  lemma InvCore(env: Env, w: World)
    requires Inv(env, w)
    ensures CoreFits(env, w.core) && CopiesFit(w)
  {
  }

  lemma ActivateFaithful(env: Env, w: World, input: RoomUiInput, at: Attempt)
    requires CopiesFit(w) && at.signer != env.VaultAuthority() && at.action == ActivateAndDelegate
    requires input.core == Some(w.core) && input.live.Some?
    requires input.role == DeriveWalletRole(Some(at.signer), w.core.participants)
    requires SnapshotActionAllowed(at.action, DeriveRoomUiState(env, input), input.role)
    ensures Faithful(env, w, input, at)
  {
    hide DeriveRoomUiState, Sound, CopiesFit, Rules.RequireParticipant, SnapshotActionAllowed, DeriveWalletRole;
    ActivateOffered(env, input, w.core, at.signer);
    ActivateSound(env, w, at.signer);
  }

  lemma CancelFaithful(env: Env, w: World, input: RoomUiInput, at: Attempt)
    requires at.signer != env.VaultAuthority() && (at.action == CancelByParticipant || at.action == CancelExpired)
    requires input.core == Some(w.core) && input.live.Some?
    requires input.role == DeriveWalletRole(Some(at.signer), w.core.participants)
    requires SnapshotActionAllowed(at.action, DeriveRoomUiState(env, input), input.role)
    ensures Faithful(env, w, input, at)
  {
    hide DeriveRoomUiState, Sound, Rules.RequireParticipant, SnapshotActionAllowed, DeriveWalletRole;
    CancelOffered(env, input, w.core, at.signer, at.action);
    CancelSound(env, w, at.signer, if at.action == CancelByParticipant then CancelAsParticipant else CancelAfterExpiry);
  }

  lemma DepositFaithful(env: Env, w: World, input: RoomUiInput, at: Attempt)
    requires CoreFits(env, w.core) && at.signer != env.VaultAuthority() && at.action == DepositAsset && at.slot.Some?
    requires input.core == Some(w.core) && input.coreAddress == env.coreKey && input.live.Some?
    requires input.role == DeriveWalletRole(Some(at.signer), w.core.participants)
    requires LegalAction(DepositAsset, DeriveRoomUiState(env, input), input.role, at.slot)
    requires ValidDeposit(env, w.ledger, at.signer, env.coreKey, w.core, at.mint, at.slot.value)
    ensures Faithful(env, w, input, at)
  {
    hide LegalAction, DeriveRoomUiState, Sound, CoreFits, ValidDeposit, Has, With, NotFrozen, DeriveWalletRole;
    DepositOffered(env, input, w.core, at.signer, at.slot.value);
    DepositSound(env, w, at.signer, at.slot.value, at.mint);
  }

  lemma ReturnFaithful(env: Env, w: World, input: RoomUiInput, at: Attempt)
    requires Inv(env, w) && at.signer != env.VaultAuthority() && at.action == ReturnAsset && at.slot.Some?
    requires input.core == Some(w.core) && input.coreAddress == env.coreKey && input.live.Some?
    requires LegalAction(ReturnAsset, DeriveRoomUiState(env, input), input.role, at.slot)
    ensures Faithful(env, w, input, at)
  {
    hide Inv, LegalAction, DeriveRoomUiState, Sound, ReturnableSlots, BuildReturnAsset, Recovery.Reclaimable;
    ReturnOffered(env, input, w.core, at.slot.value);
    ReturnSound(env, w, at.signer, at.slot.value);
  }

  lemma RollupParts(env: Env, w: World)
    requires Inv(env, w) && w.er.Delegated?
    ensures CoreFits(env, w.core) && LogFits(env, w) && CopiesFit(w) && LiveFits(env, w.core, w.er.live)
  {
  }

  lemma TableOffered(env: Env, w: World, input: RoomUiInput, at: Attempt)
    requires Inv(env, w) && Permitted(env, w, input, at) && OnRollup(at.action)
    ensures AtTable(w, input, at.signer, if at.action == FinalizeCommitOnly then Finalizing else Negotiating)
    ensures at.action == Propose ==> FundedChoice(input.draft.selectedSlots, w.core)
    ensures at.action == Lock ==> !Has(w.er.live.lockMask, input.role.index)
    ensures at.action == RevokeLock ==> Has(w.er.live.lockMask, input.role.index)
    ensures Seated(env, w, at.signer, input.role.index)
  {
    InvCore(env, w);
    hide Inv, DeriveRoomUiState, CopiesFit, CoreFits, LogFits, LiveFits, Has, FundedChoice, SnapshotActionAllowed,
         DeriveWalletRole;
    if at.action == FinalizeCommitOnly {
      FinalizeOffered(env, w, input, at.signer);
    } else {
      NegotiationOffered(env, w, input, at.signer, at.action);
    }
    RollupParts(env, w);
  }

  lemma TableFaithful(env: Env, w: World, input: RoomUiInput, at: Attempt)
    requires OnRollup(at.action) && input.core.Some? && input.coreAddress == env.coreKey
    requires AtTable(w, input, at.signer, if at.action == FinalizeCommitOnly then Finalizing else Negotiating)
    requires Seated(env, w, at.signer, input.role.index)
    requires at.action == Propose ==> FundedChoice(input.draft.selectedSlots, w.core)
    requires at.action == Lock ==> !Has(w.er.live.lockMask, input.role.index)
    requires at.action == RevokeLock ==> Has(w.er.live.lockMask, input.role.index)
    ensures Faithful(env, w, input, at)
  {
    hide Sound, Seated, Has, RollupSees, SelectionFunded, Join, ClientSlices;
    var seat := input.role.index;
    match at.action
    case FinalizeCommitOnly => FinalizeSound(env, w, at.venue, at.signer, seat);
    case Lock => LockSound(env, w, at.venue, at.signer, seat);
    case RevokeLock => RevokeSound(env, w, at.venue, at.signer, seat);
    case Propose => ProposeSound(env, w, at.venue, at.signer, seat, input.draft.selectedSlots, input.draft.cycle);
  }

  lemma SettleSends(env: Env, w: World, signer: Key, builtAt: int) returns (legs: SettlementLegs)
    requires Reachable(env, w) && signer != env.VaultAuthority() && Committed(w) && ValidSelection(w.live.selectedSlots)
    ensures BuildSettleCommitted(env, env.coreKey, env.LiveKey(), w.core, w.live, builtAt)
      == if builtAt < w.core.expiresAt then Some(legs) else None
    ensures Sound(env, w, signer, Prepared(legs),
                  Expectation.Settlement(SlotMask(w.live.selectedSlots), w.live.revision, w.live.allocationHash),
                  w.now < w.core.expiresAt && w.liveOwner.ProgramOwned? && RecipientsOpen(w.ledger, legs))
  {
    Settlement.ReachableInv(env, w);
    assert CoreFits(env, w.core) && LiveFits(env, w.core, w.live);
    hide Inv, Reachable, Sound, CoreFits, LiveFits, BuildSettleCommitted, CanonicalLeg, SlotMask, RecipientsOpen,
         ValidSelection, Committed;
    legs := SettleBuilds(env, w, builtAt);
    SettleSound(env, w, signer, legs);
  }

  lemma SettleFaithful(env: Env, w: World, input: RoomUiInput, at: Attempt)
    requires Reachable(env, w) && at.signer != env.VaultAuthority() && at.action == SettleCommitted
    requires input.core == Some(w.core) && input.live == Some(w.live)
    requires input.coreAddress == env.coreKey && input.liveAddress == env.LiveKey()
    requires Committed(w) && ValidSelection(w.live.selectedSlots)
    ensures Faithful(env, w, input, at)
  {
    hide Reachable, Sound, BuildSettleCommitted, SlotMask, RecipientsOpen, ValidSelection, Committed;
    var legs := SettleSends(env, w, at.signer, at.builtAt);
  }

  lemma FundingFaithful(env: Env, w: World, input: RoomUiInput, at: Attempt)
    requires Inv(env, w) && Permitted(env, w, input, at)
    requires at.action == DepositAsset || at.action == ActivateAndDelegate || at.action == CancelByParticipant
      || at.action == CancelExpired
    ensures Faithful(env, w, input, at)
  {
    hide Faithful, DeriveRoomUiState, DeriveWalletRole, Inv, CoreFits, CopiesFit, SnapshotActionAllowed, ValidDeposit,
         Fresh;
    InvCore(env, w);
    FreshCore(env, w, input);
    match at.action
    case DepositAsset => DepositFaithful(env, w, input, at);
    case ActivateAndDelegate => ActivateFaithful(env, w, input, at);
    case _ => CancelFaithful(env, w, input, at);
  }

  lemma FreshCore(env: Env, w: World, input: RoomUiInput)
    requires Fresh(env, w, input)
    ensures input.core == Some(w.core) && input.coreAddress == env.coreKey && input.liveAddress == env.LiveKey()
    ensures input.live.Some?
  {
  }

  /** Whatever the client permits on a fresh view of any reachable room is accepted by the program, and the state it
      leads to is the first to meet the client's expectation. */
  lemma ClientIsFaithful(env: Env, w: World, input: RoomUiInput, at: Attempt)
    requires Reachable(env, w) && Permitted(env, w, input, at)
    ensures Faithful(env, w, input, at)
  {
    hide Faithful, DeriveRoomUiState, DeriveWalletRole, Inv, Reachable, ValidSelection, ValidDeposit, RollupSees,
         Fresh, SnapshotActionAllowed, AtTable, FundedChoice, Has;
    Settlement.ReachableInv(env, w);
    FreshCore(env, w, input);
    if at.action == SettleCommitted {
      SettleOffered(env, w, input);
      SettleFaithful(env, w, input, at);
    } else if at.action == ReturnAsset {
      ReturnFaithful(env, w, input, at);
    } else if OnRollup(at.action) {
      TableOffered(env, w, input, at);
      TableFaithful(env, w, input, at);
    } else {
      FundingFaithful(env, w, input, at);
    }
  }

  // ----- What an expectation is worth later -----

  lemma ReturnedIsDecided(core: RoomCore, slot: nat)
    requires MasksFit(core) && BitAt(core.returnedMask, slot)
    ensures !Undecided(core) && slot < 6
  {
    WithinHas(core.returnedMask, core.depositedMask, slot);
    WithinHas(core.depositedMask, SLOTS, slot);
    assert !Has(SLOTS, 6) && !Has(SLOTS, 7);
    assert !Has(0, slot);
  }

  /** A settlement or a return, once seen, is seen in every later state of the room. */
  lemma ConfirmationsLast(env: Env, w: World, steps: seq<Step>, e: Expectation)
    requires Reachable(env, w) && (e.Settlement? || e.Return?) && ExpectationMet(e, View(w))
    ensures ExpectationMet(e, View(Exec(env, w, steps)))
  {
    hide Reachable, Inv, MasksFit, Has, Exec;
    Settlement.ReachableInv(env, w);
    Agreement.InvParts(env, w);
    if e.Return? {
      ReturnedIsDecided(w.core, e.slot);
    }
    Agreement.DecidedForever(env, w, steps);
  }

  /** Everything that can happen to a pending write after it is built. */
  datatype PendingEvent =
    | Signed(signature: string, at: int)
    | Awaited(at: int)
    | Looked(core: RoomCore, live: RoomLive, observedAt: int, at: int)
    | Refused(at: int)

  function NextPending(p: PendingWrite, e: PendingEvent): PendingWrite {
    match e
    case Signed(signature, now) => BroadcastPending(p, signature, now)
    case Awaited(now) => AwaitAuthoritative(p, now)
    case Looked(core, live, observedAt, now) => ReconcileFreshPending(p, core, live, observedAt, now)
    case Refused(now) => FailPending(p, now)
  }

  function RunPending(p: PendingWrite, events: seq<PendingEvent>): PendingWrite {
    if events == [] then p else NextPending(RunPending(p, events[..|events| - 1]), events[|events| - 1])
  }

  /** A fresh look that showed exactly what was expected. */
  predicate SawIt(e: PendingEvent, expectation: Expectation) {
    e.Looked? && e.at - e.observedAt <= FRESH_MS
      && ExpectationMet(expectation, Snapshot(Some(e.core), Some(e.live), None, None))
  }

  /** Over any run of a pending write, it is never retried blindly, it never changes what it waits for, and it is
      believed only after a fresh look that showed exactly that. */
  lemma {:induction false} PendingIsHonest(action: RoomAction, expectation: Expectation, now: int, timeoutMs: int,
                                           events: seq<PendingEvent>)
    requires timeoutMs > 0
    ensures var p := RunPending(StartPending(action, expectation, now, timeoutMs).value, events);
      && p.action == action && p.expectation == expectation && !p.canBlindRetry && p.timeoutAt == now + timeoutMs
      && (p.phase == Reconciled ==> exists i :: 0 <= i < |events| && SawIt(events[i], expectation))
      && (p.phase == TimedOut ==> p.refreshAuthority && p.updatedAt >= p.timeoutAt)
  {
    hide ExpectationMet;
    if events != [] {
      var before := events[..|events| - 1];
      PendingIsHonest(action, expectation, now, timeoutMs, before);
      forall i | 0 <= i < |before| && SawIt(before[i], expectation)
        ensures SawIt(events[i], expectation)
      {
      }
      var last := events[|events| - 1];
      assert SawIt(last, expectation) ==> SawIt(events[|events| - 1], expectation);
      assert last.Looked? && last.at - last.observedAt > FRESH_MS ==> !ExpectationMet(expectation, NOTHING)
          by { SeesNothing(expectation); }
    }
  }

  lemma SeesNothing(e: Expectation)
    ensures !ExpectationMet(e, NOTHING)
  {
  }

  /** A permitted write stays pending on the state it was built from and reconciles on the state it leads to. */
  lemma PermittedWriteReconciles(env: Env, w: World, input: RoomUiInput, at: Attempt, t0: int, timeoutMs: int,
                                 observedAt: int, t1: int)
    requires Reachable(env, w) && Permitted(env, w, input, at)
    requires timeoutMs > 0 && t1 - observedAt <= FRESH_MS
    ensures Faithful(env, w, input, at)
    ensures InTime(w, at) ==>
      var p := StartPending(at.action, Expected(env, input, at).value, t0, timeoutMs).value;
      var r := Send(env, w, at.signer, Sent(env, input, at).value);
      r.Ok? ==>
        && ReconcileFreshPending(p, w.core, Current(w), observedAt, t1).phase != Reconciled
        && ReconcileFreshPending(p, r.value.core, Current(r.value), observedAt, t1).phase == Reconciled
  {
    hide Reachable, Permitted, Send, Sent, Expected, ExpectationMet, Clear;
    ClientIsFaithful(env, w, input, at);
  }

  // ----- When the interface gives up on the authority -----

  /** What the rollup's copy must look like for the interface to reject it. */
  predicate Distrusted(live: RoomLive) {
    live.phase != Finalized
    && if live.revision == 0 then live.lockMask != 0 || live.lastAction != Initialized
         else live.allocationHash == ZERO_HASH
  }

  lemma TrustedProposal(env: Env, core: RoomCore, live: RoomLive)
    requires LiveFits(env, core, live) && core.depositedMask == SLOTS
    ensures AuthorityValid(env, live, core, env.coreKey) <==> live.revision > 0 && live.allocationHash != ZERO_HASH
    ensures live.revision == 0 ==>
      (CanonicalInitialProposal(live)
       <==> live.lockMask == 0 && live.lastAction == Initialized && live.phase == Negotiating)
  {
    HashesAgree(env, live);
    Agreement.FundedSelection(core, live.selectedSlots);
    assert live.lockMask == 0 ==> !Has(live.lockMask, 0) && !Has(live.lockMask, 1) && !Has(live.lockMask, 2);
    hide AllocationHash, ProjectionSlices, Join, Has;
  }

  lemma TableParts(env: Env, w: World)
    requires Reachable(env, w) && w.core.status == Active && !w.er.Absent?
    ensures CopiesFit(w) && LiveFits(env, w.core, w.er.live) && w.core.depositedMask == SLOTS
    ensures w.core.liveRoom == env.LiveKey()
  {
    Settlement.ReachableInv(env, w);
    hide LogFits, Custody, Consent, SettlementFits, ProgressFits, ReturnsFit, LocksFit, ProposalFits, AssetFits,
         DistinctMints;
  }

  /** On a fresh view of an open room, a participant is told to distrust the rollup's copy exactly when the client
      takes the account for undelegated, or somebody touched the copy before the first proposal (or a proposal hashed
      to zero); no other reachable copy is refused. */
  lemma DistrustIff(env: Env, w: World, input: RoomUiInput)
    requires Reachable(env, w) && Fresh(env, w, input) && !input.stale
    requires w.core.status == Active && input.now < w.core.expiresAt && input.role.Participant?
    requires input.authority.source == MagicBlockEr && input.authority.owner == Some(input.programId)
    ensures DeriveRoomUiState(env, input).primary == RefreshAuthority
      <==> !input.authority.delegated || Distrusted(w.er.live)
  {
    hide Reachable, AuthorityValid, CanonicalInitialProposal, ProposalFits, Has, FundedChoice, SeatFits,
         NegotiatingState;
    TableParts(env, w);
    TrustedProposal(env, w.core, w.er.live);
    Agreement.FullLockSet(w.er.live);
    NegotiatingDistrust(env, input, w.core, w.er.live);
  }

  lemma NegotiatingDistrust(env: Env, input: RoomUiInput, core: RoomCore, live: RoomLive)
    requires input.role.Participant?
    ensures NegotiatingState(env, input, core, live).primary == RefreshAuthority
      <==> if live.revision == 0 then !CanonicalInitialProposal(live)
           else !AuthorityValid(env, live, core, input.coreAddress)
  {
    hide AuthorityValid, CanonicalInitialProposal, Has, FundedChoice;
  }

  /** A single lock on revision zero is enough: the interface then offers no participant anything but a refresh,
      although the program would still take a proposal from any of them. */
  lemma EarlyLockStallsInterface(env: Env, w: World, input: RoomUiInput, venue: Venue, signer: Key, slots: Bytes3,
                                 cycle: Cycle)
    requires Reachable(env, w) && Fresh(env, w, input) && !input.stale
    requires w.core.status == Active && input.now < w.core.expiresAt
    requires input.role == DeriveWalletRole(Some(signer), w.core.participants)
    requires input.role.Participant? && signer != env.VaultAuthority()
    requires input.authority.source == MagicBlockEr && input.authority.owner == Some(input.programId)
    requires w.er.Delegated? && w.er.live.phase == Negotiating && w.er.live.revision == 0 && w.er.live.lockMask != 0
    requires RollupSees(w, venue) && ValidSelection(slots)
    ensures forall at: Attempt :: at.signer == signer ==> !Permitted(env, w, input, at)
    ensures Send(env, w, signer, Single(MakeProposal(venue, 0, slots, cycle))).Ok?
  {
    hide Reachable, Permitted, Send, RollupSees, ValidSelection;
    UntouchedOnly(env, w, input);
    forall at: Attempt | at.signer == signer
      ensures !Permitted(env, w, input, at)
    {
      RefreshPermitsNothing(env, w, input, at);
    }
    EarlyProposalTaken(env, w, venue, signer, input.role.index, slots, cycle);
  }

  lemma UntouchedOnly(env: Env, w: World, input: RoomUiInput)
    requires Reachable(env, w) && Fresh(env, w, input) && !input.stale
    requires w.core.status == Active && input.now < w.core.expiresAt && input.role.Participant?
    requires input.authority.source == MagicBlockEr && input.authority.owner == Some(input.programId)
    requires w.er.live.phase == Negotiating && w.er.live.revision == 0 && w.er.live.lockMask != 0
    ensures DeriveRoomUiState(env, input).primary == RefreshAuthority
  {
    hide Reachable, DeriveRoomUiState;
    DistrustIff(env, w, input);
  }

  lemma RefreshPermitsNothing(env: Env, w: World, input: RoomUiInput, at: Attempt)
    requires input.core == Some(w.core) && w.core.status == Active
    requires DeriveRoomUiState(env, input).primary == RefreshAuthority
    ensures !Permitted(env, w, input, at)
  {
    hide Reachable, DeriveRoomUiState;
    RefreshOffersNothing(env, w, input, at.action);
  }

  lemma EarlyProposalTaken(env: Env, w: World, venue: Venue, signer: Key, seat: SeatIndex, slots: Bytes3, cycle: Cycle)
    requires Reachable(env, w) && w.core.status == Active && signer != env.VaultAuthority()
    requires DeriveWalletRole(Some(signer), w.core.participants) == Participant(seat)
    requires w.er.Delegated? && w.er.live.phase == Negotiating && w.er.live.revision == 0
    requires RollupSees(w, venue) && ValidSelection(slots)
    ensures Send(env, w, signer, Single(MakeProposal(venue, 0, slots, cycle))).Ok?
  {
    hide Inv, Reachable, CoreFits, LogFits, CopiesFit, LiveFits, RollupSees, PredictedHash, Send;
    Settlement.ReachableInv(env, w);
    RollupParts(env, w);
    ProposeSound(env, w, venue, signer, seat, slots, cycle);
  }

  lemma RefreshOffersNothing(env: Env, w: World, input: RoomUiInput, action: RoomAction)
    requires input.core == Some(w.core) && w.core.status == Active
    requires DeriveRoomUiState(env, input).primary == RefreshAuthority
    ensures IsWrite(action) ==> !SnapshotActionAllowed(action, DeriveRoomUiState(env, input), input.role)
  {
    hide Has, FundedChoice, AuthorityValid, CanonicalInitialProposal, ReturnableSlots;
  }

  /** Whatever the program stores for a room, the client's decoders read back exactly. */
  lemma StoredAccountsDecode(env: Env, w: World)
    requires Reachable(env, w)
    ensures Codec.DecodeRoomCore(Codec.EncodeRoomCore(w.core)) == Some(w.core)
    ensures Codec.DecodeRoomLive(Codec.EncodeRoomLive(w.live)) == Some(w.live)
    ensures Codec.DecodeRoomLive(Codec.EncodeRoomLive(Current(w))) == Some(Current(w))
  {
    Settlement.ReachableInv(env, w);
    hide Reachable, LogFits, Custody, CopiesFit, Consent, SettlementFits, ProgressFits, ReturnsFit, MasksFit,
         AssetFits, DistinctMints, LocksFit, ProposalFits, Codec.DecodeRoomCore, Codec.DecodeRoomLive,
         Codec.EncodeRoomCore, Codec.EncodeRoomLive;
    Codec.DecodeEncodeCore(w.core);
    Codec.DecodeEncodeLive(w.live);
    Codec.DecodeEncodeLive(Current(w));
  }

  // ----- The interface agrees with itself -----

  /** The consent view allows a lock exactly when the interface makes a lock its primary action. */
  lemma LockOfferedIff(env: Env, input: RoomUiInput, core: RoomCore, live: RoomLive)
    requires live.phase == Negotiating
    ensures NegotiatingState(env, input, core, live).primary == Lock
      <==> DeriveConsent(env, input.draft, live, input.role, core, input.coreAddress).lockAllowed
  {
    hide Has, SelectionFunded, ProposalIntegrity, LocksMatchAuthority, CanonicalInitialProposal;
  }

  predicate NamesTransport(ui: RoomUiState, role: WalletRole, action: RoomAction) {
    IsWrite(action) && SnapshotActionAllowed(action, ui, role) ==>
      ui.evidenceAuthority == if OnRollup(action) then ErEvidence else BaseEvidence
  }

  lemma FundingEvidence(input: RoomUiInput, core: RoomCore, action: RoomAction)
    ensures NamesTransport(FundingState(input, core), input.role, action)
  {
    hide Has;
  }

  lemma NegotiatingEvidence(env: Env, input: RoomUiInput, core: RoomCore, live: RoomLive, action: RoomAction)
    ensures NamesTransport(NegotiatingState(env, input, core, live), input.role, action)
  {
    hide DeriveConsent, FundedChoice, CanonicalInitialProposal;
  }

  lemma ActiveEvidence(env: Env, input: RoomUiInput, core: RoomCore, action: RoomAction)
    ensures NamesTransport(ActiveState(env, input, core), input.role, action)
  {
    hide NegotiatingState, FullLockSetValid, LiveLinkValid;
    if input.live.Some? {
      NegotiatingEvidence(env, input, core, input.live.value, action);
    }
  }

  /** The evidence the interface names for a permitted write is the ledger that the write is sent to. */
  lemma EvidenceIsTransport(env: Env, input: RoomUiInput, action: RoomAction)
    requires IsWrite(action) && SnapshotActionAllowed(action, DeriveRoomUiState(env, input), input.role)
    ensures DeriveRoomUiState(env, input).evidenceAuthority == if OnRollup(action) then ErEvidence else BaseEvidence
  {
    hide FundingState, ActiveState, ReturnableSlots;
    if input.core.Some? {
      FundingEvidence(input, input.core.value, action);
      ActiveEvidence(env, input, input.core.value, action);
    }
  }

  /** A wallet's role is a seat exactly when the program's own roster lookup finds it there. */
  lemma RoleIsSeat(wallet: Option<Key>, participants: Trio, seat: SeatIndex)
    ensures DeriveWalletRole(wallet, participants) == Participant(seat)
      <==> wallet.Some? && Rules.ParticipantIndex(participants, wallet.value) == Ok(seat)
    ensures DeriveWalletRole(wallet, participants) == Disconnected <==> wallet.None?
    ensures DeriveWalletRole(wallet, participants) == Observer <==> wallet.Some? && wallet.value !in participants
  {
  }
}
