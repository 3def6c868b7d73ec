/** Exactly when the interface offers each write, in terms of what it displays. */
module Offers {
  import opened Wire
  import opened Masks
  import opened Records
  import opened Allocation
  import opened RoomState
  import Instructions
  import ClientLaws

  /** The interface offers the action to the role it displays. */
  predicate Offered(env: Env, input: RoomUiInput, action: RoomAction) {
    SnapshotActionAllowed(action, DeriveRoomUiState(env, input), input.role)
  }

  predicate Showing(input: RoomUiInput, status: CoreStatus) {
    input.core.Some? && input.core.value.status == status && !input.stale
  }

  predicate Early(input: RoomUiInput)
    requires input.core.Some?
  {
    input.now < input.core.value.expiresAt
  }

  // ----- Funding and cancellation -----

  lemma SlotMember(mask: bv8, slot: nat)
    requires slot < 8
    ensures slot in Members(mask) <==> Has(mask, slot)
  {
  }

  /** A deposit is offered exactly for an empty slot of one's own, before the expiry. */
  lemma DepositOfferedIff(env: Env, input: RoomUiInput, slot: nat)
    ensures LegalAction(DepositAsset, DeriveRoomUiState(env, input), input.role, Some(slot)) <==>
      && Showing(input, Funding) && Early(input) && input.role.Participant? && slot / 2 == input.role.index
      && slot !in Members(input.core.value.depositedMask)
  {
    hide Has, Members, ActiveState, ReturnState, ReturnableSlots;
    if slot < 8 && input.core.Some? { SlotMember(input.core.value.depositedMask, slot); }
    ActiveNeverFunds(env, input);
    ReturnOffersReturns(input);
    if input.core.Some? { OwnSlots(input.core.value.depositedMask); }
  }

  lemma OwnSlots(mask: bv8)
    ensures forall s: nat :: s < 8 ==> (s in Members(mask) <==> Has(mask, s))
  {
  }

  predicate FundsOrReturns(action: RoomAction) {
    action == DepositAsset || action == ActivateAndDelegate || action == CancelByParticipant || action == ReturnAsset
  }

  lemma ActiveNeverFunds(env: Env, input: RoomUiInput)
    ensures input.core.Some? ==>
      var ui := ActiveState(env, input, input.core.value);
      && !FundsOrReturns(ui.primary) && (forall a :: a in ui.alternatives ==> !FundsOrReturns(a))
      && ui.slots.None?
  {
    hide Has, FundedChoice, AuthorityValid, CanonicalInitialProposal, FullLockSetValid, LiveLinkValid, DeriveConsent;
  }

  lemma ReturnOffersReturns(input: RoomUiInput)
    ensures input.core.Some? ==>
      var ui := ReturnState(input, input.core.value);
      ui.alternatives == [] && (ui.primary == ReturnAsset || ui.primary == ConnectWallet || ui.primary == ViewReceipt
                                || ui.primary == RefreshAuthority)
  {
    hide ReturnableSlots;
  }

  /** An activation is offered exactly to a participant of a fully funded room, before the expiry. */
  lemma ActivateOfferedIff(env: Env, input: RoomUiInput)
    ensures Offered(env, input, ActivateAndDelegate) <==>
      && Showing(input, Funding) && Early(input) && input.role.Participant?
      && Members(input.core.value.depositedMask) == {0, 1, 2, 3, 4, 5}
  {
    hide Has, Members, ActiveState, ReturnState, ReturnableSlots;
    ActiveNeverFunds(env, input);
    ReturnOffersReturns(input);
    if input.core.Some? {
      Instructions.AllSlots(input.core.value.depositedMask);
      OwnSlots(input.core.value.depositedMask);
    }
  }

  /** A cancellation before activation is offered exactly to the participants. */
  lemma CancelOfferedIff(env: Env, input: RoomUiInput)
    ensures Offered(env, input, CancelByParticipant) <==> Showing(input, Funding) && input.role.Participant?
  {
    hide Has, ActiveState, ReturnState, ReturnableSlots;
    ActiveNeverFunds(env, input);
    ReturnOffersReturns(input);
  }

  /** A cancellation at the expiry is offered exactly to anybody with a wallet. */
  lemma ExpiryOfferedIff(env: Env, input: RoomUiInput)
    ensures Offered(env, input, CancelExpired) <==>
      (Showing(input, Funding) || Showing(input, Active)) && !Early(input) && !input.role.Disconnected?
  {
    hide Has, FundedChoice, AuthorityValid, CanonicalInitialProposal, FullLockSetValid, LiveLinkValid, DeriveConsent,
         ReturnState, ReturnableSlots;
    ReturnOffersReturns(input);
  }

  /** A return is offered exactly for a deposited slot that was not returned, nor selected unless the room was
      cancelled, to anybody with a wallet. */
  lemma ReturnOfferedIff(env: Env, input: RoomUiInput, slot: nat)
    ensures LegalAction(ReturnAsset, DeriveRoomUiState(env, input), input.role, Some(slot)) <==>
      && (Showing(input, Cancelled) || Showing(input, Settled) || Showing(input, Returning))
         && !input.role.Disconnected?
      && slot < 6 && slot in Members(input.core.value.depositedMask) && slot !in Members(input.core.value.returnedMask)
      && (input.core.value.status == Cancelled || slot !in Members(input.core.value.selectedMask))
  {
    hide Has, Members, Minus, ActiveState, FundingState, ReturnableSlots;
    ActiveNeverFunds(env, input);
    FundingNeverReturns(input);
    if input.core.Some? {
      ReturnableMeans(input.core.value, slot);
    }
  }

  lemma FundingNeverReturns(input: RoomUiInput)
    ensures input.core.Some? ==>
      var ui := FundingState(input, input.core.value);
      ui.primary != ReturnAsset && ui.primary != ViewReceipt && ReturnAsset !in ui.alternatives
  {
    hide Has;
  }

  lemma ReturnableMeans(core: RoomCore, slot: nat)
    ensures core.status == Cancelled || core.status == Settled || core.status == Returning ==>
      (slot in ReturnableSlots(core) <==>
         && slot < 6 && slot in Members(core.depositedMask) && slot !in Members(core.returnedMask)
         && (core.status == Cancelled || slot !in Members(core.selectedMask)))
  {
    hide Has, Members, Minus;
    OwnSlots(core.depositedMask);
    OwnSlots(core.returnedMask);
    OwnSlots(core.selectedMask);
    if slot < 6 {
      MinusHas(core.depositedMask, core.selectedMask, slot);
      MinusHas(core.depositedMask, core.returnedMask, slot);
      MinusHas(Minus(core.depositedMask, core.selectedMask), core.returnedMask, slot);
    }
  }

  /** A receipt is shown exactly for a room at its end. */
  lemma ReceiptShownIff(env: Env, input: RoomUiInput)
    ensures DeriveRoomUiState(env, input).primary == ViewReceipt <==>
      && input.core.Some?
      && (input.core.value.status == Complete || input.core.value.status == Closed
          || (Showing(input, Cancelled)
              && forall s: nat :: s < 6 && s in Members(input.core.value.depositedMask) ==>
                   s in Members(input.core.value.returnedMask)))
  {
    hide Has, Members, ActiveState, FundingState, ReturnableSlots;
    ActiveShowsNoReceipt(env, input);
    FundingNeverReturns(input);
    if input.core.Some? {
      forall s: nat
        ensures input.core.value.status == Cancelled ==>
          (s in ReturnableSlots(input.core.value) <==>
             s < 6 && s in Members(input.core.value.depositedMask) && s !in Members(input.core.value.returnedMask))
      {
        ReturnableMeans(input.core.value, s);
      }
      NoneReturnable(ReturnableSlots(input.core.value));
    }
  }

  lemma NoneReturnable(slots: seq<nat>)
    ensures slots == [] <==> forall s :: s !in slots
  {
    if slots != [] { assert slots[0] in slots; }
  }

  lemma ActiveShowsNoReceipt(env: Env, input: RoomUiInput)
    ensures input.core.Some? ==> ActiveState(env, input, input.core.value).primary != ViewReceipt
  {
    hide Has, FundedChoice, AuthorityValid, CanonicalInitialProposal, FullLockSetValid, LiveLinkValid, DeriveConsent;
  }

  // ----- At the table -----

  /** An open room before its expiry, with a live record that belongs to it. */
  predicate Linked(input: RoomUiInput) {
    && Showing(input, Active) && Early(input) && input.live.Some?
    && var core, live := input.core.value, input.live.value;
       && core.liveRoom == input.liveAddress && live.core == input.coreAddress
       && core.participants == live.participants && core.expiresAt == live.expiresAt
  }

  /** The rollup shows the record, and base has it delegated by this program. */
  predicate OnRollup(input: RoomUiInput) {
    && input.authority.source == MagicBlockEr && input.authority.delegated
    && input.authority.owner == Some(input.programId)
  }

  /** Base shows the record, handed back to this program. */
  predicate OnBase(input: RoomUiInput) {
    && input.authority.source == SolanaBase && !input.authority.delegated
    && input.authority.owner == Some(input.programId)
  }

  /** Nobody has touched the record since its creation. */
  predicate Untouched(live: RoomLive) {
    && live.revision == 0 && live.phase == Negotiating && live.lastAction == Initialized
    && live.selectedSlots == [0, 2, 4] && live.cycle == Forward && live.destinations == [1, 2, 0]
    && live.allocationHash == ZERO_HASH && live.lockMask == 0
    && (forall i :: 0 <= i < 3 ==> live.lockedRevision[i] == 0 && live.lockedHash[i] == ZERO_HASH)
  }

  /** A funded proposal that carries its own fingerprint, with every lock on exactly it. */
  predicate Genuine(env: Env, core: RoomCore, live: RoomLive, coreAddress: Key) {
    && Instructions.OneFundedSlotEach(core.depositedMask, live.selectedSlots)
    && live.revision > 0 && live.allocationHash != ZERO_HASH
    && live.destinations == Instructions.Destinations(live.cycle)
    && live.allocationHash
         == env.sha256(Join(ProgramSlices(coreAddress, live.revision, live.expiresAt, live.selectedSlots,
                                                            live.cycle, Instructions.Destinations(live.cycle))))
    && forall seat :: 0 <= seat < 3 && seat in Members(live.lockMask) ==>
         live.lockedRevision[seat] == live.revision && live.lockedHash[seat] == live.allocationHash
  }

  lemma GenuineMeans(env: Env, core: RoomCore, live: RoomLive, coreAddress: Key)
    ensures AuthorityValid(env, live, core, coreAddress) <==> Genuine(env, core, live, coreAddress)
  {
    hide Members, Has, Join, ProgramSlices, ProjectionSlices;
    ChoiceMeans(live.selectedSlots, core);
    OwnSlots(live.lockMask);
    SameSlices(coreAddress, live);
  }

  lemma SameSlices(coreAddress: Key, live: RoomLive)
    ensures ProjectionSlices(coreAddress, live)
         == ProgramSlices(coreAddress, live.revision, live.expiresAt, live.selectedSlots, live.cycle,
                          Instructions.Destinations(live.cycle))
  {
  }

  lemma ChoiceMeans(slots: Bytes3, core: RoomCore)
    ensures FundedChoice(slots, core) <==> Instructions.OneFundedSlotEach(core.depositedMask, slots)
  {
    hide Members, Has;
    OwnSlots(core.depositedMask);
    assert ValidSelection(slots) <==> slots[0] / 2 == 0 && slots[1] / 2 == 1 && slots[2] / 2 == 2;
  }

  lemma UntouchedMeans(live: RoomLive)
    ensures live.revision == 0 && live.phase == Negotiating ==> (CanonicalInitialProposal(live) <==> Untouched(live))
  {
  }

  /** A participant and a record open to negotiation. */
  predicate Negotiable(input: RoomUiInput) {
    Linked(input) && OnRollup(input) && input.live.value.phase == Negotiating && input.role.Participant?
  }

  predicate HasLock(input: RoomUiInput)
    requires input.live.Some? && input.role.Participant?
  {
    input.role.index in Members(input.live.value.lockMask)
  }

  predicate SameDraft(input: RoomUiInput)
    requires input.live.Some?
  {
    input.draft.selectedSlots == input.live.value.selectedSlots && input.draft.cycle == input.live.value.cycle
  }

  predicate Trusts(env: Env, input: RoomUiInput)
    requires input.core.Some? && input.live.Some?
  {
    Genuine(env, input.core.value, input.live.value, input.coreAddress)
  }

  predicate FundedDraft(input: RoomUiInput)
    requires input.core.Some?
  {
    Instructions.OneFundedSlotEach(input.core.value.depositedMask, input.draft.selectedSlots)
  }

  predicate Quiet(ui: RoomUiState, action: RoomAction) {
    ui.primary != action && action !in ui.alternatives
  }

  lemma TableStates(env: Env, input: RoomUiInput)
    ensures var ui := DeriveRoomUiState(env, input);
      if Negotiable(input) then ui == NegotiatingState(env, input, input.core.value, input.live.value)
      else input.role.Participant? ==> Quiet(ui, Propose) && Quiet(ui, Lock) && Quiet(ui, RevokeLock)
  {
    hide FundingState, ActiveState, ReturnState, NegotiatingState, Quiet;
    if input.core.Some? {
      FundingQuiet(input);
      if Showing(input, Active) { ActiveQuiet(env, input); }
      ReturnQuiet(input);
    }
    NothingQuiet(RefreshAuthority);
    NothingQuiet(ViewReceipt);
  }

  lemma NothingQuiet(primary: RoomAction)
    requires primary == RefreshAuthority || primary == ViewReceipt
    ensures forall evidence ::
      Quiet(State(primary, evidence), Propose) && Quiet(State(primary, evidence), Lock)
      && Quiet(State(primary, evidence), RevokeLock)
  {
  }

  lemma FundingQuiet(input: RoomUiInput)
    requires input.core.Some?
    ensures var ui := FundingState(input, input.core.value);
      Quiet(ui, Propose) && Quiet(ui, Lock) && Quiet(ui, RevokeLock)
  {
    hide Has;
  }

  lemma ReturnQuiet(input: RoomUiInput)
    requires input.core.Some?
    ensures var ui := ReturnState(input, input.core.value);
      Quiet(ui, Propose) && Quiet(ui, Lock) && Quiet(ui, RevokeLock)
  {
    hide ReturnableSlots;
  }

  lemma ActiveQuiet(env: Env, input: RoomUiInput)
    requires Showing(input, Active)
    ensures var ui := ActiveState(env, input, input.core.value);
      if Negotiable(input) then ui == NegotiatingState(env, input, input.core.value, input.live.value)
      else input.role.Participant? ==> Quiet(ui, Propose) && Quiet(ui, Lock) && Quiet(ui, RevokeLock)
  {
    hide FullLockSetValid, NegotiatingState;
  }

  lemma NegotiatingMeans(env: Env, input: RoomUiInput)
    requires Negotiable(input)
    ensures var ui := NegotiatingState(env, input, input.core.value, input.live.value);
      var trusted, mine := Trusts(env, input), HasLock(input);
      && (ui.primary == Propose || Propose in ui.alternatives <==>
            FundedDraft(input) && (Untouched(input.live.value) || (trusted && !(mine && SameDraft(input)))))
      && (ui.primary == Lock || Lock in ui.alternatives <==> trusted && !mine && SameDraft(input))
      && (ui.primary == RevokeLock || RevokeLock in ui.alternatives <==> trusted && mine && FundedDraft(input))
      && (trusted && SameDraft(input) && !mine ==> ui.primary == Lock)
      && (trusted && FundedDraft(input) && !SameDraft(input) ==> ui.primary == Propose)
  {
    hide AuthorityValid, CanonicalInitialProposal, FundedChoice, Has, Members, Genuine, Untouched,
         Instructions.OneFundedSlotEach;
    var core, live := input.core.value, input.live.value;
    GenuineMeans(env, core, live, input.coreAddress);
    GenuineParts(env, core, live, input.coreAddress);
    ChoiceMeans(input.draft.selectedSlots, core);
    UntouchedMeans(live);
    UntouchedParts(live);
    OwnSlots(live.lockMask);
  }

  lemma GenuineParts(env: Env, core: RoomCore, live: RoomLive, coreAddress: Key)
    ensures Genuine(env, core, live, coreAddress) ==>
      live.revision > 0 && Instructions.OneFundedSlotEach(core.depositedMask, live.selectedSlots)
  {
  }

  lemma UntouchedParts(live: RoomLive)
    ensures Untouched(live) ==> live.revision == 0
  {
  }

  /** A proposal is offered exactly to a participant at the table with a funded draft: on an untouched record, or on a
      genuine proposal that the participant has not already locked in these very terms. */
  lemma ProposeOfferedIff(env: Env, input: RoomUiInput)
    ensures Offered(env, input, Propose) <==>
      && Negotiable(input) && FundedDraft(input)
      && (Untouched(input.live.value) || (Trusts(env, input) && !(HasLock(input) && SameDraft(input))))
  {
    hide DeriveRoomUiState, NegotiatingState, Genuine, Untouched, Members, Instructions.OneFundedSlotEach;
    TableStates(env, input);
    if Negotiable(input) { NegotiatingMeans(env, input); }
  }

  /** A lock is offered exactly on a genuine proposal whose slots and cycle are those of the participant's own draft;
      and then it is the primary action. */
  lemma LockOfferedIff(env: Env, input: RoomUiInput)
    ensures Offered(env, input, Lock) <==>
      Negotiable(input) && Trusts(env, input) && !HasLock(input) && SameDraft(input)
    ensures Offered(env, input, Lock) ==> DeriveRoomUiState(env, input).primary == Lock
  {
    hide DeriveRoomUiState, NegotiatingState, Genuine, Untouched, Members, Instructions.OneFundedSlotEach;
    TableStates(env, input);
    if Negotiable(input) { NegotiatingMeans(env, input); }
  }

  /** On a genuine proposal a funded draft of other slots or another cycle makes a proposal the primary action. */
  lemma DivergentDraftProposes(env: Env, input: RoomUiInput)
    requires Negotiable(input) && Trusts(env, input) && FundedDraft(input) && !SameDraft(input)
    ensures DeriveRoomUiState(env, input).primary == Propose
  {
    hide DeriveRoomUiState, NegotiatingState, Genuine, Untouched, Members, Instructions.OneFundedSlotEach;
    TableStates(env, input);
    NegotiatingMeans(env, input);
  }

  /** Taking a lock back is offered exactly to a participant who has one on a genuine proposal, whatever funded draft is
      open. */
  lemma RevokeOfferedIff(env: Env, input: RoomUiInput)
    ensures Offered(env, input, RevokeLock) <==>
      Negotiable(input) && Trusts(env, input) && HasLock(input) && FundedDraft(input)
  {
    hide DeriveRoomUiState, NegotiatingState, Genuine, Untouched, Members, Instructions.OneFundedSlotEach;
    TableStates(env, input);
    if Negotiable(input) { NegotiatingMeans(env, input); }
  }

  // ----- The end of the negotiation -----

  lemma FullMeans(env: Env, input: RoomUiInput)
    requires input.core.Some? && input.live.Some?
    ensures FullLockSetValid(env, input, input.core.value, input.live.value) <==>
      Members(input.live.value.lockMask) == {0, 1, 2} && Trusts(env, input)
  {
    hide AuthorityValid, Genuine, Members, Has;
    GenuineMeans(env, input.core.value, input.live.value, input.coreAddress);
    Instructions.AllSeats(input.live.value.lockMask);
  }

  /** A finalization is offered exactly to a participant, on a genuine proposal that all three have locked. */
  lemma FinalizeOfferedIff(env: Env, input: RoomUiInput)
    ensures Offered(env, input, FinalizeCommitOnly) <==>
      && Linked(input) && OnRollup(input) && input.live.value.phase == Finalizing && input.role.Participant?
      && Members(input.live.value.lockMask) == {0, 1, 2} && Trusts(env, input)
  {
    hide Has, Members, FullLockSetValid, ReturnableSlots, FundedChoice, AuthorityValid, CanonicalInitialProposal,
         Genuine;
    if input.core.Some? && input.live.Some? { FullMeans(env, input); }
  }

  /** A settlement is offered exactly on a genuine, fully locked and finalized proposal that base shows as handed
      back, to anybody with a wallet. */
  lemma SettleOfferedIff(env: Env, input: RoomUiInput)
    ensures Offered(env, input, SettleCommitted) <==>
      && Linked(input) && OnBase(input) && input.live.value.phase == Finalized && !input.role.Disconnected?
      && Members(input.live.value.lockMask) == {0, 1, 2} && Trusts(env, input)
  {
    hide Has, Members, FullLockSetValid, ReturnableSlots, FundedChoice, AuthorityValid, CanonicalInitialProposal,
         Genuine;
    if input.core.Some? && input.live.Some? { FullMeans(env, input); }
  }

  // ----- What is shown when there is nothing to do -----

  /** A participant waits exactly with both own slots deposited and others missing, an observer throughout the
      funding. */
  lemma WaitShownIff(env: Env, input: RoomUiInput)
    ensures DeriveRoomUiState(env, input).primary == WaitForParticipants <==>
      && Showing(input, Funding) && Early(input) && !input.role.Disconnected?
      && (input.role.Participant? ==>
            var mask := input.core.value.depositedMask;
            && 2 * input.role.index in Members(mask) && 2 * input.role.index + 1 in Members(mask)
            && Members(mask) != {0, 1, 2, 3, 4, 5})
  {
    hide Has, Members, ActiveState, ReturnState, ReturnableSlots;
    ActiveNeverWaits(env, input);
    ReturnOffersReturns(input);
    if input.core.Some? {
      Instructions.AllSlots(input.core.value.depositedMask);
      OwnSlots(input.core.value.depositedMask);
    }
  }

  lemma ActiveNeverWaits(env: Env, input: RoomUiInput)
    ensures input.core.Some? ==> ActiveState(env, input, input.core.value).primary != WaitForParticipants
  {
    hide Has, FundedChoice, AuthorityValid, CanonicalInitialProposal, FullLockSetValid, LiveLinkValid, DeriveConsent;
  }

  /** Base shows the record under the owner that its delegation, as far as known, calls for. */
  predicate BaseShows(input: RoomUiInput) {
    && input.authority.source == SolanaBase
    && input.authority.owner == Some(if input.authority.delegated then input.authority.delegationProgramId
                                     else input.programId)
  }

  /** All three seats locked on one genuine proposal. */
  predicate Sealed(env: Env, input: RoomUiInput)
    requires input.core.Some? && input.live.Some?
  {
    Members(input.live.value.lockMask) == {0, 1, 2} && Trusts(env, input)
  }

  lemma LinkMeans(input: RoomUiInput)
    requires input.core.Some? && input.live.Some?
    ensures Showing(input, Active) && Early(input) ==>
      (LiveLinkValid(input, input.core.value, input.live.value)
       <==> Linked(input) && (OnRollup(input) || BaseShows(input)))
  {
  }

  /** What the negotiation shows to those it offers nothing. */
  lemma TableShows(env: Env, input: RoomUiInput)
    requires Linked(input) && OnRollup(input) && input.live.value.phase == Negotiating
    ensures var primary := NegotiatingState(env, input, input.core.value, input.live.value).primary;
      var live := input.live.value;
      && (primary == RefreshAuthority <==>
            if live.revision == 0 then !Untouched(live) else input.role.Participant? && !Trusts(env, input))
      && (primary == InspectProposal <==>
            && !input.role.Disconnected? && (live.revision == 0 ==> Untouched(live))
            && (input.role.Participant? ==> !FundedDraft(input) && (live.revision == 0 || Trusts(env, input))))
      && primary != InspectCommit
  {
    hide AuthorityValid, CanonicalInitialProposal, FundedChoice, Has, Members, Genuine, Untouched,
         Instructions.OneFundedSlotEach;
    var core, live := input.core.value, input.live.value;
    GenuineMeans(env, core, live, input.coreAddress);
    GenuineParts(env, core, live, input.coreAddress);
    ChoiceMeans(input.draft.selectedSlots, core);
    UntouchedMeans(live);
    OwnSlots(live.lockMask);
  }

  /** A proposal is shown for inspection exactly where base shows it in negotiation, or the rollup shows it to an
      observer or to a participant without a funded draft. */
  lemma InspectShownIff(env: Env, input: RoomUiInput)
    ensures DeriveRoomUiState(env, input).primary == InspectProposal <==>
      && Linked(input) && input.live.value.phase == Negotiating
      && (BaseShows(input)
          || (&& OnRollup(input) && !input.role.Disconnected?
              && (input.live.value.revision == 0 ==> Untouched(input.live.value))
              && (input.role.Participant? ==>
                    !FundedDraft(input) && (input.live.value.revision == 0 || Trusts(env, input)))))
  {
    hide Has, Members, FullLockSetValid, LiveLinkValid, ReturnableSlots, NegotiatingState, Genuine, Untouched;
    if input.core.Some? && input.live.Some? {
      LinkMeans(input);
      if Linked(input) && OnRollup(input) && input.live.value.phase == Negotiating { TableShows(env, input); }
    }
  }

  /** A commit is shown for inspection exactly while it is under way, or base shows a finalized record that is not
      handed back or not sealed, or an observer watches a sealed deal. */
  lemma CommitShownIff(env: Env, input: RoomUiInput)
    ensures DeriveRoomUiState(env, input).primary == InspectCommit <==>
      && Linked(input)
      && match input.live.value.phase
         case Negotiating => false
         case Finalizing => BaseShows(input) || (OnRollup(input) && Sealed(env, input) && input.role.Observer?)
         case Finalized => OnRollup(input) || (BaseShows(input) && (input.authority.delegated || !Sealed(env, input)))
  {
    hide Has, Members, FullLockSetValid, LiveLinkValid, ReturnableSlots, NegotiatingState, Genuine, Untouched;
    if input.core.Some? && input.live.Some? {
      LinkMeans(input);
      FullMeans(env, input);
      if Linked(input) && OnRollup(input) && input.live.value.phase == Negotiating { TableShows(env, input); }
    }
  }

  /** A refresh is asked for exactly without a core, on a stale view of an unfinished room, on a live record that is
      missing, foreign or not genuine, and in a settled room that owes nothing. */
  lemma RefreshShownIff(env: Env, input: RoomUiInput)
    ensures DeriveRoomUiState(env, input).primary == RefreshAuthority <==>
      input.core.None?
      || (var core := input.core.value;
          core.status != Complete && core.status != Closed
          && (input.stale
              || (core.status == Active && Early(input) && Unsound(env, input))
              || ((core.status == Settled || core.status == Returning)
                  && forall s: nat :: s < 6 && s in Members(core.depositedMask) ==>
                       s in Members(core.returnedMask) || s in Members(core.selectedMask))))
  {
    hide Has, Members, FullLockSetValid, LiveLinkValid, ReturnableSlots, NegotiatingState, Unsound;
    if input.core.Some? {
      var core := input.core.value;
      ActiveRefreshes(env, input);
      hide ActiveState;
      forall s: nat
        ensures core.status == Settled || core.status == Returning || core.status == Cancelled ==>
          (s in ReturnableSlots(core) <==>
             && s < 6 && s in Members(core.depositedMask) && s !in Members(core.returnedMask)
             && (core.status == Cancelled || s !in Members(core.selectedMask)))
      {
        ReturnableMeans(core, s);
      }
      NoneReturnable(ReturnableSlots(core));
    }
  }

  /** The live record of an open room cannot be believed. */
  predicate Unsound(env: Env, input: RoomUiInput)
    requires input.core.Some? && Showing(input, Active) && Early(input)
  {
    || !Linked(input) || !(OnRollup(input) || BaseShows(input))
    || (OnRollup(input) && match input.live.value.phase
        case Negotiating =>
          if input.live.value.revision == 0 then !Untouched(input.live.value)
          else input.role.Participant? && !Trusts(env, input)
        case Finalizing => !Sealed(env, input)
        case Finalized => false)
  }

  lemma ActiveRefreshes(env: Env, input: RoomUiInput)
    ensures Showing(input, Active) ==>
      (ActiveState(env, input, input.core.value).primary == RefreshAuthority <==> Early(input) && Unsound(env, input))
  {
    hide Has, Members, FullLockSetValid, LiveLinkValid, NegotiatingState, Genuine, Untouched;
    if input.core.Some? && input.live.Some? {
      LinkMeans(input);
      FullMeans(env, input);
      if Linked(input) && OnRollup(input) && input.live.value.phase == Negotiating { TableShows(env, input); }
    }
  }

  /** What is shown for inspection names the ledger it was read from; a receipt names both after a settlement. */
  lemma EvidenceShown(env: Env, input: RoomUiInput)
    ensures var ui := DeriveRoomUiState(env, input);
      && (ui.primary == InspectProposal || ui.primary == InspectCommit ==>
            ui.evidenceAuthority == if input.authority.source == MagicBlockEr then ErEvidence else BaseEvidence)
      && (ui.primary == WaitForParticipants ==> ui.evidenceAuthority == BaseEvidence)
      && (ui.primary == ViewReceipt ==>
            ui.evidenceAuthority == if input.core.value.status == Complete then BothEvidence else BaseEvidence)
  {
    hide Has, FundingState, ActiveState, ReturnState;
    if input.core.Some? {
      FundingShows(input);
      ActiveShows(env, input);
      ReturnShows(input);
    }
  }

  lemma FundingShows(input: RoomUiInput)
    requires input.core.Some?
    ensures var ui := FundingState(input, input.core.value);
      ui.evidenceAuthority == BaseEvidence && ui.primary != InspectProposal && ui.primary != InspectCommit
      && ui.primary != ViewReceipt
  {
    hide Has;
  }

  lemma ReturnShows(input: RoomUiInput)
    requires input.core.Some?
    ensures var ui := ReturnState(input, input.core.value);
      ui.evidenceAuthority == BaseEvidence && ui.primary != InspectProposal && ui.primary != InspectCommit
      && ui.primary != WaitForParticipants
  {
    hide ReturnableSlots;
  }

  lemma ActiveShows(env: Env, input: RoomUiInput)
    requires input.core.Some?
    ensures var ui := ActiveState(env, input, input.core.value);
      && (ui.primary == InspectProposal || ui.primary == InspectCommit ==>
            ui.evidenceAuthority == if input.authority.source == MagicBlockEr then ErEvidence else BaseEvidence)
      && ui.primary != WaitForParticipants && ui.primary != ViewReceipt
  {
    hide NegotiatingState, FullLockSetValid, LiveLinkValid;
    if input.live.Some? { NegotiatingShows(env, input); }
  }

  lemma NegotiatingShows(env: Env, input: RoomUiInput)
    requires input.core.Some? && input.live.Some?
    ensures var ui := NegotiatingState(env, input, input.core.value, input.live.value);
      && (ui.primary == InspectProposal ==> ui.evidenceAuthority == ErEvidence)
      && ui.primary != InspectCommit && ui.primary != WaitForParticipants && ui.primary != ViewReceipt
  {
    hide DeriveConsent, FundedChoice, CanonicalInitialProposal;
  }

  // ----- The consent view, and a visitor without a wallet -----

  /** What the consent view says, in terms of the draft and the record. */
  lemma ConsentMeans(env: Env, draft: DraftProposal, live: RoomLive, role: WalletRole, core: RoomCore, coreAddress: Key)
    ensures var view := DeriveConsent(env, draft, live, role, core, coreAddress);
      var genuine := Genuine(env, core, live, coreAddress);
      var same := draft.selectedSlots == live.selectedSlots && draft.cycle == live.cycle;
      var mine := role.Participant? && role.index in Members(live.lockMask);
      && (view.conflict <==> !same) && (view.authorityValid <==> genuine)
      && (view.draftValid <==> Instructions.OneFundedSlotEach(core.depositedMask, draft.selectedSlots))
      && (view.alreadyLocked <==> genuine && mine)
      && (view.lockAllowed <==> role.Participant? && live.phase == Negotiating && genuine && same && !mine)
  {
    hide AuthorityValid, FundedChoice, Has, Members, Genuine, Instructions.OneFundedSlotEach;
    GenuineMeans(env, core, live, coreAddress);
    GenuineParts(env, core, live, coreAddress);
    ChoiceMeans(draft.selectedSlots, core);
    OwnSlots(live.lockMask);
  }

  /** Whatever a visitor with a wallet could be offered, one without is asked to connect. */
  lemma ConnectsWhoCouldAct(env: Env, input: RoomUiInput, role: WalletRole, action: RoomAction)
    requires input.role.Disconnected? && ClientLaws.IsWrite(action) && Offered(env, input.(role := role), action)
    ensures DeriveRoomUiState(env, input).primary == ConnectWallet
  {
    hide Has, ActiveState, FundingState, ReturnState;
    if input.core.Some? {
      FundingConnects(input, role, action);
      ActiveConnects(env, input, role, action);
      ReturnConnects(input, role, action);
    }
  }

  /** In one of the three stages: what is offered to a role asks a visitor without a wallet to connect. */
  predicate Connects(offered: RoomUiState, visitor: RoomUiState, role: WalletRole, action: RoomAction) {
    ClientLaws.IsWrite(action) && SnapshotActionAllowed(action, offered, role) ==> visitor.primary == ConnectWallet
  }

  lemma FundingConnects(input: RoomUiInput, role: WalletRole, action: RoomAction)
    requires input.core.Some? && input.role.Disconnected?
    ensures Connects(FundingState(input.(role := role), input.core.value), FundingState(input, input.core.value),
                     role, action)
  {
    hide Has;
  }

  lemma ReturnConnects(input: RoomUiInput, role: WalletRole, action: RoomAction)
    requires input.core.Some? && input.role.Disconnected?
    ensures Connects(ReturnState(input.(role := role), input.core.value), ReturnState(input, input.core.value), role,
                     action)
  {
    hide ReturnableSlots;
  }

  lemma TableConnects(env: Env, input: RoomUiInput, role: WalletRole, action: RoomAction)
    requires input.core.Some? && input.live.Some? && input.role.Disconnected?
    ensures Connects(NegotiatingState(env, input.(role := role), input.core.value, input.live.value),
                     NegotiatingState(env, input, input.core.value, input.live.value), role, action)
  {
    hide DeriveConsent, FundedChoice, CanonicalInitialProposal;
  }

  lemma ActiveConnects(env: Env, input: RoomUiInput, role: WalletRole, action: RoomAction)
    requires input.core.Some? && input.role.Disconnected?
    ensures Connects(ActiveState(env, input.(role := role), input.core.value),
                     ActiveState(env, input, input.core.value),
                     role, action)
  {
    hide NegotiatingState, DeriveConsent;
    var other := input.(role := role);
    if input.live.Some? {
      TableConnects(env, input, role, action);
      SameLink(env, input, role);
      hide FullLockSetValid, LiveLinkValid;
    }
  }

  lemma SameLink(env: Env, input: RoomUiInput, role: WalletRole)
    requires input.core.Some? && input.live.Some?
    ensures var core, live, other := input.core.value, input.live.value, input.(role := role);
      && (FullLockSetValid(env, input, core, live) <==> FullLockSetValid(env, other, core, live))
      && (LiveLinkValid(input, core, live) <==> LiveLinkValid(other, core, live))
  {
    hide DeriveConsent;
  }
}
