/** The client's own reading of a room: which action it offers to whom, re-derived from decoded accounts. */
module RoomState {
  import opened Wire
  import opened Masks
  import opened Records
  import opened Allocation

  type SeatIndex = x: nat | x < 3

  datatype WalletRole = Disconnected | Participant(index: SeatIndex) | Observer

  datatype DraftProposal = DraftProposal(selectedSlots: Bytes3, cycle: Cycle)

  datatype Source = Unavailable | MagicBlockEr | SolanaBase

  datatype Authority = Authority(source: Source, delegated: bool, owner: Option<Key>, delegationProgramId: Key)

  datatype Evidence = NoEvidence | ErEvidence | BaseEvidence | BothEvidence

  datatype RoomAction =
    | RefreshAuthority | ConnectWallet | DepositAsset | CancelByParticipant
    | ActivateAndDelegate | WaitForParticipants | CancelExpired | Propose
    | Lock | RevokeLock | InspectProposal | FinalizeCommitOnly
    | InspectCommit | SettleCommitted | ReturnAsset | ViewReceipt

  datatype RoomUiInput = RoomUiInput(
    core: Option<RoomCore>, live: Option<RoomLive>, role: WalletRole, draft: DraftProposal, authority: Authority,
    coreAddress: Key, liveAddress: Key, programId: Key, stale: bool, now: int)

  datatype RoomUiState = RoomUiState(
    primary: RoomAction, alternatives: seq<RoomAction>, evidenceAuthority: Evidence, slots: Option<seq<nat>>)

  function State(primary: RoomAction, evidence: Evidence): RoomUiState {
    RoomUiState(primary, [], evidence, None)
  }

  function DeriveWalletRole(wallet: Option<Key>, participants: Trio): WalletRole {
    if wallet.None? then Disconnected
    else if participants[0] == wallet.value then Participant(0)
    else if participants[1] == wallet.value then Participant(1)
    else if participants[2] == wallet.value then Participant(2)
    else Observer
  }

  /** The slots below `n` whose bit is set, in order. */
  function SlotsOf(mask: bv8, n: nat): (slots: seq<nat>)
    requires n <= 6
    ensures forall s: nat :: s in slots <==> s < n && Has(mask, s)
  {
    if n == 0 then [] else SlotsOf(mask, n - 1) + (if Has(mask, n - 1) then [n - 1] else [])
  }

  function ReturnableSlots(core: RoomCore): seq<nat> {
    var eligible :=
      if core.status == Cancelled then core.depositedMask
      else if core.status == Settled || core.status == Returning then Minus(core.depositedMask, core.selectedMask)
      else 0;
    SlotsOf(Minus(eligible, core.returnedMask), 6)
  }

  predicate ValidSelection(slots: Bytes3) {
    && (slots[0] == 0 || slots[0] == 1)
    && (slots[1] == 2 || slots[1] == 3)
    && (slots[2] == 4 || slots[2] == 5)
  }

  predicate SelectionFunded(slots: Bytes3, core: RoomCore)
    requires ValidSelection(slots)
  {
    Has(core.depositedMask, slots[0]) && Has(core.depositedMask, slots[1]) && Has(core.depositedMask, slots[2])
  }

  predicate FundedChoice(slots: Bytes3, core: RoomCore) {
    ValidSelection(slots) && SelectionFunded(slots, core)
  }

  predicate AllocationInitialized(live: RoomLive) {
    live.revision > 0 && live.allocationHash != ZERO_HASH
  }

  predicate ProposalIntegrity(env: Env, coreAddress: Key, live: RoomLive) {
    && live.destinations == (if live.cycle == Forward then [1, 2, 0] else [2, 0, 1])
    && live.allocationHash == env.sha256(Join(ProjectionSlices(coreAddress, live)))
  }

  predicate LocksMatchAuthority(live: RoomLive) {
    forall seat :: 0 <= seat < 3 && Has(live.lockMask, seat) ==>
      live.lockedRevision[seat] == live.revision && live.lockedHash[seat] == live.allocationHash
  }

  predicate CanonicalInitialProposal(live: RoomLive) {
    && live.revision == 0 && live.phase == Negotiating && live.lastAction == Initialized
    && live.selectedSlots == [0, 2, 4] && live.cycle == Forward && live.destinations == [1, 2, 0]
    && live.allocationHash == ZERO_HASH && live.lockMask == 0
    && live.lockedRevision == [0, 0, 0] && live.lockedHash == [ZERO_HASH, ZERO_HASH, ZERO_HASH]
  }

  datatype ConsentView = ConsentView(conflict: bool, lockAllowed: bool, alreadyLocked: bool, authorityValid: bool,
                                     draftValid: bool)

  predicate AuthorityValid(env: Env, live: RoomLive, core: RoomCore, coreAddress: Key) {
    && FundedChoice(live.selectedSlots, core) && AllocationInitialized(live)
    && ProposalIntegrity(env, coreAddress, live) && LocksMatchAuthority(live)
  }

  function DeriveConsent(env: Env, draft: DraftProposal, live: RoomLive, role: WalletRole, core: RoomCore,
                         coreAddress: Key): ConsentView {
    var conflict := draft.selectedSlots != live.selectedSlots || draft.cycle != live.cycle;
    var draftValid := FundedChoice(draft.selectedSlots, core);
    var authorityValid := AuthorityValid(env, live, core, coreAddress);
    var alreadyLocked := role.Participant? && Has(live.lockMask, role.index) && authorityValid;
    var lockAllowed := role.Participant? && live.phase == Negotiating && draftValid && authorityValid && !conflict
        && !alreadyLocked;
    ConsentView(conflict, lockAllowed, alreadyLocked, authorityValid, draftValid)
  }

  // ----- One function per lifecycle stage -----

  function FundingState(input: RoomUiInput, core: RoomCore): RoomUiState {
    if input.now >= core.expiresAt then
      if input.role.Disconnected? then State(ConnectWallet, BaseEvidence)
      else State(CancelExpired, BaseEvidence).(alternatives := if input.role.Participant? then [CancelByParticipant]
                                               else [])
    else if input.role.Disconnected? then State(ConnectWallet, BaseEvidence)
    else if !input.role.Participant? then State(WaitForParticipants, BaseEvidence)
    else
      var first := input.role.index * 2;
      var missing := (if Has(core.depositedMask, first) then [] else [first])
                   + (if Has(core.depositedMask, first + 1) then [] else [first + 1]);
      if |missing| > 0 then RoomUiState(DepositAsset, [CancelByParticipant], BaseEvidence, Some(missing))
      else if core.depositedMask == SLOTS
        then State(ActivateAndDelegate, BaseEvidence).(alternatives := [CancelByParticipant])
      else State(WaitForParticipants, BaseEvidence).(alternatives := [CancelByParticipant])
  }

  function NegotiatingState(env: Env, input: RoomUiInput, core: RoomCore, live: RoomLive): RoomUiState {
    if live.revision == 0 && !CanonicalInitialProposal(live) then State(RefreshAuthority, ErEvidence)
    else if input.role.Disconnected? then State(ConnectWallet, NoEvidence)
    else if !input.role.Participant? then State(InspectProposal, ErEvidence)
    else if live.revision == 0 then
      if !FundedChoice(input.draft.selectedSlots, core) then State(InspectProposal, ErEvidence)
          else State(Propose, ErEvidence)
    else
      var consent := DeriveConsent(env, input.draft, live, input.role, core, input.coreAddress);
      if !consent.authorityValid then State(RefreshAuthority, ErEvidence)
      else if !consent.draftValid then State(InspectProposal, ErEvidence)
      else if consent.conflict
        then State(Propose, ErEvidence).(alternatives := if consent.alreadyLocked then [RevokeLock] else [])
      else if consent.alreadyLocked then State(RevokeLock, ErEvidence)
      else State(Lock, ErEvidence).(alternatives := [Propose])
  }

  predicate AuthorityOwnerValid(input: RoomUiInput) {
    var authority := input.authority;
    && authority.owner.Some? && authority.source != Unavailable
    && if authority.source == MagicBlockEr then authority.delegated && authority.owner.value == input.programId
       else authority.owner.value == if authority.delegated then authority.delegationProgramId else input.programId
  }

  predicate LiveLinkValid(input: RoomUiInput, core: RoomCore, live: RoomLive) {
    && core.liveRoom == input.liveAddress && live.core == input.coreAddress
    && core.participants == live.participants && core.expiresAt == live.expiresAt
    && AuthorityOwnerValid(input)
  }

  predicate FullLockSetValid(env: Env, input: RoomUiInput, core: RoomCore, live: RoomLive) {
    && live.lockMask == SEATS
    && DeriveConsent(env, DraftProposal(live.selectedSlots, live.cycle), live, Observer, core,
                     input.coreAddress).authorityValid
  }

  function FinalizedState(env: Env, input: RoomUiInput, core: RoomCore): RoomUiState {
    if input.authority.source == MagicBlockEr then State(InspectCommit, ErEvidence)
    else if input.authority.delegated then State(InspectCommit, BaseEvidence)
    else if input.live.None? || !FullLockSetValid(env, input, core, input.live.value)
      then State(InspectCommit, BaseEvidence)
    else if input.role.Disconnected? then State(ConnectWallet, BaseEvidence)
    else State(SettleCommitted, BaseEvidence)
  }

  function ActiveState(env: Env, input: RoomUiInput, core: RoomCore): RoomUiState {
    if input.now >= core.expiresAt then
      if input.role.Disconnected? then State(ConnectWallet, BaseEvidence) else State(CancelExpired, BaseEvidence)
    else if input.live.None? || input.authority.source == Unavailable then State(RefreshAuthority, NoEvidence)
    else
      var live := input.live.value;
      if !LiveLinkValid(input, core, live) then State(RefreshAuthority, NoEvidence)
      else if input.authority.source == SolanaBase && live.phase == Negotiating
        then State(InspectProposal, BaseEvidence)
      else if input.authority.source == SolanaBase && live.phase == Finalizing then State(InspectCommit, BaseEvidence)
      else if live.phase == Finalized then FinalizedState(env, input, core)
      else if live.phase == Negotiating then NegotiatingState(env, input, core, live)
      else if !FullLockSetValid(env, input, core, live) then State(RefreshAuthority, ErEvidence)
      else if input.role.Participant? then State(FinalizeCommitOnly, ErEvidence).(alternatives := [InspectCommit])
      else if input.role.Disconnected? then State(ConnectWallet, ErEvidence)
      else State(InspectCommit, ErEvidence)
  }

  function ReturnState(input: RoomUiInput, core: RoomCore): RoomUiState {
    var slots := ReturnableSlots(core);
    if slots == [] && core.status == Cancelled then State(ViewReceipt, BaseEvidence)
    else if slots == [] then State(RefreshAuthority, BaseEvidence)
    else if input.role.Disconnected? then State(ConnectWallet, BaseEvidence)
    else State(ReturnAsset, BaseEvidence).(slots := Some(slots))
  }

  function DeriveRoomUiState(env: Env, input: RoomUiInput): RoomUiState {
    if input.core.None? then State(RefreshAuthority, NoEvidence)
    else
      var core := input.core.value;
      if core.status == Complete || core.status == Closed then
        State(ViewReceipt, if core.status == Complete then BothEvidence else BaseEvidence)
      else if input.stale then State(RefreshAuthority, NoEvidence)
      else if core.status == Funding then FundingState(input, core)
      else if core.status == Active then ActiveState(env, input, core)
      else ReturnState(input, core)
  }

  // ----- Who may do what the state offers -----

  predicate ParticipantOnly(action: RoomAction) {
    action == DepositAsset || action == CancelByParticipant || action == ActivateAndDelegate || action == Propose
    || action == Lock || action == RevokeLock || action == FinalizeCommitOnly
  }

  predicate SnapshotActionAllowed(action: RoomAction, ui: RoomUiState, role: WalletRole) {
    && (ui.primary == action || action in ui.alternatives)
    && !role.Disconnected?
    && (ParticipantOnly(action) ==> role.Participant?)
  }

  /** What `assertLegalAction` lets through. */
  predicate LegalAction(action: RoomAction, ui: RoomUiState, role: WalletRole, slot: Option<nat>) {
    && SnapshotActionAllowed(action, ui, role)
    && (action == DepositAsset || action == ReturnAsset ==>
        slot.Some? && ui.slots.Some? && slot.value in ui.slots.value)
  }
}
