/** What the client sends for an action, what it expects to see afterwards, and when it believes it has seen it. */
module RoomActions {
  import opened Wire
  import opened Masks
  import opened Records
  import Tokens
  import opened Allocation
  import opened RoomState
  import Rules
  import Machine

  // ----- Building instructions -----

  function VaultAta(env: Env, core: Key, mint: Key): Key {
    env.ata(env.vaultPda(core), mint)
  }

  predicate ValidSettlementLinkage(env: Env, coreAddress: Key, liveAddress: Key, core: RoomCore, live: RoomLive) {
    && env.roomPda(core.creator, core.roomNonce) == coreAddress
    && env.livePda(coreAddress) == liveAddress
    && live.core == coreAddress
    && core.liveRoom == liveAddress
    && core.participants == live.participants
    && core.expiresAt == live.expiresAt
  }

  predicate ValidSettlementState(env: Env, coreAddress: Key, core: RoomCore, live: RoomLive, now: int) {
    && core.status == Active && now < core.expiresAt && live.phase == Finalized && live.lockMask == SEATS
    && live.lockedRevision == [live.revision, live.revision, live.revision]
    && live.lockedHash == [live.allocationHash, live.allocationHash, live.allocationHash]
    && live.allocationHash
       == env.sha256(Join(ClientSlices(coreAddress, live.revision, live.expiresAt, live.selectedSlots, live.cycle)))
  }

  predicate ValidSettlementSelection(core: RoomCore, live: RoomLive) {
    && (forall owner :: 0 <= owner < 3 ==>
        live.selectedSlots[owner] == owner * 2 || live.selectedSlots[owner] == owner * 2 + 1)
    && Has(core.depositedMask, live.selectedSlots[0]) && Has(core.depositedMask, live.selectedSlots[1])
    && Has(core.depositedMask, live.selectedSlots[2])
    && live.destinations == if live.cycle == Forward then [1, 2, 0] else [2, 0, 1]
  }

  datatype SettlementLeg = SettlementLeg(slot: byte, mint: Key, vault: Key, recipient: Key, destination: Key)

  const EMPTY_LEG := SettlementLeg(0, DEFAULT_KEY, DEFAULT_KEY, DEFAULT_KEY, DEFAULT_KEY)

  type SettlementLegs = s: seq<SettlementLeg> | |s| == 3 witness [EMPTY_LEG, EMPTY_LEG, EMPTY_LEG]

  /** `None` where the builder throws. */
  function BuildLeg(env: Env, coreAddress: Key, core: RoomCore, live: RoomLive, leg: nat): Option<SettlementLeg>
    requires leg < 3 && ValidSettlementSelection(core, live)
  {
    var slot := live.selectedSlots[leg];
    var asset := core.assets[slot];
    var recipient := core.participants[live.destinations[leg]];
    if asset.vault != VaultAta(env, coreAddress, asset.mint) || asset.originalOwner != core.participants[slot / 2]
        then None
    else Some(SettlementLeg(slot, asset.mint, asset.vault, recipient, env.ata(recipient, asset.mint)))
  }

  function BuildLegs(env: Env, coreAddress: Key, core: RoomCore, live: RoomLive): Option<SettlementLegs>
    requires ValidSettlementSelection(core, live)
  {
    var a, b, c := BuildLeg(env, coreAddress, core, live, 0), BuildLeg(env, coreAddress, core, live, 1),
                   BuildLeg(env, coreAddress, core, live, 2);
    if a.None? || b.None? || c.None? then None else Some([a.value, b.value, c.value])
  }

  function BuildSettleCommitted(env: Env, coreAddress: Key, liveAddress: Key, core: RoomCore, live: RoomLive, now: int)
    : Option<SettlementLegs>
  {
    if !ValidSettlementLinkage(env, coreAddress, liveAddress, core, live) then None
    else if !ValidSettlementState(env, coreAddress, core, live, now) then None
    else if !ValidSettlementSelection(core, live) then None
    else BuildLegs(env, coreAddress, core, live)
  }

  predicate ValidReturnState(env: Env, coreAddress: Key, core: RoomCore, slot: nat)
    requires slot < 6
  {
    var asset := core.assets[slot];
    var owner := core.participants[slot / 2];
    && (core.status == Cancelled || core.status == Settled || core.status == Returning)
    && Has(core.depositedMask, slot) && asset.flags & DEPOSITED != 0
    && !Has(core.returnedMask, slot) && asset.flags & RETURNED == 0
    && !(core.status != Cancelled && Has(core.selectedMask, slot))
    && asset.flags & TRANSFERRED == 0
    && asset.vault == VaultAta(env, coreAddress, asset.mint)
    && asset.originalOwner == owner
    && asset.originalAta == env.ata(owner, asset.mint)
  }

  function BuildReturnAsset(env: Env, coreAddress: Key, core: RoomCore, slot: nat): Option<Machine.Action> {
    if slot >= 6 then None
    else if env.roomPda(core.creator, core.roomNonce) != coreAddress then None
    else if !ValidReturnState(env, coreAddress, core, slot) then None
    else
      var a := core.assets[slot];
      Some(Machine.Return(slot, a.mint, a.vault, a.originalOwner, a.originalAta))
  }

  /** No other deposited slot holds this mint. */
  predicate DepositMintUnique(core: RoomCore, mint: Key, targetSlot: nat) {
    forall s :: 0 <= s < 6 && s != targetSlot && Has(core.depositedMask, s) ==> core.assets[s].mint != mint
  }

  /** The preflight of a deposit, as read from the base ledger. */
  predicate ValidDeposit(env: Env, l: Tokens.Ledger, owner: Key, coreAddress: Key, core: RoomCore, mint: Key,
                         slot: nat) {
    var source, vault := env.ata(owner, mint), VaultAta(env, coreAddress, mint);
    && DepositMintUnique(core, mint, slot)
    && mint in l.mints && l.mints[mint].decimals == 0 && l.mints[mint].supply == 1
    && l.mints[mint].mintAuthority.None? && l.mints[mint].freezeAuthority.None?
    && source in l.accounts && l.accounts[source].owner == owner && l.accounts[source].mint == mint
       && l.accounts[source].amount == 1
    && (vault in l.accounts ==>
          l.accounts[vault].owner == env.vaultPda(coreAddress) && l.accounts[vault].mint == mint
            && l.accounts[vault].amount == 0)
  }

  // ----- Transactions -----

  /** What is sent to a ledger: one instruction, or a settlement behind the account creations it prepares. */
  datatype Transaction = Single(instruction: Machine.Action) | Prepared(legs: SettlementLegs)

  function AccountsOf(leg: SettlementLeg): Rules.LegAccounts {
    Rules.LegAccounts(leg.mint, leg.vault, leg.destination)
  }

  /** `buildBaseWrite` and `buildErWrite`; `venue` is what the rollup will show the instruction. */
  function BuildWrite(env: Env, action: RoomAction, venue: Machine.Venue, signer: Key, coreAddress: Key,
                      liveAddress: Key,
                      core: RoomCore, live: RoomLive, draft: DraftProposal, slot: Option<nat>, mint: Key,
                      now: int): Option<Transaction>
  {
    match action
    case DepositAsset =>
      if slot.None? || slot.value >= 0x100 then None
      else Some(Single(Machine.Deposit(slot.value, mint, env.ata(signer, mint), VaultAta(env, coreAddress, mint))))
    case ActivateAndDelegate => Some(Single(Machine.Activate))
    case CancelByParticipant => Some(Single(Machine.CancelAsParticipant))
    case CancelExpired => Some(Single(Machine.CancelAfterExpiry))
    case ReturnAsset =>
      if slot.None? then None
      else
        var built := BuildReturnAsset(env, coreAddress, core, slot.value);
        if built.None? then None else Some(Single(built.value))
    case SettleCommitted =>
      var built := BuildSettleCommitted(env, coreAddress, liveAddress, core, live, now);
      if built.None? then None else Some(Prepared(built.value))
    case Propose => Some(Single(Machine.MakeProposal(venue, live.revision, draft.selectedSlots, draft.cycle)))
    case Lock => Some(Single(Machine.TakeLock(venue, live.revision, live.allocationHash)))
    case RevokeLock => Some(Single(Machine.DropLock(venue, live.revision, live.allocationHash)))
    case FinalizeCommitOnly => Some(Single(Machine.Finalize(venue)))
    case _ => None
  }

  /** Idempotent creation of the three recipients' accounts, in order. */
  function PrepareRecipients(l: Tokens.Ledger, legs: SettlementLegs): Result<Tokens.Ledger> {
    var first := Rules.OpenAta(l, legs[0].destination, legs[0].mint, legs[0].recipient);
    if first.Err? then first
    else
      var second := Rules.OpenAta(first.value, legs[1].destination, legs[1].mint, legs[1].recipient);
      if second.Err? then second
      else Rules.OpenAta(second.value, legs[2].destination, legs[2].mint, legs[2].recipient)
  }

  /** All the instructions of a transaction, or none. */
  function Send(env: Env, w: Machine.World, signer: Key, tx: Transaction): Result<Machine.World> {
    match tx
    case Single(instruction) => Machine.Next(env, w, Machine.Call(signer, instruction))
    case Prepared(legs) =>
      var ready := PrepareRecipients(w.ledger, legs);
      if ready.Err? then Err(ready.error)
      else
        var settle := Machine.SettleDeal(Rules.ProgramOwned,
                                         [AccountsOf(legs[0]), AccountsOf(legs[1]), AccountsOf(legs[2])]);
        Machine.Next(env, w.(ledger := ready.value), Machine.Call(signer, settle))
  }

  // ----- Expectations -----

  datatype MaskField = DepositedMask | ReturnedMask | SelectedMask | LockMask

  datatype Expectation =
    | Proposal(revision: int, selectedSlots: Bytes3, cycle: Cycle, allocationHash: Hash)
    | SeatLock(actorIndex: int, revision: int, allocationHash: Hash)
    | SeatRevoke(actorIndex: int, revision: int, allocationHash: Hash)
    | Phase(phase: LivePhase)
    | Status(status: CoreStatus)
    | Mask(field: MaskField, value: bv8)
    | Return(slot: nat)
    | Settlement(selectedMask: bv8, settledRevision: int, settledHash: Hash)
    | RoomInitialized(coreAddress: Key, liveAddress: Key)

  datatype Snapshot = Snapshot(core: Option<RoomCore>, live: Option<RoomLive>, coreAddress: Option<Key>,
                               liveAddress: Option<Key>)

  /** `mask & (1 << index)`; indices are -1 or below 8 here, where a wrapped shift count meets no bit. */
  predicate BitAt(mask: bv8, index: int) {
    0 <= index < 8 && Has(mask, index)
  }

  predicate LockExpectationMet(e: Expectation, live: Option<RoomLive>)
    requires e.SeatLock? || e.SeatRevoke?
  {
    && live.Some? && live.value.revision == e.revision && live.value.allocationHash == e.allocationHash
    && var locked := BitAt(live.value.lockMask, e.actorIndex);
       if e.SeatRevoke? then !locked
       else locked && e.actorIndex < 3 && live.value.lockedRevision[e.actorIndex] == e.revision
            && live.value.lockedHash[e.actorIndex] == e.allocationHash
  }

  predicate ExpectationMet(e: Expectation, s: Snapshot) {
    match e
    case Proposal(revision, slots, cycle, hash) =>
      s.live.Some? && s.live.value.revision == revision && s.live.value.cycle == cycle
        && s.live.value.selectedSlots == slots
      && s.live.value.allocationHash == hash
    case SeatLock(_, _, _) => LockExpectationMet(e, s.live)
    case SeatRevoke(_, _, _) => LockExpectationMet(e, s.live)
    case Phase(phase) => s.live.Some? && s.live.value.phase == phase
    case Status(status) => s.core.Some? && s.core.value.status == status
    case Settlement(mask, revision, hash) =>
      s.core.Some? && (s.core.value.status == Settled || s.core.value.status == Returning
                       || s.core.value.status == Complete)
      && s.core.value.selectedMask == mask && s.core.value.settledRevision == revision
         && s.core.value.allocationHash == hash
    case Return(slot) => s.core.Some? && BitAt(s.core.value.returnedMask, slot)
    case RoomInitialized(coreAddress, liveAddress) =>
      s.core.Some? && s.live.Some? && s.coreAddress == Some(coreAddress) && s.liveAddress == Some(liveAddress)
    case Mask(field, value) =>
      if field == LockMask then s.live.Some? && s.live.value.lockMask == value
      else s.core.Some? && value == match field
        case DepositedMask => s.core.value.depositedMask
        case ReturnedMask => s.core.value.returnedMask
        case _ => s.core.value.selectedMask
  }

  function SlotMask(slots: Bytes3): bv8
    requires ValidSelection(slots)
  {
    With(With(With(0, slots[0]), slots[1]), slots[2])
  }

  predicate NeedsSlot(action: RoomAction) {
    action == DepositAsset || action == ReturnAsset
  }

  /** The expectation of a write in an existing room; the caller has already passed `LegalAction`, which supplies the
      slot and, for a settlement, a valid selection. `None` for actions that are not writes. */
  function BuildPendingRequest(env: Env, action: RoomAction, coreAddress: Key, core: RoomCore, live: RoomLive,
                               roleIndex: int,
                               draft: DraftProposal, slot: Option<nat>): Option<Expectation>
    requires NeedsSlot(action) && slot.Some? ==> slot.value < 6
    requires action == SettleCommitted ==> ValidSelection(live.selectedSlots)
  {
    match action
    case DepositAsset => if slot.None? then None else Some(Mask(DepositedMask, With(core.depositedMask, slot.value)))
    case ActivateAndDelegate => Some(Status(Active))
    case CancelByParticipant => Some(Status(Cancelled))
    case CancelExpired => Some(Status(Cancelled))
    case ReturnAsset => if slot.None? then None else Some(Return(slot.value))
    case FinalizeCommitOnly => Some(Phase(Finalized))
    case SettleCommitted => Some(Settlement(SlotMask(live.selectedSlots), live.revision, live.allocationHash))
    case Propose =>
      var revision := live.revision + 1;
      // the client's 64-bit encoder wraps a revision past the largest one
      var wire: u64 := if revision > U64_MAX then 0 else revision;
      Some(Proposal(revision, draft.selectedSlots, draft.cycle,
                    env.sha256(Join(ClientSlices(coreAddress, wire, live.expiresAt, draft.selectedSlots,
                                                 draft.cycle)))))
    case Lock => Some(SeatLock(roleIndex, live.revision, live.allocationHash))
    case RevokeLock => Some(SeatRevoke(roleIndex, live.revision, live.allocationHash))
    case _ => None
  }

  // ----- The life of a pending write -----

  datatype PendingPhase = AwaitingWallet | Broadcast | AwaitingAuthoritative | Reconciled | TimedOut | Failed

  datatype PendingWrite = PendingWrite(
    action: RoomAction, expectation: Expectation, phase: PendingPhase, startedAt: int, updatedAt: int, timeoutAt: int,
    signature: Option<string>, refreshAuthority: bool, canBlindRetry: bool)

  function StartPending(action: RoomAction, expectation: Expectation, now: int, timeoutMs: int): Option<PendingWrite> {
    if timeoutMs <= 0 then None
    else Some(PendingWrite(action, expectation, AwaitingWallet, now, now, now + timeoutMs, None, false, false))
  }

  function BroadcastPending(pending: PendingWrite, signature: string, now: int): PendingWrite {
    pending.(phase := Broadcast, signature := Some(signature), updatedAt := now)
  }

  function AwaitAuthoritative(pending: PendingWrite, now: int): PendingWrite {
    pending.(phase := AwaitingAuthoritative, updatedAt := now)
  }

  function ReconcilePending(pending: PendingWrite, snapshot: Snapshot, now: int): PendingWrite {
    if ExpectationMet(pending.expectation, snapshot)
        then pending.(phase := Reconciled, updatedAt := now, refreshAuthority := false)
    else if now < pending.timeoutAt then pending
    else pending.(phase := TimedOut, updatedAt := now, refreshAuthority := true, canBlindRetry := false)
  }

  function FailPending(pending: PendingWrite, now: int): PendingWrite {
    pending.(phase := Failed, updatedAt := now, refreshAuthority := pending.signature.Some?, canBlindRetry := false)
  }

  const FRESH_MS := 5000
  const NOTHING := Snapshot(None, None, None, None)

  /** A projection older than five seconds is not looked at. */
  function ReconcileFreshPending(pending: PendingWrite, core: RoomCore, live: RoomLive, observedAt: int,
                                 now: int): PendingWrite {
    if now - observedAt > FRESH_MS then ReconcilePending(pending, NOTHING, now)
    else ReconcilePending(pending, Snapshot(Some(core), Some(live), None, None), now)
  }
}
