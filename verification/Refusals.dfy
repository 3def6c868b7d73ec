/** Writes that the client permits and the program refuses: for each outside obstacle a run to a room where it
    happens. */
module Refusals {
  import opened Wire
  import Masks
  import opened Records
  import opened Tokens
  import opened Allocation
  import opened Machine
  import opened Invariant
  import opened RoomState
  import opened RoomActions
  import opened ClientLaws
  import opened Progress
  import Rules
  import Settlement
  import Agreement
  import Preservation

  /** The client permits the attempt, a transaction is built for it, and the program refuses the transaction. */
  ghost predicate Refused(env: Env, w: World, input: RoomUiInput, at: Attempt) {
    && Reachable(env, w) && Permitted(env, w, input, at)
    && Sent(env, input, at).Some? && Send(env, w, at.signer, Sent(env, input, at).value).Err?
  }

  /** What the participant at `seat` sees, with the client's clock at `now`; base reports no delegation of the
      account. */
  function Seen(env: Env, w: World, seat: SeatIndex, live: RoomLive, source: Source, now: int): RoomUiInput {
    RoomUiInput(Some(w.core), Some(live), Participant(seat), DraftProposal(live.selectedSlots, live.cycle),
                Authority(source, source == MagicBlockEr, Some(DEFAULT_KEY), DEFAULT_KEY),
                env.coreKey, env.LiveKey(), DEFAULT_KEY, false, now)
  }

  function Try(action: RoomAction, signer: Key, now: int): Attempt {
    Attempt(action, signer, None, DEFAULT_KEY, OnBase, now)
  }

  lemma RoleOfSeat(core: RoomCore, seat: SeatIndex)
    requires Rules.ValidateParticipants(core.participants).Pass?
    ensures DeriveWalletRole(Some(core.participants[seat]), core.participants) == Participant(seat)
  {
  }

  lemma SeatRole(env: Env, w: World, seat: SeatIndex)
    requires Reachable(env, w)
    ensures DeriveWalletRole(Some(w.core.participants[seat]), w.core.participants) == Participant(seat)
  {
    hide Inv, CoreFits, Reachable;
    Settlement.ReachableInv(env, w);
    RosterFits(env, w);
    RoleOfSeat(w.core, seat);
  }

  lemma RosterFits(env: Env, w: World)
    requires Inv(env, w)
    ensures Rules.ValidateParticipants(w.core.participants).Pass?
  {
  }

  // ----- The client's clock -----

  /** The expiry passes on base while the client's clock is behind. */
  function Expired(env: Env, w: World): World
    requires w.now < w.core.expiresAt
  {
    After(env, w, Tick(w.core.expiresAt - w.now))
  }

  lemma ExpiredParts(env: Env, w: World)
    requires Reachable(env, w) && w.now < w.core.expiresAt
    ensures Reachable(env, Expired(env, w)) && Expired(env, w) == w.(now := w.core.expiresAt)
  {
    hide Reachable;
    ReachableNext(env, w, Tick(w.core.expiresAt - w.now));
  }

  /** Behind base, the client still permits the activation of a funded room that has expired. */
  lemma SlowClockActivates(env: Env, w: World, now: int)
    requires Reachable(env, w) && Funded(w) && now < w.core.expiresAt
    ensures var late := Expired(env, w);
      Refused(env, late, Seen(env, late, 0, late.live, SolanaBase, now),
              Try(ActivateAndDelegate, w.core.participants[0], now))
  {
    hide Reachable, LiveFits, CoreFits;
    FundedParts(env, w);
    ExpiredParts(env, w);
    SeatRole(env, w, 0);
    assert Masks.Has(Masks.SLOTS, 0) && Masks.Has(Masks.SLOTS, 1);
  }

  /** Ahead of base, the client permits a cancellation that is not yet due. */
  lemma FastClockCancels(env: Env, w: World, now: int)
    requires Reachable(env, w) && Funded(w) && now >= w.core.expiresAt
    ensures Refused(env, w, Seen(env, w, 0, w.live, SolanaBase, now), Try(CancelExpired, w.core.participants[0], now))
  {
    hide Reachable, LiveFits, CoreFits, Masks.Has;
    FundedParts(env, w);
    SeatRole(env, w, 0);
  }

  // ----- Settlement offered too late or too soon -----

  lemma SettlementOffered(env: Env, w: World, now: int)
    requires Reachable(env, w) && w.core.status == Active && w.live.phase == Finalized
    requires w.live.revision > 0 && w.live.allocationHash != ZERO_HASH && now < w.core.expiresAt
    ensures var input := Seen(env, w, 0, w.live, SolanaBase, now);
      SnapshotActionAllowed(SettleCommitted, DeriveRoomUiState(env, input), input.role)
    ensures Committed(w)
  {
    hide Reachable, Inv, AuthorityValid;
    Settlement.ReachableInv(env, w);
    CommittedParts(env, w);
    TrustedProposal(env, w.core, w.live);
    Agreement.FullLockSet(w.live);
  }

  lemma CommittedParts(env: Env, w: World)
    requires Inv(env, w) && w.core.status == Active && w.live.phase == Finalized
    ensures LiveFits(env, w.core, w.live) && CoreFits(env, w.core) && w.core.depositedMask == Masks.SLOTS
    ensures w.core.liveRoom == env.LiveKey()
  {
  }

  /** A settlement that the client permits and that base does not take. */
  lemma SettlementRefused(env: Env, w: World, now: int)
    requires Reachable(env, w) && w.core.status == Active && w.live.phase == Finalized
    requires w.live.revision > 0 && w.live.allocationHash != ZERO_HASH && now < w.core.expiresAt
    requires w.core.participants[0] != env.VaultAuthority()
    requires !w.liveOwner.ProgramOwned? || w.now >= w.core.expiresAt
    ensures Refused(env, w, Seen(env, w, 0, w.live, SolanaBase, now), Try(SettleCommitted, w.core.participants[0], now))
  {
    hide Reachable, DeriveRoomUiState, SnapshotActionAllowed, SlotMask, BuildSettleCommitted, Send;
    SettlementOffered(env, w, now);
    SeatRole(env, w, 0);
    var input, at := Seen(env, w, 0, w.live, SolanaBase, now), Try(SettleCommitted, w.core.participants[0], now);
    ClientIsFaithful(env, w, input, at);
  }

  lemma TabledHash(env: Env, start: World, w: World, slots: Bytes3, cycle: Cycle)
    requires AgreedBy(env, start, w, 1, slots, cycle, 3) && TableHash(env, start.core, 1, slots, cycle) != ZERO_HASH
    ensures w.er.live.allocationHash != ZERO_HASH && w.core.status == Active && w.now == start.now
    ensures w.core.participants == start.core.participants && w.core.expiresAt == start.core.expiresAt
    ensures w.liveOwner.DelegationOwned?
  {
    hide Reachable, Inv, FirstSeats;
    Settlement.ReachableInv(env, w);
    RollupParts(env, w);
    HashOnTable(env, w.core, w.er.live);
  }

  /** The run of a deal up to its finalization. */
  function FinalizedRun(env: Env, w: World, slots: Bytes3, cycle: Cycle): World
    requires Rules.SlotsInRange(slots)
  {
    After(env, Exec(env, w, AgreeSteps(env, w, slots, cycle)), Call(w.core.participants[0], Finalize(Table(w))))
  }

  lemma FinalizedParts(env: Env, w: World, slots: Bytes3, cycle: Cycle)
    requires Reachable(env, w) && Funded(w) && Rules.SlotsInRange(slots)
    requires TableHash(env, w.core, 1, slots, cycle) != ZERO_HASH
    ensures var next := FinalizedRun(env, w, slots, cycle);
      && Reachable(env, next) && next.er.Scheduled? && next.er.live.phase == Finalized && next.er.live.revision == 1
      && next.er.live.allocationHash != ZERO_HASH && next.core.status == Active && next.liveOwner.DelegationOwned?
      && next.core.participants == w.core.participants && next.core.expiresAt == w.core.expiresAt && next.now == w.now
      && w.core.participants[0] != env.VaultAuthority()
  {
    hide Reachable, Exec, After, AgreedBy, Funded, TableHash, LiveFits, CoreFits, AgreeSteps;
    FundedParts(env, w);
    AgreedRun(env, w, slots, cycle);
    var agreed, finalize := Exec(env, w, AgreeSteps(env, w, slots, cycle)),
        Call(w.core.participants[0], Finalize(Table(w)));
    TabledHash(env, w, agreed, slots, cycle);
    FinalizeStep(env, w, agreed, 1, slots, cycle);
    AgreedReachable(env, w, agreed, slots, cycle);
    ReachableNext(env, agreed, finalize);
    FinalizeKeepsHash(env, agreed, w.core.participants[0], Table(w));
  }

  lemma AgreedReachable(env: Env, start: World, w: World, slots: Bytes3, cycle: Cycle)
    requires AgreedBy(env, start, w, 1, slots, cycle, 3)
    ensures Reachable(env, w) && w.er.Delegated?
  {
  }

  lemma FinalizeKeepsHash(env: Env, w: World, signer: Key, venue: Venue)
    requires w.er.Delegated?
    ensures var next := After(env, w, Call(signer, Finalize(venue)));
      next.er.Scheduled? ==> next.er.live.allocationHash == w.er.live.allocationHash
  {
    hide Rules.LiveContext, Rules.ValidateLockSet;
  }

  /** Between the commit and the hand-back, the client permits a settlement of every deal that a funded room can make;
      the program refuses it. */
  lemma SettledTooSoon(env: Env, w: World, slots: Bytes3, cycle: Cycle, now: int)
    requires Reachable(env, w) && Funded(w) && Rules.SlotsInRange(slots) && now < w.core.expiresAt
    requires TableHash(env, w.core, 1, slots, cycle) != ZERO_HASH
    ensures var sealed := After(env, FinalizedRun(env, w, slots, cycle), Commit);
      Refused(env, sealed, Seen(env, sealed, 0, sealed.live, SolanaBase, now),
              Try(SettleCommitted, w.core.participants[0], now))
  {
    hide Reachable, FinalizedRun, Refused, TableHash, Funded;
    FinalizedParts(env, w, slots, cycle);
    var finalized := FinalizedRun(env, w, slots, cycle);
    ReachableNext(env, finalized, Commit);
    SettlementRefused(env, After(env, finalized, Commit), now);
  }

  /** The same deal handed back, and settled by a client whose clock is behind after the expiry has passed on base. */
  lemma SlowClockSettles(env: Env, w: World, slots: Bytes3, cycle: Cycle, now: int)
    requires Reachable(env, w) && Funded(w) && Rules.SlotsInRange(slots) && now < w.core.expiresAt
    requires TableHash(env, w.core, 1, slots, cycle) != ZERO_HASH
    ensures var back := After(env, After(env, FinalizedRun(env, w, slots, cycle), Commit), Undelegate);
      && back.liveOwner.ProgramOwned? && back.now < back.core.expiresAt
      && var late := Expired(env, back);
         Refused(env, late, Seen(env, late, 0, late.live, SolanaBase, now),
                 Try(SettleCommitted, w.core.participants[0], now))
  {
    hide Reachable, FinalizedRun, Refused, TableHash;
    FinalizedParts(env, w, slots, cycle);
    var finalized := FinalizedRun(env, w, slots, cycle);
    HandBack(env, finalized);
    ReachableNext(env, finalized, Commit);
    ReachableNext(env, After(env, finalized, Commit), Undelegate);
    var back := After(env, After(env, finalized, Commit), Undelegate);
    ExpiredParts(env, back);
    SettlementRefused(env, Expired(env, back), now);
  }

  // ----- A lagging rollup -----

  /** On a proposal of any funded room the client permits a lock to every seat; a rollup that shows no active core, or a
      clock past the expiry, refuses it. */
  lemma LaggingRollupRefuses(env: Env, w: World, slots: Bytes3, cycle: Cycle, seat: SeatIndex, venue: Venue, now: int)
    requires Reachable(env, w) && Funded(w) && Rules.SlotsInRange(slots) && now < w.core.expiresAt
    requires TableHash(env, w.core, 1, slots, cycle) != ZERO_HASH
    ensures var proposed := After(env, Preservation.Activated(w),
                                  Call(w.core.participants[0], MakeProposal(Table(w), 0, slots, cycle)));
      && proposed.er.Delegated?
      && (!RollupSees(proposed, venue) ==>
            Refused(env, proposed, Seen(env, proposed, seat, proposed.er.live, MagicBlockEr, now),
                    Attempt(Lock, w.core.participants[seat], None, DEFAULT_KEY, venue, now)))
  {
    hide Reachable, After, Funded, TableHash, LiveFits, CoreFits, Preservation.Activated, Refused, RollupSees;
    FundedParts(env, w);
    ProposalStep(env, w, slots, cycle);
    var proposed := After(env, Preservation.Activated(w),
                          Call(w.core.participants[0], MakeProposal(Table(w), 0, slots, cycle)));
    ProposedHash(env, w, proposed, slots, cycle);
    if !RollupSees(proposed, venue) {
      LockRefused(env, proposed, seat, venue, now);
    }
  }

  lemma ProposedHash(env: Env, start: World, w: World, slots: Bytes3, cycle: Cycle)
    requires AgreedBy(env, start, w, 1, slots, cycle, 0) && TableHash(env, start.core, 1, slots, cycle) != ZERO_HASH
    ensures w.er.live.allocationHash != ZERO_HASH && w.core.status == Active && w.er.live.lockMask == 0
    ensures w.core.participants == start.core.participants && w.core.expiresAt == start.core.expiresAt
    ensures w.er.live.phase == Negotiating
  {
    hide Reachable, Inv;
    Settlement.ReachableInv(env, w);
    RollupParts(env, w);
    HashOnTable(env, w.core, w.er.live);
    Agreement.FullLockSet(w.er.live);
  }

  lemma LockOffered(env: Env, w: World, seat: SeatIndex, now: int)
    requires Reachable(env, w) && w.core.status == Active && w.er.Delegated? && now < w.core.expiresAt
    requires w.er.live.phase == Negotiating && w.er.live.lockMask == 0
    requires w.er.live.revision > 0 && w.er.live.allocationHash != ZERO_HASH
    ensures var input := Seen(env, w, seat, w.er.live, MagicBlockEr, now);
      SnapshotActionAllowed(Lock, DeriveRoomUiState(env, input), input.role)
  {
    hide Reachable, AuthorityValid, CanonicalInitialProposal;
    TableParts(env, w);
    TrustedProposal(env, w.core, w.er.live);
    Agreement.FundedSelection(w.core, w.er.live.selectedSlots);
    assert !Masks.Has(0, seat);
  }

  lemma LockRefused(env: Env, w: World, seat: SeatIndex, venue: Venue, now: int)
    requires Reachable(env, w) && w.core.status == Active && w.er.Delegated? && now < w.core.expiresAt
    requires w.er.live.phase == Negotiating && w.er.live.lockMask == 0
    requires w.er.live.revision > 0 && w.er.live.allocationHash != ZERO_HASH
    requires w.core.participants[seat] != env.VaultAuthority() && !RollupSees(w, venue)
    ensures Refused(env, w, Seen(env, w, seat, w.er.live, MagicBlockEr, now),
                    Attempt(Lock, w.core.participants[seat], None, DEFAULT_KEY, venue, now))
  {
    hide Reachable, DeriveRoomUiState, SnapshotActionAllowed, Send, RollupSees;
    LockOffered(env, w, seat, now);
    SeatRole(env, w, seat);
    ClientIsFaithful(env, w, Seen(env, w, seat, w.er.live, MagicBlockEr, now),
                     Attempt(Lock, w.core.participants[seat], None, DEFAULT_KEY, venue, now));
  }

  // ----- A frozen account behind a clean mint -----

  /** The source or the vault of the deposit is frozen, and then the mint gives up its freeze authority. */
  function FreezeSteps(freezer: Key, account: Key, mint: Key): seq<Step> {
    [Token(freezer, SetFrozen(account, true))] + [Token(freezer, SetFreezeAuthority(mint, None))]
  }

  /** A participant's asset for an empty slot, eligible but for a freeze authority that its mint still has. */
  predicate Freezable(env: Env, w: World, mint: Key, slot: nat, freezer: Key)
    requires slot < 6
  {
    var signer := w.core.participants[slot / 2];
    var source, vault := env.ata(signer, mint), env.VaultOf(mint);
    && w.core.status == Funding && !Masks.Has(w.core.depositedMask, slot) && DepositMintUnique(w.core, mint, slot)
    && signer != env.VaultAuthority() && freezer != env.VaultAuthority()
    && mint in w.ledger.mints && w.ledger.mints[mint] == Mint(0, 1, None, Some(freezer))
    && source in w.ledger.accounts && w.ledger.accounts[source] == TokenAccount(mint, signer, 1, false)
    && vault in w.ledger.accounts && w.ledger.accounts[vault] == TokenAccount(mint, env.VaultAuthority(), 0, false)
  }

  lemma FreezeRun(env: Env, w: World, freezer: Key, account: Key, mint: Key)
    requires Reachable(env, w) && freezer != env.VaultAuthority()
    requires mint in w.ledger.mints && w.ledger.mints[mint].freezeAuthority == Some(freezer)
    requires account in w.ledger.accounts && w.ledger.accounts[account].mint == mint
    ensures var w' := Exec(env, w, FreezeSteps(freezer, account, mint));
      && Reachable(env, w')
      && w' == w.(ledger := Ledger(
           w.ledger.mints[mint := w.ledger.mints[mint].(freezeAuthority := None)],
           w.ledger.accounts[account := w.ledger.accounts[account].(frozen := true)]))
  {
    hide Reachable;
    var freeze, drop := Token(freezer, SetFrozen(account, true)), Token(freezer, SetFreezeAuthority(mint, None));
    ReachableExec(env, w, [freeze] + [drop]);
    ExecCons(env, w, freeze, [drop]);
    LastStep(env, After(env, w, freeze), drop);
  }

  lemma DepositOpen(env: Env, w: World, slot: nat, now: int)
    requires slot < 6 && w.core.status == Funding && !Masks.Has(w.core.depositedMask, slot) && now < w.core.expiresAt
    ensures var input := Seen(env, w, slot / 2, w.live, SolanaBase, now);
      LegalAction(DepositAsset, DeriveRoomUiState(env, input), input.role, Some(slot))
  {
    hide Masks.Has;
  }

  /** The preflight does not see a frozen account: the client permits the deposit and the token program refuses it. */
  lemma FrozenDepositRefused(env: Env, w: World, mint: Key, slot: nat, freezer: Key, account: Key, now: int)
    requires Reachable(env, w) && slot < 6 && Freezable(env, w, mint, slot, freezer) && now < w.core.expiresAt
    requires account == env.ata(w.core.participants[slot / 2], mint) || account == env.VaultOf(mint)
    ensures var frozen := Exec(env, w, FreezeSteps(freezer, account, mint));
      Refused(env, frozen, Seen(env, frozen, slot / 2, frozen.live, SolanaBase, now),
              Attempt(DepositAsset, w.core.participants[slot / 2], Some(slot), mint, OnBase, now))
  {
    hide Reachable, DeriveRoomUiState, LegalAction, Masks.Has, DepositMintUnique, Send, Exec, FreezeSteps;
    FreezeRun(env, w, freezer, account, mint);
    var frozen := Exec(env, w, FreezeSteps(freezer, account, mint));
    DepositOpen(env, frozen, slot, now);
    SeatRole(env, frozen, slot / 2);
    ClientIsFaithful(env, frozen, Seen(env, frozen, slot / 2, frozen.live, SolanaBase, now),
                     Attempt(DepositAsset, w.core.participants[slot / 2], Some(slot), mint, OnBase, now));
  }
}
