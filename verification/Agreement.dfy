/** Who agreed to what: the consent behind a settlement, the freeze, and the single outcome of a room. */
module Agreement {
  import opened Wire
  import opened Masks
  import opened Records
  import opened Tokens
  import opened Allocation
  import opened Rules
  import opened Machine
  import opened History
  import opened Invariant
  import opened Preservation
  import opened Settlement

  // ----- Unanimous exact consent -----

  /** The hash a settlement recomputes for a room in which nobody ever proposed. */
  function UnproposedHash(env: Env, core: RoomCore): Hash {
    AllocationHash(env, 0, core.expiresAt, [0, 2, 4], Forward, [1, 2, 0])
  }

  /** `p` is the deal the core records, transferred as proposed. */
  predicate DealOf(env: Env, core: RoomCore, p: Event) {
    && p.ProposalChanged? && p.revision == core.settledRevision && p.hash == core.allocationHash
    && SlotsInRange(p.slots)
    && p.hash == AllocationHash(env, p.revision, core.expiresAt, p.slots, p.cycle, DestinationsFor(p.cycle))
    && core.selectedMask == MaskOf(p.slots)
    && forall leg :: 0 <= leg < 3 ==>
         core.assets[p.slots[leg]].finalAta
         == env.ata(core.participants[DestinationsFor(p.cycle)[leg]], core.assets[p.slots[leg]].mint)
  }

  lemma RecordedDeal(env: Env, core: RoomCore, live: RoomLive, p: Event)
    requires SettlementFits(env, core, live) && WasSettled(core) && IsProposalOf(p, live)
    ensures DealOf(env, core, p)
  {
    hide MaskOf;
    forall leg | 0 <= leg < 3
      ensures LegRecorded(env, core, live, leg)
    {
    }
  }

  lemma SettledRevision(env: Env, core: RoomCore, live: RoomLive)
    requires SettlementFits(env, core, live) && WasSettled(core) && LocksFit(live) && ProposalFits(env, live)
    requires UnproposedHash(env, core) != ZERO_HASH
    ensures live.lockMask == SEATS && core.settledRevision == live.revision > 0
    ensures core.allocationHash == live.allocationHash
  {
    hide MaskOf, LegRecorded, SeatFits;
  }

  lemma AllSeatsStand(events: seq<Event>, live: RoomLive)
    requires Consent(events, live) && live.lockMask == SEATS
    ensures forall seat :: 0 <= seat < 3 ==> Stands(LockChanges(events, live.revision, seat), live.allocationHash)
  {
    assert Has(SEATS, 0) && Has(SEATS, 1) && Has(SEATS, 2);
    hide Has, Stands, OneProposalEach, NoEarlyLocks;
    assert SeatSpoke(events, live, 0) && SeatSpoke(events, live, 1) && SeatSpoke(events, live, 2);
  }

  lemma SettledConsent(env: Env, core: RoomCore, live: RoomLive, events: seq<Event>)
    requires SettlementFits(env, core, live) && WasSettled(core) && LocksFit(live) && Consent(events, live)
    requires ProposalFits(env, live)
    requires UnproposedHash(env, core) != ZERO_HASH
    ensures core.settledRevision > 0
    ensures var deals := Proposals(events, core.settledRevision); |deals| == 1 && DealOf(env, core, deals[0])
    ensures forall seat :: 0 <= seat < 3 ==>
      Stands(LockChanges(events, core.settledRevision, seat), core.allocationHash)
  {
    hide SettlementFits, WasSettled, LocksFit, ProposalFits, DealOf, SeatSpoke, NoEarlyLocks, Stands;
    SettledRevision(env, core, live);
    AllSeatsStand(events, live);
    var deals := Proposals(events, live.revision);
    assert |deals| == 1 && IsProposalOf(deals[0], live);
    RecordedDeal(env, core, live, deals[0]);
  }

  /** Whenever a room has settled, the log of the whole run holds exactly one proposal for the settled revision, its
      slots and cycle are the ones transferred, and the last word of every seat at that revision is a lock carrying the
      settled hash. Stale core snapshots, the rollup's clock and either settlement path make no difference. */
  lemma UnanimousExactConsent(env: Env, w: World)
    requires Reachable(env, w) && WasSettled(w.core)
    requires UnproposedHash(env, w.core) != ZERO_HASH
    ensures w.core.settledRevision > 0
    ensures var deals := Proposals(w.events, w.core.settledRevision); |deals| == 1 && DealOf(env, w.core, deals[0])
    ensures forall seat :: 0 <= seat < 3 ==>
      Stands(LockChanges(w.events, w.core.settledRevision, seat), w.core.allocationHash)
  {
    hide CoreFits, LogFits, Custody, CopiesFit, ProgressFits, ReturnsFit, SettlementFits, Consent, LocksFit,
         ProposalFits, DealOf;
    ReachableInv(env, w);
    SettledConsent(env, w.core, Current(w), w.events);
  }

  /** A frozen, committed proposal passes every check before the first transfer. */
  lemma ProposedDealPasses(env: Env, w: World)
    requires Reachable(env, w) && w.core.status == Active && w.now < w.core.expiresAt && w.live.phase == Finalized
    requires w.live.revision > 0
    ensures SettlementGuard(env, w.core, w.live, w.liveOwner, w.liveOwner, w.now).Pass?
  {
    ReachableInv(env, w);
    hide Custody, CopiesFit, ProgressFits, ReturnsFit, LogFits, SettlementFits, Consent, AssetFits, DistinctMints;
    FundedSelection(w.core, w.live.selectedSlots);
    FullLockSet(w.live);
  }

  /** A frozen, committed deal passes every check before the first transfer exactly when somebody once proposed it: a
      lock on the untouched revision zero is accepted, but what it freezes can only expire. */
  lemma SettlesIffProposed(env: Env, w: World)
    requires Reachable(env, w) && w.core.status == Active && w.now < w.core.expiresAt && w.live.phase == Finalized
    requires UnproposedHash(env, w.core) != ZERO_HASH
    ensures SettlementGuard(env, w.core, w.live, w.liveOwner, w.liveOwner, w.now).Pass? <==> w.live.revision > 0
  {
    hide Custody, CopiesFit, ProgressFits, ReturnsFit, LogFits, SettlementFits, Consent, CoreFits, ValidateLockSet,
         ValidateSelection, LocksFit;
    ReachableInv(env, w);
    if w.live.revision > 0 {
      ProposedDealPasses(env, w);
    }
  }

  lemma FundedSelection(core: RoomCore, slots: Bytes3)
    requires core.depositedMask == SLOTS
    ensures ValidateSelection(core, slots).Pass? <==> SlotsInRange(slots)
  {
  }

  /** Three set bits are three exact locks. */
  lemma FullLockSet(live: RoomLive)
    requires LocksFit(live)
    ensures ValidateLockSet(live).Pass? <==> live.lockMask == SEATS
    ensures live.lockMask == SEATS <==> live.phase != Negotiating
  {
    assert live.lockMask == SEATS ==> Has(live.lockMask, 0) && Has(live.lockMask, 1) && Has(live.lockMask, 2);
  }

  /** `lock` on a reachable copy fails only for the reasons its caller can see; its own check of the completed lock set
      never fails. */
  lemma LockIff(env: Env, core: RoomCore, live: RoomLive, now: i64, actor: Key, revision: u64, hash: Hash)
    requires LiveFits(env, core, live)
    ensures Lock(env, core, live, now, actor, revision, hash).Ok? <==>
      && LiveContext(env, core, live, now, actor).Pass?
      && live.phase == Negotiating && live.revision == revision && live.allocationHash == hash
      && Seat(core.participants, actor) < 3 && !Has(live.lockMask, Seat(core.participants, actor))
  {
    if LiveContext(env, core, live, now, actor).Pass? && live.phase == Negotiating && live.revision == revision
       && live.allocationHash == hash && !Has(live.lockMask, Seat(core.participants, actor)) {
      var index := Seat(core.participants, actor);
      var locked := live.(lockedRevision := live.lockedRevision[index := revision],
                          lockedHash := live.lockedHash[index := hash],
                          lockMask := With(live.lockMask, index));
      WithHas(live.lockMask, index, 0);
      WithHas(live.lockMask, index, 1);
      WithHas(live.lockMask, index, 2);
      assert SeatFits(locked, 0) && SeatFits(locked, 1) && SeatFits(locked, 2);
      assert locked.lockMask == SEATS ==> Has(locked.lockMask, 0) && Has(locked.lockMask, 1) && Has(locked.lockMask, 2);
      assert locked.lockMask == SEATS ==> ValidateLockSet(locked).Pass?;
    }
  }

  // ----- The freeze -----

  predicate SameDeal(a: RoomLive, b: RoomLive) {
    && a.revision == b.revision && a.selectedSlots == b.selectedSlots && a.cycle == b.cycle
       && a.destinations == b.destinations
    && a.allocationHash == b.allocationHash && a.lockedRevision == b.lockedRevision && a.lockedHash == b.lockedHash
    && a.lockMask == b.lockMask
  }

  predicate Negotiates(action: Action) {
    action.MakeProposal? || action.TakeLock? || action.DropLock? || action.Finalize?
  }

  lemma BaseActionKeepsDeal(env: Env, w: World, signer: Key, action: Action)
    requires CopiesFit(w) && !Negotiates(action)
    ensures var r := Perform(env, w, signer, action); r.Ok? ==> Current(r.value) == Current(w)
  {
    hide DepositAsset, Settle, ReturnAsset;
  }

  lemma FrozenNegotiation(env: Env, w: World, signer: Key, action: Action)
    requires CopiesFit(w) && Negotiates(action) && Current(w).phase != Negotiating
    ensures var r := Perform(env, w, signer, action);
      r.Ok? ==> SameDeal(Current(r.value), Current(w)) && Current(r.value).phase != Negotiating
  {
    hide LiveContext, ValidateLockSet, ValidateSelection;
    assert LiveSeen(w, action.venue).Ok? ==> LiveSeen(w, action.venue).value == Current(w);
  }

  lemma FrozenStep(env: Env, w: World, step: Step)
    requires CopiesFit(w) && Current(w).phase != Negotiating
    ensures SameDeal(Current(After(env, w, step)), Current(w)) && Current(After(env, w, step)).phase != Negotiating
  {
    hide Perform;
    if step.Call? {
      if Negotiates(step.action) {
        FrozenNegotiation(env, w, step.signer, step.action);
      } else {
        BaseActionKeepsDeal(env, w, step.signer, step.action);
      }
    }
  }

  lemma FrozenMask(env: Env, w: World)
    requires Inv(env, w)
    ensures CopiesFit(w)
    ensures Current(w).lockMask == SEATS <==> Current(w).phase != Negotiating
  {
  }

  /** After the third lock nobody can change the revision, the selection, the cycle, the hash or a lock, for the rest of
      any run. */
  lemma {:induction false} FrozenForever(env: Env, w: World, steps: seq<Step>)
    requires Reachable(env, w) && Current(w).lockMask == SEATS
    ensures SameDeal(Current(Exec(env, w, steps)), Current(w)) && Current(Exec(env, w, steps)).phase != Negotiating
  {
    hide Inv, CopiesFit;
    if steps == [] {
      ReachableInv(env, w);
      FrozenMask(env, w);
    } else {
      var before := steps[..|steps| - 1];
      FrozenForever(env, w, before);
      ReachableExec(env, w, before);
      ReachableInv(env, Exec(env, w, before));
      FrozenMask(env, Exec(env, w, before));
      FrozenStep(env, Exec(env, w, before), steps[|steps| - 1]);
    }
  }

  lemma ZeroRevisionSettled(env: Env, w: World)
    requires Reachable(env, w) && WasSettled(w.core) && UnproposedHash(env, w.core) != ZERO_HASH
    ensures Current(w).revision > 0
  {
    ReachableInv(env, w);
    SettledDealOnRecord(env, w);
    hide Inv, Reachable, UnproposedHash, DealOf, Stands, WasSettled;
    UnanimousExactConsent(env, w);
  }

  lemma SettledDealOnRecord(env: Env, w: World)
    requires Inv(env, w) && WasSettled(w.core)
    ensures w.core.settledRevision == Current(w).revision
  {
  }

  /** A deal frozen before anybody proposed is never settled, in any later state: its room can only expire. */
  lemma UnproposedNeverSettles(env: Env, w: World, steps: seq<Step>)
    requires Reachable(env, w) && Current(w).lockMask == SEATS && Current(w).revision == 0
    requires UnproposedHash(env, w.core) != ZERO_HASH
    ensures !WasSettled(Exec(env, w, steps).core)
  {
    hide Reachable, WasSettled, UnproposedHash, Exec;
    FrozenForever(env, w, steps);
    ReachableExec(env, w, steps);
    TermsForever(env, w, steps);
    SameUnproposed(env, w.core, Exec(env, w, steps).core);
    if WasSettled(Exec(env, w, steps).core) {
      ZeroRevisionSettled(env, Exec(env, w, steps));
    }
  }

  lemma SameUnproposed(env: Env, core: RoomCore, next: RoomCore)
    requires SameTerms(core, next)
    ensures UnproposedHash(env, core) == UnproposedHash(env, next)
  {
  }

  // ----- One writer, one outcome -----

  /** At every moment at most one copy of the live account can be written: none on base, ever, after creation; and the
      rollup's only while base has it delegated away. */
  lemma SingleWriter(env: Env, w: World, signer: Key, action: Action)
    requires Reachable(env, w)
    requires Negotiates(action)
    ensures Perform(env, w, signer, action).Ok? ==>
      action.venue.OnEr? && w.er.Delegated? && w.liveOwner.DelegationOwned?
    ensures w.liveOwner.ProgramOwned? ==> w.er.Absent?
  {
    ReachableInv(env, w);
    if Perform(env, w, signer, action).Ok? {
      WritesOnRollup(env, w, signer, action);
    }
  }

  lemma WritesOnRollup(env: Env, w: World, signer: Key, action: Action)
    requires Inv(env, w) && Perform(env, w, signer, action).Ok?
    requires Negotiates(action)
    ensures action.venue.OnEr? && w.er.Delegated?
  {
    hide Inv;
    NegotiatesOnRollup(env, w, action.venue, signer);
  }

  /** A room is delegated at most once, has at most one consequence and exactly one once it is decided, and makes at
      most fourteen writes of its core in any run. */
  lemma SingleOutcome(env: Env, w: World)
    requires Reachable(env, w)
    ensures Tally(w.events, IsDelegation) <= 1
    ensures Tally(w.events, IsOutcome) == (if Undecided(w.core) then 0 else 1)
    ensures Tally(w.events, IsCoreWrite) <= 14 - Rank(w.core) <= 14
  {
    ReachableInv(env, w);
  }

  lemma FundingRank(env: Env, w: World, signer: Key, action: Action)
    requires Inv(env, w) && signer != env.VaultAuthority() && (action.Deposit? || action.Activate?)
    ensures var r := Perform(env, w, signer, action); r.Ok? ==> Rank(r.value.core) < Rank(w.core)
  {
    hide Inv, Custody, CoreFits, DepositAsset, Count;
    CustodyParts(env, w);
    if action.Deposit? {
      DepositCore(env, w, signer, action.slot, action.mint, action.source, action.vault);
    } else {
      FullCount();
    }
  }

  lemma FullCount()
    ensures Count(SLOTS) == 6
  {
  }

  lemma CustodyParts(env: Env, w: World)
    requires Inv(env, w)
    ensures CoreFits(env, w.core) && Custody(env, w.core, w.ledger)
  {
  }

  lemma CancelRank(env: Env, w: World, signer: Key, action: Action)
    requires Inv(env, w) && (action.CancelAsParticipant? || action.CancelAfterExpiry?)
    ensures var r := Perform(env, w, signer, action); r.Ok? ==> Rank(r.value.core) < Rank(w.core)
  {
    hide Inv, CoreFits, Custody, Rank, RequireParticipant, SameTerms;
    CustodyParts(env, w);
    if Perform(env, w, signer, action).Ok? {
      CancelFits(env, w.core, w.ledger);
    }
  }

  lemma SettleRankFalls(env: Env, w: World, signer: Key, required: LiveOwner, legs: Legs)
    requires CoreFits(env, w.core) && Conserved(w.ledger)
    ensures var r := Perform(env, w, signer, SettleDeal(required, legs)); r.Ok? ==> Rank(r.value.core) < Rank(w.core)
  {
    hide CoreFits, Conserved, Settle, Rank, SettledCore, SettleLegs, AllocationHash;
    if Perform(env, w, signer, SettleDeal(required, legs)).Ok? {
      SettleGuarded(env, w.core, w.live, w.liveOwner, required, w.ledger, w.now, legs);
      SettledCoreFits(env, w.core, w.live);
      ActiveRank(w.core);
    }
  }

  lemma ReturnRankFalls(env: Env, w: World, signer: Key, action: Action)
    requires MasksFit(w.core) && Conserved(w.ledger) && action.Return?
    ensures var r := Perform(env, w, signer, action); r.Ok? ==> Rank(r.value.core) < Rank(w.core)
  {
    hide Conserved, MasksFit, ReturnAsset, MarkReturned, ReturnMaskGuard, Rank, OnlyMintMoves;
    if Perform(env, w, signer, action).Ok? {
      ReturnEffect(env, w.core, w.ledger, action.slot, action.mint, action.vault, action.originalOwner,
                   action.originalAta);
      ReturnRank(w.core, action.slot);
    }
  }

  lemma RankParts(env: Env, w: World)
    requires Inv(env, w)
    ensures CoreFits(env, w.core) && MasksFit(w.core) && Conserved(w.ledger) && 0 <= Rank(w.core) <= 14
  {
  }

  /** Every instruction that writes the core brings the room strictly closer to its end. */
  lemma RankFalls(env: Env, w: World, signer: Key, action: Action)
    requires Reachable(env, w) && signer != env.VaultAuthority() && !Negotiates(action)
    requires Perform(env, w, signer, action).Ok?
    ensures 0 <= Rank(Perform(env, w, signer, action).value.core) < Rank(w.core) <= 14
  {
    ReachableInv(env, w);
    ActionInv(env, w, signer, action);
    hide Reachable, Inv, Perform, Rank, CoreFits, MasksFit, Conserved;
    RankParts(env, w);
    RankParts(env, Perform(env, w, signer, action).value);
    RankSinks(env, w, signer, action);
  }

  lemma RankSinks(env: Env, w: World, signer: Key, action: Action)
    requires Inv(env, w) && signer != env.VaultAuthority() && !Negotiates(action) && Perform(env, w, signer, action).Ok?
    ensures Rank(Perform(env, w, signer, action).value.core) < Rank(w.core)
  {
    hide Inv, Perform, Rank, CoreFits, MasksFit, Conserved;
    RankParts(env, w);
    match action
    case Deposit(_, _, _, _) => FundingRank(env, w, signer, action);
    case Activate => FundingRank(env, w, signer, action);
    case CancelAsParticipant => CancelRank(env, w, signer, action);
    case CancelAfterExpiry => CancelRank(env, w, signer, action);
    case SettleDeal(required, legs) => SettleRankFalls(env, w, signer, required, legs);
    case Return(_, _, _, _, _) => ReturnRankFalls(env, w, signer, action);
  }

  /** A room that is returning has returned one or two of its three unselected assets, and a cancelled room with
      deposits still owes one. */
  lemma ReturnsInProgress(env: Env, w: World)
    requires Reachable(env, w)
    ensures w.core.status == Returning ==> 1 <= Count(w.core.returnedMask) <= 2
    ensures w.core.status == Cancelled && w.core.depositedMask != 0 ==>
      Count(w.core.returnedMask) < Count(w.core.depositedMask)
  {
    ReachableInv(env, w);
    InvParts(env, w);
    hide Inv, Count;
    ReturnCounts(w.core);
  }

  lemma ReturnCounts(core: RoomCore)
    requires MasksFit(core)
    ensures core.status == Returning ==> 1 <= Count(core.returnedMask) <= 2
    ensures core.status == Cancelled && core.depositedMask != 0 ==> Count(core.returnedMask) < Count(core.depositedMask)
  {
    hide Has, Within, Apart, Count, OnePerSeat, Minus;
    if core.status == Returning {
      var owed := Owed(core);
      UnselectedCount(core.selectedMask);
      DecidedRank(core);
      SubsetOfSlots(core.depositedMask, core.selectedMask);
      CountsBetween(core.returnedMask, owed);
    } else if core.status == Cancelled && core.depositedMask != 0 {
      CountsBetween(core.returnedMask, core.depositedMask);
    }
  }

  lemma SubsetOfSlots(deposited: bv8, selected: bv8)
    requires Within(deposited, SLOTS)
    ensures Within(Minus(deposited, selected), SLOTS)
  {
  }

  lemma CountsBetween(part: bv8, whole: bv8)
    requires Within(part, whole) && Within(whole, SLOTS) && part != whole
    ensures Count(part) < Count(whole)
    ensures part != 0 ==> Count(part) > 0
  {
    hide Has, Count, Within;
    CountSubset(part, whole);
    if Count(part) == Count(whole) {
      CountWhole(part, whole);
    }
    if part != 0 && Count(part) == 0 {
      NothingWithin(part);
      PartOfSlots(part, whole);
      CountWhole(0, part);
    }
  }

  lemma PartOfSlots(part: bv8, whole: bv8)
    requires Within(part, whole) && Within(whole, SLOTS)
    ensures Within(part, SLOTS)
  {
  }

  /** The guards of the two consequences are never open together. */
  lemma OutcomesExclude(env: Env, core: RoomCore, live: RoomLive, liveOwner: LiveOwner, required: LiveOwner,
                        l: Ledger, now: i64, legs: Legs, participant: Key)
    requires Settle(env, core, live, liveOwner, required, l, now, legs).Ok?
    ensures CancelExpired(core, now) == Err(NotExpired)
    ensures CancelByParticipant(core, participant).Err?
  {
    hide SettleLegs, ValidateLockSet, ValidateSelection;
  }

  /** A settled or cancelled room stays decided, whatever happens next, and its recorded deal never changes. */
  predicate Decided(core: RoomCore, next: RoomCore) {
    && !Undecided(next) && (WasSettled(core) <==> WasSettled(next))
    && next.settledRevision == core.settledRevision && next.allocationHash == core.allocationHash
    && next.selectedMask == core.selectedMask && next.depositedMask == core.depositedMask
    && forall s :: 0 <= s < 6 && Has(core.returnedMask, s) ==> Has(next.returnedMask, s)
  }

  lemma DecidedAction(env: Env, w: World, signer: Key, action: Action)
    requires !Undecided(w.core) && !action.Return?
    ensures var r := Perform(env, w, signer, action); r.Ok? ==> r.value.core == w.core
  {
    hide SettleLegs, ValidateLockSet, ValidateSelection, Propose, Lock, RevokeLock, FinalizeLive, TransferOne,
         OpenAta;
  }

  lemma DecidedReturnAction(env: Env, w: World, signer: Key, action: Action)
    requires MasksFit(w.core) && Conserved(w.ledger) && !Undecided(w.core) && action.Return?
    ensures var r := Perform(env, w, signer, action); r.Ok? ==> Decided(w.core, r.value.core)
  {
    hide Conserved, MasksFit, OnlyMintMoves, ReturnAsset, MarkReturned, ReturnMaskGuard;
    if Perform(env, w, signer, action).Ok? {
      ReturnEffect(env, w.core, w.ledger, action.slot, action.mint, action.vault, action.originalOwner,
                   action.originalAta);
      ReturnMasks(w.core, action.slot);
      DecidedReturn(w.core, action.slot);
    }
  }

  lemma DecidedStep(env: Env, w: World, step: Step)
    requires MasksFit(w.core) && Conserved(w.ledger) && !Undecided(w.core)
    ensures Decided(w.core, After(env, w, step).core)
  {
    hide Perform, MasksFit, Conserved;
    if step.Call? {
      if step.action.Return? {
        DecidedReturnAction(env, w, step.signer, step.action);
      } else {
        DecidedAction(env, w, step.signer, step.action);
      }
    }
  }

  lemma DecidedReturn(core: RoomCore, slot: nat)
    requires slot < 6
    ensures forall s :: 0 <= s < 6 && Has(core.returnedMask, s) ==> Has(MarkReturned(core, slot).returnedMask, s)
    ensures var core' := MarkReturned(core, slot);
      && core'.settledRevision == core.settledRevision && core'.allocationHash == core.allocationHash
      && core'.selectedMask == core.selectedMask && core'.depositedMask == core.depositedMask
  {
    forall s | 0 <= s < 6 && Has(core.returnedMask, s)
      ensures Has(MarkReturned(core, slot).returnedMask, s)
    {
      WithHas(core.returnedMask, slot, s);
    }
  }

  lemma InvParts(env: Env, w: World)
    requires Inv(env, w)
    ensures MasksFit(w.core) && Conserved(w.ledger)
  {
  }

  lemma {:induction false} DecidedForever(env: Env, w: World, steps: seq<Step>)
    requires Reachable(env, w) && !Undecided(w.core)
    ensures Decided(w.core, Exec(env, w, steps).core)
  {
    hide Inv, MasksFit, Conserved;
    if steps != [] {
      var before := steps[..|steps| - 1];
      DecidedForever(env, w, before);
      ReachableExec(env, w, before);
      ReachableInv(env, Exec(env, w, before));
      InvParts(env, Exec(env, w, before));
      DecidedStep(env, Exec(env, w, before), steps[|steps| - 1]);
    }
  }

  // ----- The terms of a room -----

  lemma LogOnlyGrows(env: Env, w: World, step: Step)
    ensures w.coreLog <= After(env, w, step).coreLog
  {
    hide DepositAsset, ActivateAndDelegateLive, Propose, Lock, RevokeLock, FinalizeLive, Settle, CancelByParticipant,
         CancelExpired, ReturnAsset, Apply;
  }

  lemma {:induction false} LogOnlyGrowsForever(env: Env, w: World, steps: seq<Step>)
    ensures w.coreLog <= Exec(env, w, steps).coreLog
  {
    hide After;
    if steps != [] {
      LogOnlyGrowsForever(env, w, steps[..|steps| - 1]);
      LogOnlyGrows(env, Exec(env, w, steps[..|steps| - 1]), steps[|steps| - 1]);
    }
  }

  lemma LoggedTerms(env: Env, w: World)
    requires Inv(env, w)
    ensures w.core in w.coreLog && forall i :: 0 <= i < |w.coreLog| ==> SameTerms(w.coreLog[i], w.core)
    ensures w.core.expiresAt >= w.core.createdAt + MIN_ROOM_SECONDS
  {
  }

  /** Roster, creator, addresses, creation and expiry are fixed at creation for every run, and leave at least twenty
      minutes. */
  lemma TermsForever(env: Env, w: World, steps: seq<Step>)
    requires Reachable(env, w)
    ensures SameTerms(w.core, Exec(env, w, steps).core)
    ensures w.core.expiresAt - w.core.createdAt >= 1200
  {
    hide Reachable, Inv, Exec, SameTerms;
    ReachableInv(env, w);
    ReachableExec(env, w, steps);
    ReachableInv(env, Exec(env, w, steps));
    LoggedTerms(env, w);
    LoggedTerms(env, Exec(env, w, steps));
    LogOnlyGrowsForever(env, w, steps);
    var i :| 0 <= i < |w.coreLog| && w.coreLog[i] == w.core;
    assert Exec(env, w, steps).coreLog[i] == w.core;
  }
}
