/** A funded room can always be settled: the run that its three participants need, step by step. */
module Progress {
  import opened Wire
  import opened Masks
  import opened Records
  import opened Tokens
  import opened Allocation
  import opened Rules
  import opened Machine
  import opened Invariant
  import Preservation
  import opened Settlement
  import opened Agreement
  import opened CustodyLaws

  lemma ExecCons(env: Env, w: World, step: Step, rest: seq<Step>)
    ensures Exec(env, w, [step] + rest) == Exec(env, After(env, w, step), rest)
  {
    hide After;
    assert [step][..0] == [] && Exec(env, w, [step]) == After(env, Exec(env, w, []), step);
    ExecConcat(env, w, [step], rest);
  }

  // ----- The run -----

  /** The rollup with the core as activation leaves it, and the base clock. */
  function Table(w: World): Venue {
    OnEr(|w.coreLog|, w.now)
  }

  /** The hash that the table carries at a revision: none before the first proposal. */
  function TableHash(env: Env, core: RoomCore, revision: u64, slots: Bytes3, cycle: Cycle): Hash {
    if revision == 0 then ZERO_HASH
    else AllocationHash(env, revision, core.expiresAt, slots, cycle, DestinationsFor(cycle))
  }

  function DealLeg(env: Env, core: RoomCore, slots: Bytes3, cycle: Cycle, leg: nat): LegAccounts
    requires leg < 3 && SlotsInRange(slots)
  {
    var a := core.assets[slots[leg]];
    LegAccounts(a.mint, a.vault, env.ata(core.participants[DestinationsFor(cycle)[leg]], a.mint))
  }

  function DealLegs(env: Env, core: RoomCore, slots: Bytes3, cycle: Cycle): Legs
    requires SlotsInRange(slots)
  {
    [DealLeg(env, core, slots, cycle, 0), DealLeg(env, core, slots, cycle, 1), DealLeg(env, core, slots, cycle, 2)]
  }

  /** Activate, propose, three locks. */
  function AgreeSteps(env: Env, w: World, slots: Bytes3, cycle: Cycle): (steps: seq<Step>)
    requires SlotsInRange(slots)
  {
    var p, hash := w.core.participants, TableHash(env, w.core, 1, slots, cycle);
    [Call(p[0], Activate)]
    + ([Call(p[0], MakeProposal(Table(w), 0, slots, cycle))]
    + ([Call(p[0], TakeLock(Table(w), 1, hash))]
    + ([Call(p[1], TakeLock(Table(w), 1, hash))] + [Call(p[2], TakeLock(Table(w), 1, hash))])))
  }

  /** Agree, finalize, commit, undelegate, settle. */
  function DealSteps(env: Env, w: World, slots: Bytes3, cycle: Cycle): (steps: seq<Step>)
    requires SlotsInRange(slots)
  {
    var p := w.core.participants;
    AgreeSteps(env, w, slots, cycle)
    + ([Call(p[0], Finalize(Table(w)))]
    + ([Commit] + ([Undelegate] + [Call(p[0], SettleDeal(ProgramOwned, DealLegs(env, w.core, slots, cycle)))])))
  }

  // ----- Its states -----

  predicate Funded(w: World) {
    w.core.status == Funding && w.core.depositedMask == SLOTS && w.now < w.core.expiresAt
  }

  lemma FundedParts(env: Env, w: World)
    requires Reachable(env, w) && Funded(w)
    ensures forall i :: 0 <= i < 3 ==> w.core.participants[i] != env.VaultAuthority()
    ensures w.liveOwner.ProgramOwned? && w.live.phase == Negotiating && w.live.revision == 0 && w.live.lockMask == 0
    ensures LiveFits(env, w.core, w.live) && CoreFits(env, w.core)
  {
    ReachableInv(env, w);
    hide Reachable, LogFits, Custody, Consent, SettlementFits, ProgressFits, ReturnsFit, LiveFits, CoreFits;
    SeatsAreNotVault(env, w.core);
  }

  lemma SeatsAreNotVault(env: Env, core: RoomCore)
    requires CoreFits(env, core) && core.depositedMask == SLOTS
    ensures forall i :: 0 <= i < 3 ==> core.participants[i] != env.VaultAuthority()
  {
    assert AssetFits(env, core, 0) && AssetFits(env, core, 2) && AssetFits(env, core, 4);
    hide CoreFits, FlagsFor;
    assert Has(SLOTS, 0) && Has(SLOTS, 2) && Has(SLOTS, 4);
  }

  lemma ActivateStep(env: Env, w: World)
    requires Reachable(env, w) && Funded(w)
    ensures After(env, w, Call(w.core.participants[0], Activate)) == Preservation.Activated(w)
      && Reachable(env, Preservation.Activated(w))
  {
    FundedParts(env, w);
    ReachableNext(env, w, Call(w.core.participants[0], Activate));
    hide Reachable, LiveFits, CoreFits;
  }

  function FirstSeats(k: nat): bv8
    requires k <= 3
  {
    if k == 0 then 0 else With(FirstSeats(k - 1), k - 1)
  }

  lemma FirstSeatsHas(k: nat)
    requires k <= 3
    ensures k < 3 ==> !Has(FirstSeats(k), k)
    ensures FirstSeats(k) == SEATS <==> k == 3
  {
  }

  /** `w` is `start` activated, with this deal on the table at this revision and the first `k` seats locked on it. */
  ghost predicate AgreedBy(env: Env, start: World, w: World, revision: u64, slots: Bytes3, cycle: Cycle, k: nat)
    requires k <= 3
  {
    && Reachable(env, w) && w.core == start.core.(status := Active) && w.ledger == start.ledger && w.now == start.now
    && |w.coreLog| > |start.coreLog| && w.coreLog[|start.coreLog|] == w.core
    && w.er.Delegated? && w.er.live.revision == revision && w.er.live.selectedSlots == slots && w.er.live.cycle == cycle
    && w.er.live.lockMask == FirstSeats(k)
  }

  lemma RosterIndex(core: RoomCore, seat: nat)
    requires ValidateParticipants(core.participants).Pass? && seat < 3
    ensures ParticipantIndex(core.participants, core.participants[seat]) == Ok(seat)
  {
  }

  lemma TableContext(env: Env, start: World, w: World, seat: nat)
    requires seat < 3 && Reachable(env, w) && w.core.status == Active && w.er.Delegated? && w.now < w.core.expiresAt
    requires w.now == start.now && |w.coreLog| > |start.coreLog| && w.coreLog[|start.coreLog|] == w.core
    ensures CoreSeen(w, Table(start)) == Ok(w.core) && LiveSeen(w, Table(start)) == Ok(w.er.live)
    ensures LiveContext(env, w.core, w.er.live, w.now, w.core.participants[seat]).Pass?
    ensures LiveFits(env, w.core, w.er.live)
    ensures ParticipantIndex(w.core.participants, w.core.participants[seat]) == Ok(seat)
    ensures w.core.depositedMask == SLOTS
  {
    ReachableInv(env, w);
    hide LogFits, Custody, CopiesFit, Consent, SettlementFits, ProgressFits, ReturnsFit, AssetFits, DistinctMints,
         LocksFit, ProposalFits;
    RosterIndex(w.core, seat);
  }

  lemma ProposalStep(env: Env, w: World, slots: Bytes3, cycle: Cycle)
    requires Reachable(env, w) && Funded(w) && SlotsInRange(slots)
    ensures AgreedBy(env, w,
                     After(env, Preservation.Activated(w),
                           Call(w.core.participants[0], MakeProposal(Table(w), 0, slots, cycle))),
                     1, slots, cycle, 0)
  {
    var w1, p := Preservation.Activated(w), w.core.participants[0];
    FundedParts(env, w);
    ActivateStep(env, w);
    TableContext(env, w, w1, 0);
    FundedSelection(w1.core, slots);
    ReachableNext(env, w1, Call(p, MakeProposal(Table(w), 0, slots, cycle)));
    hide Reachable, LiveContext, ValidateSelection, LiveFits, CoreFits, AllocationHash, CoreSeen, LiveSeen,
         ParticipantIndex;
  }

  lemma HashOnTable(env: Env, core: RoomCore, live: RoomLive)
    requires LiveFits(env, core, live)
    ensures live.allocationHash == TableHash(env, core, live.revision, live.selectedSlots, live.cycle)
  {
  }

  lemma LockStep(env: Env, start: World, w: World, revision: u64, slots: Bytes3, cycle: Cycle, k: nat)
    requires k < 3 && AgreedBy(env, start, w, revision, slots, cycle, k) && Funded(start)
    requires start.core.participants[k] != env.VaultAuthority()
    ensures var hash := TableHash(env, start.core, revision, slots, cycle);
      var next := After(env, w, Call(start.core.participants[k], TakeLock(Table(start), revision, hash)));
      AgreedBy(env, start, next, revision, slots, cycle, k + 1)
  {
    var signer, hash := start.core.participants[k], TableHash(env, start.core, revision, slots, cycle);
    TableContext(env, start, w, k);
    HashOnTable(env, w.core, w.er.live);
    FirstSeatsHas(k);
    FullLockSet(w.er.live);
    LockIff(env, w.core, w.er.live, w.now, signer, revision, hash);
    ReachableNext(env, w, Call(signer, TakeLock(Table(start), revision, hash)));
    hide Reachable, LiveContext, LiveFits, TableHash, CoreSeen, LiveSeen, ParticipantIndex, ValidateLockSet, Has;
  }

  /** After the third lock: finalized, committed and handed back, with nothing else changed. */
  ghost predicate HandedBack(env: Env, start: World, w: World, revision: u64, slots: Bytes3, cycle: Cycle) {
    && Reachable(env, w) && w.core == start.core.(status := Active) && w.ledger == start.ledger && w.now == start.now
    && w.liveOwner.ProgramOwned? && w.live.phase == Finalized
    && w.live.revision == revision && w.live.selectedSlots == slots && w.live.cycle == cycle
  }

  lemma FinalizeStep(env: Env, start: World, w: World, revision: u64, slots: Bytes3, cycle: Cycle)
    requires AgreedBy(env, start, w, revision, slots, cycle, 3) && Funded(start)
    requires start.core.participants[0] != env.VaultAuthority()
    ensures var next := After(env, w, Call(start.core.participants[0], Finalize(Table(start))));
      && next.er.Scheduled? && next.er.live.phase == Finalized && next.er.live.revision == revision
      && next.er.live.selectedSlots == slots && next.er.live.cycle == cycle
      && next == w.(er := next.er, events := next.events)
  {
    TableContext(env, start, w, 0);
    FirstSeatsHas(3);
    FullLockSet(w.er.live);
    FinalPhase(w.er.live, env, w);
    hide Reachable, LiveContext, LiveFits, CoreSeen, LiveSeen, ParticipantIndex, ValidateLockSet, Has, FirstSeats;
  }

  /** A scheduled copy is committed and then handed back. */
  lemma HandBack(env: Env, w: World)
    requires w.er.Scheduled?
    ensures var w1 := After(env, w, Commit);
      After(env, w1, Undelegate) == w.(live := w.er.live, liveOwner := ProgramOwned, er := Absent)
  {
  }

  lemma FinalSteps(env: Env, start: World, w: World, revision: u64, slots: Bytes3, cycle: Cycle)
    requires AgreedBy(env, start, w, revision, slots, cycle, 3) && Funded(start)
    requires start.core.participants[0] != env.VaultAuthority()
    ensures var w1 := After(env, w, Call(start.core.participants[0], Finalize(Table(start))));
      HandedBack(env, start, After(env, After(env, w1, Commit), Undelegate), revision, slots, cycle)
  {
    var step := Call(start.core.participants[0], Finalize(Table(start)));
    var w1 := After(env, w, step);
    FinalizeStep(env, start, w, revision, slots, cycle);
    ReachableNext(env, w, step);
    HandBack(env, w1);
    hide Reachable, After, Funded, FirstSeats;
    ReachableNext(env, w1, Commit);
    ReachableNext(env, After(env, w1, Commit), Undelegate);
  }

  /** A delegated copy with a full lock set is waiting for its finalization. */
  lemma FinalPhase(live: RoomLive, env: Env, w: World)
    requires Reachable(env, w) && w.er == Delegated(live) && live.lockMask == SEATS
    ensures live.phase == Finalizing
  {
    ReachableInv(env, w);
    hide LogFits, Custody, Consent, SettlementFits, ProgressFits, ReturnsFit, CoreFits, ProposalFits, SeatFits;
  }

  /** The recipients' accounts of the three chosen assets are open. */
  predicate RecipientsWait(env: Env, core: RoomCore, l: Ledger, slots: Bytes3, cycle: Cycle)
    requires SlotsInRange(slots)
  {
    forall leg :: 0 <= leg < 3 ==>
      var a := DealLeg(env, core, slots, cycle, leg);
      && a.destination in l.accounts && l.accounts[a.destination].mint == a.mint
      && l.accounts[a.destination].owner == core.participants[DestinationsFor(cycle)[leg]]
         && !l.accounts[a.destination].frozen
  }

  lemma LegsWait(env: Env, start: World, w: World, slots: Bytes3, cycle: Cycle)
    requires HandedBack(env, start, w, 1, slots, cycle) && SlotsInRange(slots) && LegIndicesInRange(w.live)
    requires RecipientsWait(env, start.core, start.ledger, slots, cycle)
    ensures LegsCanonical(env, w.core, w.live, DealLegs(env, start.core, slots, cycle))
    ensures RecipientsReady(env, w.core, w.ledger, w.live)
  {
    hide Reachable;
    assert forall leg :: 0 <= leg < 3 ==>
        LegOf(env, w.core, w.live, leg) == DealLeg(env, start.core, slots, cycle, leg);
  }

  lemma SettleOutcome(env: Env, start: World, w: World, slots: Bytes3, cycle: Cycle)
    requires HandedBack(env, start, w, 1, slots, cycle) && Funded(start) && SlotsInRange(slots)
    requires RecipientsWait(env, start.core, start.ledger, slots, cycle)
    ensures var r := Settle(env, w.core, w.live, w.liveOwner, ProgramOwned, w.ledger, w.now,
                            DealLegs(env, start.core, slots, cycle));
      && LegIndicesInRange(w.live) && r.Ok? && r.value.0 == SettledCore(env, w.core, w.live)
      && ThreeMoved(w.ledger, r.value.1, DealLegs(env, start.core, slots, cycle))
  {
    var legs := DealLegs(env, start.core, slots, cycle);
    LiveLegsInRange(env, w);
    LegsWait(env, start, w, slots, cycle);
    ReachableInv(env, w);
    InvParts(env, w);
    hide Reachable, Inv, Conserved, MasksFit, SettlementGuard, Settle, SettleLegs, LegsCanonical, RecipientsReady,
         ThreeMoved, DealLegs, SettledCore;
    ProposedDealPasses(env, w);
    GuardedDealSettles(env, w, ProgramOwned, legs);
    SettleGuarded(env, w.core, w.live, w.liveOwner, ProgramOwned, w.ledger, w.now, legs);
    SettlementMovesThree(env, w, ProgramOwned, legs);
  }

  lemma SettleStep(env: Env, start: World, w: World, slots: Bytes3, cycle: Cycle)
    requires HandedBack(env, start, w, 1, slots, cycle) && Funded(start) && SlotsInRange(slots)
    requires RecipientsWait(env, start.core, start.ledger, slots, cycle)
    requires start.core.participants[0] != env.VaultAuthority()
    ensures var legs := DealLegs(env, start.core, slots, cycle);
      var next := After(env, w, Call(start.core.participants[0], SettleDeal(ProgramOwned, legs)));
      && next.core.status == Settled && next.core.settledRevision == 1 && next.core.selectedMask == MaskOf(slots)
      && ThreeMoved(start.ledger, next.ledger, legs)
  {
    SettleOutcome(env, start, w, slots, cycle);
    SettledRecord(env, w.core, w.live);
    hide Reachable, Settle, ThreeMoved, DealLegs, MaskOf, RecipientsWait, SettledCore, Funded, After;
    SettledAfter(env, w, start.core.participants[0], DealLegs(env, start.core, slots, cycle));
  }

  lemma SettledAfter(env: Env, w: World, signer: Key, legs: Legs)
    requires signer != env.VaultAuthority()
    requires Settle(env, w.core, w.live, w.liveOwner, ProgramOwned, w.ledger, w.now, legs).Ok?
    ensures var r := Settle(env, w.core, w.live, w.liveOwner, ProgramOwned, w.ledger, w.now, legs).value;
      var next := After(env, w, Call(signer, SettleDeal(ProgramOwned, legs)));
      next.core == r.0 && next.ledger == r.1
  {
    hide Settle;
  }

  lemma SettledRecord(env: Env, core: RoomCore, live: RoomLive)
    requires LegIndicesInRange(live)
    ensures var c := SettledCore(env, core, live);
      c.status == Settled && c.settledRevision == live.revision && c.selectedMask == MaskOf(live.selectedSlots)
  {
    hide MarkLegs, MaskOf;
  }

  /** Five steps of the participants put any deal on the table with every seat locked on it. */
  lemma AgreedRun(env: Env, w: World, slots: Bytes3, cycle: Cycle)
    requires Reachable(env, w) && Funded(w) && SlotsInRange(slots)
    ensures |AgreeSteps(env, w, slots, cycle)| == 5
    ensures AgreedBy(env, w, Exec(env, w, AgreeSteps(env, w, slots, cycle)), 1, slots, cycle, 3)
  {
    hide After, Reachable, Funded, AgreedBy, Preservation.Activated, CoreFits, LiveFits, TableHash, Exec;
    var p, hash := w.core.participants, TableHash(env, w.core, 1, slots, cycle);
    FundedParts(env, w);
    ActivateStep(env, w);
    var propose := Call(p[0], MakeProposal(Table(w), 0, slots, cycle));
    var lock0, lock1, lock2 :=
      Call(p[0], TakeLock(Table(w), 1, hash)), Call(p[1], TakeLock(Table(w), 1, hash)),
      Call(p[2], TakeLock(Table(w), 1, hash));
    var w1 := Preservation.Activated(w);
    ProposalStep(env, w, slots, cycle);
    var w2 := After(env, w1, propose);
    LockStep(env, w, w2, 1, slots, cycle, 0);
    var w3 := After(env, w2, lock0);
    LockStep(env, w, w3, 1, slots, cycle, 1);
    var w4 := After(env, w3, lock1);
    LockStep(env, w, w4, 1, slots, cycle, 2);
    LastStep(env, w4, lock2);
    ExecCons(env, w3, lock1, [lock2]);
    ExecCons(env, w2, lock0, [lock1] + [lock2]);
    ExecCons(env, w1, propose, [lock0] + ([lock1] + [lock2]));
    ExecCons(env, w, Call(p[0], Activate), [propose] + ([lock0] + ([lock1] + [lock2])));
  }

  /** From every reachable room that is funded and unexpired, for every choice of slots and either cycle, nine steps
      of the participants and the rollup settle exactly that deal, given open recipient accounts. */
  lemma FundedRoomCanSettle(env: Env, w: World, slots: Bytes3, cycle: Cycle)
    requires Reachable(env, w) && Funded(w) && SlotsInRange(slots)
    requires RecipientsWait(env, w.core, w.ledger, slots, cycle)
    ensures var steps := DealSteps(env, w, slots, cycle);
      var next := Exec(env, w, steps);
      && |steps| == 9
      && next.core.status == Settled && next.core.settledRevision == 1 && next.core.selectedMask == MaskOf(slots)
      && ThreeMoved(w.ledger, next.ledger, DealLegs(env, w.core, slots, cycle))
  {
    hide After, Reachable, Funded, AgreedBy, HandedBack, CoreFits, LiveFits, MaskOf, ThreeMoved, RecipientsWait,
         DealLegs, Exec, AgreeSteps;
    var p := w.core.participants;
    FundedParts(env, w);
    AgreedRun(env, w, slots, cycle);
    var w5 := Exec(env, w, AgreeSteps(env, w, slots, cycle));
    var finalize := Call(p[0], Finalize(Table(w)));
    var settle := Call(p[0], SettleDeal(ProgramOwned, DealLegs(env, w.core, slots, cycle)));
    FinalSteps(env, w, w5, 1, slots, cycle);
    var w6 := After(env, w5, finalize);
    var w7 := After(env, w6, Commit);
    var w8 := After(env, w7, Undelegate);
    SettleStep(env, w, w8, slots, cycle);
    LastStep(env, w8, settle);
    ExecCons(env, w7, Undelegate, [settle]);
    ExecCons(env, w6, Commit, [Undelegate] + [settle]);
    ExecCons(env, w5, finalize, [Commit] + ([Undelegate] + [settle]));
    ExecConcat(env, w, AgreeSteps(env, w, slots, cycle), [finalize] + ([Commit] + ([Undelegate] + [settle])));
  }

  lemma LastStep(env: Env, w: World, step: Step)
    ensures Exec(env, w, [step]) == After(env, w, step)
  {
    hide After;
    assert [step][..0] == [];
  }

  // ----- A room frozen before its first proposal -----

  /** Activate, three locks on the untouched record, finalize, commit, undelegate. */
  function UnproposedSteps(w: World): (steps: seq<Step>)
  {
    var p := w.core.participants;
    [Call(p[0], Activate)]
    + ([Call(p[0], TakeLock(Table(w), 0, ZERO_HASH))]
    + ([Call(p[1], TakeLock(Table(w), 0, ZERO_HASH))]
    + ([Call(p[2], TakeLock(Table(w), 0, ZERO_HASH))]
    + ([Call(p[0], Finalize(Table(w)))] + ([Commit] + [Undelegate])))))
  }

  lemma Untouched(env: Env, w: World)
    requires Reachable(env, w) && Funded(w)
    ensures AgreedBy(env, w, Preservation.Activated(w), 0, [0, 2, 4], Forward, 0)
  {
    FundedParts(env, w);
    ActivateStep(env, w);
    hide Reachable, CoreFits, LocksFit;
  }

  lemma UnproposedRun(env: Env, w: World)
    requires Reachable(env, w) && Funded(w)
    ensures |UnproposedSteps(w)| == 7
    ensures HandedBack(env, w, Exec(env, w, UnproposedSteps(w)), 0, [0, 2, 4], Forward)
  {
    var p := w.core.participants;
    FundedParts(env, w);
    ActivateStep(env, w);
    Untouched(env, w);
    hide After, Reachable, Funded, AgreedBy, HandedBack, Preservation.Activated, CoreFits, LiveFits, Exec;
    var w1 := Preservation.Activated(w);
    var lock0, lock1, lock2 :=
      Call(p[0], TakeLock(Table(w), 0, ZERO_HASH)), Call(p[1], TakeLock(Table(w), 0, ZERO_HASH)),
      Call(p[2], TakeLock(Table(w), 0, ZERO_HASH));
    LockStep(env, w, w1, 0, [0, 2, 4], Forward, 0);
    var w2 := After(env, w1, lock0);
    LockStep(env, w, w2, 0, [0, 2, 4], Forward, 1);
    var w3 := After(env, w2, lock1);
    LockStep(env, w, w3, 0, [0, 2, 4], Forward, 2);
    var w4 := After(env, w3, lock2);
    FinalSteps(env, w, w4, 0, [0, 2, 4], Forward);
    var finalize := Call(p[0], Finalize(Table(w)));
    var w5 := After(env, w4, finalize);
    LastStep(env, After(env, w5, Commit), Undelegate);
    ExecCons(env, w5, Commit, [Undelegate]);
    ExecCons(env, w4, finalize, [Commit] + [Undelegate]);
    var r3 := [finalize] + ([Commit] + [Undelegate]);
    ExecCons(env, w3, lock2, r3);
    ExecCons(env, w2, lock1, [lock2] + r3);
    ExecCons(env, w1, lock0, [lock1] + ([lock2] + r3));
    ExecCons(env, w, Call(p[0], Activate), [lock0] + ([lock1] + ([lock2] + r3)));
  }

  lemma UnproposedRefused(env: Env, start: World, w: World, legs: Legs)
    requires HandedBack(env, start, w, 0, [0, 2, 4], Forward) && Funded(start)
    requires UnproposedHash(env, start.core) != ZERO_HASH
    ensures Settle(env, w.core, w.live, w.liveOwner, ProgramOwned, w.ledger, w.now, legs) == Err(AllocationHashMismatch)
    ensures Current(w).lockMask == SEATS && Current(w).revision == 0
  {
    ReachableInv(env, w);
    FullLockSet(w.live);
    FundedSelection(w.core, w.live.selectedSlots);
    hide Reachable, LogFits, Custody, Consent, SettlementFits, ProgressFits, ReturnsFit, AssetFits, DistinctMints,
         SettleLegs, SeatFits, ValidateLockSet, ValidateSelection;
  }

  /** From every funded, unexpired room seven steps, three of them locks on the untouched revision zero with the zero
      hash, lead to a finalized record on base that settlement refuses for its hash; and in no later state is the room
      settled. */
  lemma UnproposedRoomFreezes(env: Env, w: World, legs: Legs, later: seq<Step>)
    requires Reachable(env, w) && Funded(w) && UnproposedHash(env, w.core) != ZERO_HASH
    ensures var next := Exec(env, w, UnproposedSteps(w));
      && next.core.status == Active && next.live.phase == Finalized && next.live.revision == 0
         && next.liveOwner.ProgramOwned?
      && Settle(env, next.core, next.live, next.liveOwner, ProgramOwned, next.ledger, next.now,
                legs) == Err(AllocationHashMismatch)
      && !WasSettled(Exec(env, next, later).core)
  {
    UnproposedRun(env, w);
    var next := Exec(env, w, UnproposedSteps(w));
    UnproposedRefused(env, w, next, legs);
    SameUnproposed(env, w.core, next.core);
    hide Reachable, Funded, Exec, Settle, WasSettled, UnproposedHash;
    UnproposedNeverSettles(env, next, later);
  }

  // ----- Funding a fresh room -----

  type Six = s: seq<Key> | |s| == 6
    witness [DEFAULT_KEY, DEFAULT_KEY, DEFAULT_KEY, DEFAULT_KEY, DEFAULT_KEY, DEFAULT_KEY]

  function SourceOf(env: Env, participants: Trio, mints: Six, slot: nat): Key
    requires slot < 6
  {
    env.ata(participants[slot / 2], mints[slot])
  }

  /** The owner of the slot holds an eligible asset, and no vault is open for it yet. */
  predicate Offered(env: Env, participants: Trio, l: Ledger, mints: Six, slot: nat)
    requires slot < 6
  {
    var source := SourceOf(env, participants, mints, slot);
    && mints[slot] in l.mints && MintEligible(l.mints[mints[slot]])
    && source in l.accounts && l.accounts[source] == TokenAccount(mints[slot], participants[slot / 2], 1, false)
    && env.VaultOf(mints[slot]) !in l.accounts
  }

  /** Six different mints with twelve different accounts. */
  ghost predicate SixOffers(env: Env, participants: Trio, mints: Six) {
    && (forall i :: 0 <= i < 3 ==> participants[i] != env.VaultAuthority())
    && forall s, t :: 0 <= s < 6 && 0 <= t < 6 && s != t ==>
         && mints[s] != mints[t] && env.VaultOf(mints[s]) != env.VaultOf(mints[t])
         && SourceOf(env, participants, mints, s) != SourceOf(env, participants, mints, t)
         && env.VaultOf(mints[s]) != SourceOf(env, participants, mints, t)
  }

  function DepositOf(env: Env, participants: Trio, mints: Six, slot: nat): Step
    requires slot < 6
  {
    Call(participants[slot / 2],
         Deposit(slot, mints[slot], SourceOf(env, participants, mints, slot), env.VaultOf(mints[slot])))
  }

  function FundingSteps(env: Env, participants: Trio, mints: Six, n: nat): (steps: seq<Step>)
    requires n <= 6
    ensures |steps| == n
  {
    if n == 0 then [] else FundingSteps(env, participants, mints, n - 1) + [DepositOf(env, participants, mints, n - 1)]
  }

  /** The first `n` slots are deposited, and the others still on offer. */
  ghost predicate FilledTo(env: Env, start: World, w: World, mints: Six, n: nat)
    requires n <= 6
  {
    && w.core.status == Funding && w.core.participants == start.core.participants
       && w.core.expiresAt == start.core.expiresAt
    && w.now == start.now
    && (forall s :: 0 <= s < 6 ==> (Has(w.core.depositedMask, s) <==> s < n))
    && (forall s :: 0 <= s < n ==> w.core.assets[s].mint == mints[s])
    && (forall s :: n <= s < 6 ==>
        w.core.assets[s] == EMPTY_ASSET && Offered(env, w.core.participants, w.ledger, mints, s))
  }

  lemma OfferAccepted(env: Env, core: RoomCore, l: Ledger, now: i64, mints: Six, slot: nat)
    requires slot < 6 && Offered(env, core.participants, l, mints, slot)
    requires core.participants[slot / 2] != env.VaultAuthority()
    requires core.status == Funding && !Has(core.depositedMask, slot) && !MintTaken(core, mints[slot])
    ensures var owner, source, vault := core.participants[slot / 2], SourceOf(env, core.participants, mints, slot),
      env.VaultOf(mints[slot]);
      var r := DepositAsset(env, core, l, now, owner, slot, mints[slot], source, vault);
      && r.Ok?
      && r.value.0 == core.(assets := core.assets[slot := DepositRecord(env, owner, mints[slot], source, vault, now)],
                            depositedMask := With(core.depositedMask, slot))
      && r.value.1 == l.(accounts := l.accounts[vault := TokenAccount(mints[slot], env.VaultAuthority(), 1, false)]
                                               [source := TokenAccount(mints[slot], owner, 0, false)])
  {
    hide Has, With, MintTaken;
    var vault, source := env.VaultOf(mints[slot]), SourceOf(env, core.participants, mints, slot);
    var ready := l.accounts[vault := TokenAccount(mints[slot], env.VaultAuthority(), 0, false)];
    assert ready[source := TokenAccount(mints[slot], core.participants[slot / 2], 0, false)]
                  [vault := TokenAccount(mints[slot], env.VaultAuthority(), 1, false)]
        == l.accounts[vault := TokenAccount(mints[slot], env.VaultAuthority(), 1, false)]
                     [source := TokenAccount(mints[slot], core.participants[slot / 2], 0, false)];
  }

  lemma NotYetTaken(env: Env, start: World, w: World, mints: Six, n: nat)
    requires n < 6 && FilledTo(env, start, w, mints, n) && SixOffers(env, start.core.participants, mints)
    ensures !MintTaken(w.core, mints[n])
  {
    hide Offered, Has;
    assert EMPTY_ASSET.flags & DEPOSITED == 0;
    assert forall s :: 0 <= s < n ==> mints[s] != mints[n] by {
      assert forall s :: 0 <= s < n ==>
          SourceOf(env, start.core.participants, mints, s) != SourceOf(env, start.core.participants, mints, n);
    }
  }

  /** What an accepted offer does to the ledger. */
  function Deposited(env: Env, participants: Trio, l: Ledger, mints: Six, slot: nat): Ledger
    requires slot < 6
  {
    l.(accounts := l.accounts[env.VaultOf(mints[slot]) := TokenAccount(mints[slot], env.VaultAuthority(), 1, false)]
                             [SourceOf(env, participants, mints,
                                       slot) := TokenAccount(mints[slot], participants[slot / 2], 0, false)])
  }

  lemma OtherOfferStays(env: Env, participants: Trio, l: Ledger, mints: Six, slot: nat, other: nat)
    requires slot < 6 && other < 6 && slot != other && SixOffers(env, participants, mints)
    requires Offered(env, participants, l, mints, other)
    ensures Offered(env, participants, Deposited(env, participants, l, mints, slot), mints, other)
  {
  }

  lemma DepositAfter(env: Env, w: World, mints: Six, n: nat)
    requires n < 6 && Offered(env, w.core.participants, w.ledger, mints, n)
    requires w.core.participants[n / 2] != env.VaultAuthority()
    requires w.core.status == Funding && !Has(w.core.depositedMask, n) && !MintTaken(w.core, mints[n])
    ensures var next := After(env, w, DepositOf(env, w.core.participants, mints, n));
      && next.core.status == Funding && next.core.participants == w.core.participants
         && next.core.expiresAt == w.core.expiresAt
      && next.now == w.now && next.core.depositedMask == With(w.core.depositedMask, n)
      && next.core.assets[n].mint == mints[n]
         && (forall s :: 0 <= s < 6 && s != n ==> next.core.assets[s] == w.core.assets[s])
      && next.ledger == Deposited(env, w.core.participants, w.ledger, mints, n)
  {
    OfferAccepted(env, w.core, w.ledger, w.now, mints, n);
    hide DepositAsset, MintTaken, Has, With, Offered;
  }

  lemma FillStep(env: Env, start: World, w: World, mints: Six, n: nat)
    requires n < 6 && FilledTo(env, start, w, mints, n) && SixOffers(env, start.core.participants, mints)
    ensures FilledTo(env, start, After(env, w, DepositOf(env, start.core.participants, mints, n)), mints, n + 1)
  {
    NotYetTaken(env, start, w, mints, n);
    assert w.core.participants[n / 2] != env.VaultAuthority();
    hide MintTaken, Has, With, After, SixOffers, Offered, Deposited, DepositOf;
    DepositAfter(env, w, mints, n);
    forall s | 0 <= s < 6
      ensures Has(With(w.core.depositedMask, n), s) <==> s < n + 1
    {
      WithHas(w.core.depositedMask, n, s);
    }
    forall s | n < s < 6
      ensures Offered(env, w.core.participants, Deposited(env, w.core.participants, w.ledger, mints, n), mints, s)
    {
      OtherOfferStays(env, w.core.participants, w.ledger, mints, n, s);
    }
  }

  lemma {:induction false} FillAll(env: Env, w: World, mints: Six, n: nat)
    requires n <= 6 && FilledTo(env, w, w, mints, 0) && SixOffers(env, w.core.participants, mints)
    ensures FilledTo(env, w, Exec(env, w, FundingSteps(env, w.core.participants, mints, n)), mints, n)
  {
    hide FilledTo, SixOffers, After;
    if n > 0 {
      FillAll(env, w, mints, n - 1);
      var steps := FundingSteps(env, w.core.participants, mints, n);
      assert steps[..|steps| - 1] == FundingSteps(env, w.core.participants, mints, n - 1);
      FillStep(env, w, Exec(env, w, FundingSteps(env, w.core.participants, mints, n - 1)), mints, n - 1);
    }
  }

  lemma EmptyRoom(env: Env, w: World, mints: Six)
    requires Reachable(env, w) && w.core.status == Funding && w.core.depositedMask == 0
    requires forall s :: 0 <= s < 6 ==> Offered(env, w.core.participants, w.ledger, mints, s)
    ensures FilledTo(env, w, w, mints, 0)
  {
    ReachableInv(env, w);
    forall s | 0 <= s < 6
      ensures w.core.assets[s] == EMPTY_ASSET && !Has(w.core.depositedMask, s)
    {
      assert AssetFits(env, w.core, s);
      SlotsHas(s);
    }
    hide Inv, Reachable, Offered;
  }

  /** From every empty room in funding, six deposits by the owners of six eligible assets fund it; if it has not
      expired by then, `FundedRoomCanSettle` applies. */
  lemma FreshRoomCanBeFunded(env: Env, w: World, mints: Six)
    requires Reachable(env, w) && w.core.status == Funding && w.core.depositedMask == 0 && w.now < w.core.expiresAt
    requires SixOffers(env, w.core.participants, mints)
    requires forall s :: 0 <= s < 6 ==> Offered(env, w.core.participants, w.ledger, mints, s)
    ensures var next := Exec(env, w, FundingSteps(env, w.core.participants, mints, 6));
      && Reachable(env, next) && Funded(next) && (forall s :: 0 <= s < 6 ==> next.core.assets[s].mint == mints[s])
  {
    hide Inv, Reachable, SixOffers, Offered, Exec;
    EmptyRoom(env, w, mints);
    FillAll(env, w, mints, 6);
    var steps := FundingSteps(env, w.core.participants, mints, 6);
    ReachableExec(env, w, steps);
    var next := Exec(env, w, steps);
    ReachableInv(env, next);
    Agreement.InvParts(env, next);
    FullMask(next.core);
  }

  lemma FullMask(core: RoomCore)
    requires MasksFit(core) && forall s :: 0 <= s < 6 ==> Has(core.depositedMask, s)
    ensures core.depositedMask == SLOTS
  {
    forall i: nat | i < 8
      ensures Has(core.depositedMask, i) <==> Has(SLOTS, i)
    {
      WithinHas(core.depositedMask, SLOTS, i);
      SlotsHas(i);
    }
    MaskExtensional(core.depositedMask, SLOTS);
  }
}
