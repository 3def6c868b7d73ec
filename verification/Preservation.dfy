/** Every step of every run keeps the invariant. */
module Preservation {
  import opened Wire
  import opened Masks
  import opened Records
  import opened Tokens
  import opened Allocation
  import opened Rules
  import opened Machine
  import opened History
  import opened Invariant

  // ----- Pieces that most steps leave alone -----

  lemma LogGrows(env: Env, w: World, core: RoomCore, event: Event)
    requires LogFits(env, w) && CoreFits(env, core) && SameTerms(core, w.core)
    ensures LogFits(env, PutCore(w, core, event))
  {
    var w' := PutCore(w, core, event);
    assert w'.coreLog[|w.coreLog|] == core;
  }

  lemma LogIsItsOwn(env: Env, w: World, w': World)
    requires LogFits(env, w) && w'.core == w.core && w'.coreLog == w.coreLog
    ensures LogFits(env, w')
  {
  }

  lemma QuietProposals(events: seq<Event>, event: Event, live: RoomLive, next: RoomLive)
    requires OneProposalEach(events, live) && !event.ProposalChanged?
    requires next.revision == live.revision && next.selectedSlots == live.selectedSlots && next.cycle == live.cycle
    requires next.allocationHash == live.allocationHash
    ensures OneProposalEach(events + [event], next)
  {
    HistoryAppend(events, event);
    forall r: int
      ensures Proposals(events + [event], r) == Proposals(events, r)
    {
    }
  }

  lemma QuietConsent(events: seq<Event>, event: Event, live: RoomLive)
    requires Consent(events, live) && !event.ProposalChanged? && !event.LockChanged?
    ensures Consent(events + [event], live)
  {
    QuietProposals(events, event, live, live);
    HistoryAppend(events, event);
    forall r: int, seat: nat
      ensures LockChanges(events + [event], r, seat) == LockChanges(events, r, seat)
    {
    }
  }

  lemma TallyEvents(events: seq<Event>, event: Event)
    ensures Tally(events + [event], IsOutcome) == Tally(events, IsOutcome) + (if IsOutcome(event) then 1 else 0)
    ensures Tally(events + [event], IsDelegation) == Tally(events, IsDelegation)
      + (if IsDelegation(event) then 1 else 0)
    ensures Tally(events + [event], IsCoreWrite) == Tally(events, IsCoreWrite) + (if IsCoreWrite(event) then 1 else 0)
  {
    TallyAppend(events, event, IsOutcome);
    TallyAppend(events, event, IsDelegation);
    TallyAppend(events, event, IsCoreWrite);
  }

  lemma QuietReturns(core: RoomCore, core': RoomCore, events: seq<Event>, event: Event)
    requires ReturnsFit(core, events) && !event.AssetReturned?
    requires core'.returnedMask == core.returnedMask
    requires forall s :: 0 <= s < 6 && Has(core.returnedMask, s) ==>
      core'.assets[s].mint == core.assets[s].mint && core'.assets[s].originalAta == core.assets[s].originalAta
    ensures ReturnsFit(core', events + [event])
  {
  }

  lemma SameTermsLive(env: Env, core: RoomCore, core': RoomCore, live: RoomLive)
    requires LiveFits(env, core, live) && SameTerms(core', core)
    ensures LiveFits(env, core', live)
  {
    hide LocksFit, ProposalFits;
  }

  /** A step that rewrites the base core, assembled from what it does to each part. */
  lemma CoreStepInv(env: Env, w: World, core: RoomCore, ledger: Ledger, event: Event)
    requires Inv(env, w)
    requires CoreFits(env, core) && SameTerms(core, w.core) && Custody(env, core, ledger)
    requires ReturnsFit(core, w.events + [event]) && SettlementFits(env, core, Current(w))
    requires IsCoreWrite(event) && !IsDelegation(event)
    requires Undecided(w.core) || !Undecided(core)
    requires IsOutcome(event) <==> Undecided(w.core) && !Undecided(core)
    requires 0 <= Rank(core) < Rank(w.core)
    requires CopiesFit(w.(core := core))
    ensures Inv(env, PutCore(w, core, event).(ledger := ledger))
  {
    var w' := PutCore(w, core, event).(ledger := ledger);
    hide CoreFits, Custody, LiveFits, Consent, SettlementFits, ReturnsFit, Rank;
    LogGrows(env, w, core, event);
    QuietConsent(w.events, event, Current(w));
    TallyEvents(w.events, event);
    SameTermsLive(env, w.core, core, w.live);
    SameTermsLive(env, w.core, core, Current(w));
    assert CopiesFit(w') by { hide LogFits; }
    assert ProgressFits(w') by { hide LogFits; }
    assert LogFits(env, w');
  }

  // ----- Creation -----

  lemma InitialInv(env: Env, w: World)
    requires Initial(env, w)
    ensures Inv(env, w)
  {
    assert CoreFits(env, w.core);
    assert w.coreLog == [w.core];
    assert LiveFits(env, w.core, w.live);
    assert Consent(w.events, w.live);
  }

  // ----- Deposits -----

  lemma DepositAssetFits(env: Env, core: RoomCore, slot: nat, record: AssetRecord, s: nat)
    requires slot < 6 && s < 6 && AssetFits(env, core, s) && core.selectedMask == 0 && core.returnedMask == 0
    requires record.flags == DEPOSITED && record.vault == env.VaultOf(record.mint) && record.finalAta == DEFAULT_KEY
    requires record.originalOwner == core.participants[slot / 2] && record.originalOwner != env.VaultAuthority()
    requires record.originalAta == env.ata(record.originalOwner, record.mint)
    ensures AssetFits(env, core.(assets := core.assets[slot := record],
                                 depositedMask := With(core.depositedMask, slot)), s)
  {
    WithHas(core.depositedMask, slot, s);
    hide With;
  }

  lemma DepositDistinct(env: Env, core: RoomCore, slot: nat, record: AssetRecord)
    requires slot < 6 && CoreFits(env, core) && !MintTaken(core, record.mint)
    ensures DistinctMints(core.(assets := core.assets[slot := record], depositedMask := With(core.depositedMask, slot)))
  {
    var core' := core.(assets := core.assets[slot := record], depositedMask := With(core.depositedMask, slot));
    forall s | 0 <= s < 6
      ensures Has(core'.depositedMask, s) <==> Has(core.depositedMask, s) || s == slot
      ensures Has(core.depositedMask, s) ==> core.assets[s].flags & DEPOSITED != 0
    {
      WithHas(core.depositedMask, slot, s);
      assert AssetFits(env, core, s);
    }
    hide Has, With, AssetFits, MasksFit;
  }

  lemma DepositMasks(core: RoomCore, slot: nat, assets: Assets)
    requires slot < 6 && MasksFit(core) && core.status == Funding && !Has(core.depositedMask, slot)
    ensures var core' := core.(assets := assets, depositedMask := With(core.depositedMask, slot));
      MasksFit(core') && Rank(core') == Rank(core) - 1
  {
    CountWith(core.depositedMask, slot);
    hide Count;
  }

  lemma DepositCore(env: Env, w: World, signer: Key, slot: byte, mint: Key, source: Key, vault: Key)
    requires CoreFits(env, w.core) && signer != env.VaultAuthority()
    ensures var r := DepositAsset(env, w.core, w.ledger, w.now, signer, slot, mint, source, vault);
      r.Ok? ==> slot < 6 && CoreFits(env, r.value.0) && SameTerms(r.value.0, w.core) && w.core.status == Funding
                && r.value.0.status == Funding && Rank(r.value.0) == Rank(w.core) - 1
  {
    var r := DepositAsset(env, w.core, w.ledger, w.now, signer, slot, mint, source, vault);
    if r.Ok? {
      var record := DepositRecord(env, signer, mint, source, vault, w.now);
      var core' := w.core.(assets := w.core.assets[slot as int := record],
                           depositedMask := With(w.core.depositedMask, slot));
      assert r.value.0 == core' && !MintTaken(w.core, mint) && w.core.selectedMask == 0 && w.core.returnedMask == 0;
      hide DepositAsset, Has, With, Rank, OpenAta, TransferOne;
      DepositMasks(w.core, slot, core'.assets);
      DepositDistinct(env, w.core, slot, record);
      hide MasksFit, DistinctMints;
      forall s | 0 <= s < 6
        ensures AssetFits(env, core', s)
      {
        DepositAssetFits(env, w.core, slot, record, s);
      }
    }
  }

  /** Opening an associated account disturbs no other account and keeps the books. */
  lemma OpenAtaFrame(l: Ledger, account: Key, mint: Key, owner: Key)
    requires Conserved(l)
    ensures var r := OpenAta(l, account, mint, owner);
      r.Ok? ==>
        && Conserved(r.value) && r.value.mints == l.mints
        && account in r.value.accounts && r.value.accounts[account].mint == mint
           && r.value.accounts[account].owner == owner
        && (forall k :: k in l.accounts ==> k in r.value.accounts && r.value.accounts[k] == l.accounts[k])
        && (account !in l.accounts ==> r.value.accounts[account] == TokenAccount(mint, owner, 0, false))
  {
    if account !in l.accounts && mint in l.mints {
      NewAccountConserves(l, account, TokenAccount(mint, owner, 0, false));
    }
  }

  /** What one transferred token does to the accounts. */
  lemma TransferFrame(l: Ledger, authority: Key, from: Key, mint: Key, to: Key)
    requires Conserved(l)
    ensures var r := TransferOne(l, authority, from, mint, to);
      r.Ok? ==>
        && Conserved(r.value) && r.value.mints == l.mints
        && from in l.accounts && to in l.accounts && r.value.accounts.Keys == l.accounts.Keys
        && l.accounts[from].mint == mint && l.accounts[to].mint == mint && !l.accounts[from].frozen
           && !l.accounts[to].frozen
        && l.accounts[from].owner == authority
        && (forall k :: k in l.accounts && k != from && k != to ==> r.value.accounts[k] == l.accounts[k])
        && (from != to ==>
              && r.value.accounts[from] == l.accounts[from].(amount := l.accounts[from].amount - 1)
              && r.value.accounts[to] == l.accounts[to].(amount := l.accounts[to].amount + 1))
  {
    hide Conserved;
    TransferConserves(l, authority, from, mint, to, 1, 0);
  }

  /** Only accounts of `mint` change. */
  ghost predicate OnlyMintMoves(l: Ledger, l': Ledger, mint: Key) {
    l'.mints == l.mints
    && forall k :: k in l.accounts && l.accounts[k].mint != mint ==> k in l'.accounts && l'.accounts[k] == l.accounts[k]
  }

  lemma OtherSlotKept(env: Env, core: RoomCore, core': RoomCore, l: Ledger, l': Ledger, mint: Key, slot: nat)
    requires slot < 6 && SlotInCustody(env, core, l, slot) && OnlyMintMoves(l, l', mint)
    requires core'.assets[slot] == core.assets[slot]
    requires Has(core'.depositedMask, slot) == Has(core.depositedMask, slot)
    requires Held(core', slot) ==> Held(core, slot)
    requires Has(core.depositedMask, slot) ==> core.assets[slot].mint != mint
    ensures SlotInCustody(env, core', l', slot)
  {
  }

  lemma DepositMoves(env: Env, l: Ledger, signer: Key, mint: Key, source: Key, vault: Key)
    requires Conserved(l) && signer != env.VaultAuthority()
    requires OpenAta(l, vault, mint, env.VaultAuthority()).Ok?
    requires source in l.accounts && l.accounts[source].owner == signer
    ensures var ready := OpenAta(l, vault, mint, env.VaultAuthority()).value;
      var r := TransferOne(ready, signer, source, mint, vault);
      ready.accounts[vault].amount == 0 && r.Ok? ==>
        && Conserved(r.value) && OnlyMintMoves(l, r.value, mint)
        && vault in r.value.accounts && r.value.accounts[vault] == TokenAccount(mint, env.VaultAuthority(), 1, false)
  {
    hide Conserved;
    OpenAtaFrame(l, vault, mint, env.VaultAuthority());
    var ready := OpenAta(l, vault, mint, env.VaultAuthority()).value;
    TransferFrame(ready, signer, source, mint, vault);
    assert source != vault;
  }

  lemma DepositLedger(env: Env, core: RoomCore, l: Ledger, now: i64, signer: Key, slot: byte, mint: Key, source: Key,
                      vault: Key)
    requires Conserved(l) && signer != env.VaultAuthority()
    ensures var r := DepositAsset(env, core, l, now, signer, slot, mint, source, vault);
      r.Ok? ==>
        && Conserved(r.value.1) && OnlyMintMoves(l, r.value.1, mint)
        && mint in l.mints && MintEligible(l.mints[mint])
        && vault in r.value.1.accounts
           && r.value.1.accounts[vault] == TokenAccount(mint, env.VaultAuthority(), 1, false)
  {
    hide Conserved, OnlyMintMoves;
    if DepositAsset(env, core, l, now, signer, slot, mint, source, vault).Ok? {
      DepositMoves(env, l, signer, mint, source, vault);
    }
  }

  lemma NewSlotKept(env: Env, core: RoomCore, l: Ledger, slot: nat, a: AssetRecord)
    requires slot < 6 && core.assets[slot] == a && a.mint in l.mints && MintEligible(l.mints[a.mint])
      && VaultHolds(env, a, l)
    ensures SlotInCustody(env, core, l, slot)
  {
    hide Held, Has, VaultHolds;
  }

  lemma DepositSlotKept(env: Env, core: RoomCore, core': RoomCore, l: Ledger, l': Ledger, slot: nat, s: nat)
    requires slot < 6 && s < 6 && s != slot && AssetFits(env, core, s) && SlotInCustody(env, core, l, s)
    requires core' == core.(assets := core.assets[slot := core'.assets[slot]],
                            depositedMask := With(core.depositedMask, slot))
    requires OnlyMintMoves(l, l', core'.assets[slot].mint) && !MintTaken(core, core'.assets[slot].mint)
    ensures SlotInCustody(env, core', l', s)
  {
    WithHas(core.depositedMask, slot, s);
    hide With, OnlyMintMoves, SlotInCustody;
    OtherSlotKept(env, core, core', l, l', core'.assets[slot].mint, s);
  }

  lemma DepositOutcome(env: Env, core: RoomCore, l: Ledger, now: i64, signer: Key, slot: byte, mint: Key, source: Key,
                       vault: Key)
    ensures var r := DepositAsset(env, core, l, now, signer, slot, mint, source, vault);
      r.Ok? ==> slot < 6 && !MintTaken(core, mint)
                && r.value.0 == core.(assets := core.assets[slot as int := DepositRecord(env, signer, mint, source,
                                                                                         vault, now)],
                                      depositedMask := With(core.depositedMask, slot))
  {
    hide Has, With, MintTaken, OpenAta, TransferOne;
  }

  lemma DepositCustody(env: Env, w: World, signer: Key, slot: byte, mint: Key, source: Key, vault: Key)
    requires CoreFits(env, w.core) && Custody(env, w.core, w.ledger) && signer != env.VaultAuthority()
    ensures var r := DepositAsset(env, w.core, w.ledger, w.now, signer, slot, mint, source, vault);
      r.Ok? ==> Custody(env, r.value.0, r.value.1)
  {
    var r := DepositAsset(env, w.core, w.ledger, w.now, signer, slot, mint, source, vault);
    if r.Ok? {
      DepositLedger(env, w.core, w.ledger, w.now, signer, slot, mint, source, vault);
      DepositOutcome(env, w.core, w.ledger, w.now, signer, slot, mint, source, vault);
      hide DepositAsset, MintTaken, With, Has, Conserved, OnlyMintMoves, SlotInCustody, MasksFit, DistinctMints,
           AssetFits, MintEligible;
      var core', l' := r.value.0, r.value.1;
      NewSlotKept(env, core', l', slot, DepositRecord(env, signer, mint, source, vault, w.now));
      forall s | 0 <= s < 6 && s != slot
        ensures SlotInCustody(env, core', l', s)
      {
        DepositSlotKept(env, w.core, core', w.ledger, l', slot, s);
      }
    }
  }

  lemma DepositInv(env: Env, w: World, signer: Key, slot: byte, mint: Key, source: Key, vault: Key)
    requires Inv(env, w) && signer != env.VaultAuthority()
    ensures var r := Perform(env, w, signer, Deposit(slot, mint, source, vault)); r.Ok? ==> Inv(env, r.value)
  {
    var r := DepositAsset(env, w.core, w.ledger, w.now, signer, slot, mint, source, vault);
    if r.Ok? {
      var event := AssetDeposited(slot, mint, vault);
      DepositCore(env, w, signer, slot, mint, source, vault);
      DepositCustody(env, w, signer, slot, mint, source, vault);
      assert w.core.returnedMask == 0 && r.value.0.returnedMask == 0;
      hide CoreFits, LogFits, Custody, LiveFits, Consent, ProgressFits, Rank;
      QuietReturns(w.core, r.value.0, w.events, event);
      CoreStepInv(env, w, r.value.0, r.value.1, event);
    }
  }

  // ----- Activation and cancellation -----

  lemma ActivateFits(env: Env, core: RoomCore, l: Ledger)
    requires CoreFits(env, core) && Custody(env, core, l) && core.status == Funding && core.depositedMask == SLOTS
    ensures var core' := core.(status := Active);
      CoreFits(env, core') && Custody(env, core', l) && SameTerms(core', core)
  {
    var core' := core.(status := Active);
    forall s | 0 <= s < 6
      ensures AssetFits(env, core', s)
      ensures SlotInCustody(env, core', l, s)
    {
      assert AssetFits(env, core, s) && SlotInCustody(env, core, l, s);
    }
  }

  function Activated(w: World): World {
    PutCore(w, w.core.(status := Active), LiveDelegated).(liveOwner := DelegationOwned, er := Delegated(w.live))
  }

  lemma ActivatedParts(w: World)
    requires CopiesFit(w) && ProgressFits(w) && w.core.status == Funding && w.core.depositedMask == SLOTS
    ensures CopiesFit(Activated(w)) && ProgressFits(Activated(w))
  {
    TallyEvents(w.events, LiveDelegated);
  }

  lemma ActivatedInv(env: Env, w: World)
    requires Inv(env, w) && w.core.status == Funding && w.core.depositedMask == SLOTS && w.liveOwner.ProgramOwned?
    ensures Inv(env, Activated(w))
  {
    var core := w.core.(status := Active);
    ActivateFits(env, w.core, w.ledger);
    ActivatedParts(w);
    assert w.er.Absent?;
    hide CoreFits, Custody, LiveFits, Consent, ReturnsFit, LogFits, CopiesFit, ProgressFits;
    LogGrows(env, w, core, LiveDelegated);
    LogIsItsOwn(env, PutCore(w, core, LiveDelegated), Activated(w));
    QuietConsent(w.events, LiveDelegated, Current(w));
    QuietReturns(w.core, core, w.events, LiveDelegated);
    SameTermsLive(env, w.core, core, w.live);
    assert SettlementFits(env, core, w.live);
  }

  lemma ActivateInv(env: Env, w: World, signer: Key)
    requires Inv(env, w)
    ensures var r := Perform(env, w, signer, Activate); r.Ok? ==> Inv(env, r.value)
  {
    hide Inv;
    if Perform(env, w, signer, Activate).Ok? {
      assert Perform(env, w, signer, Activate) == Ok(Activated(w));
      ActivatedInv(env, w);
    }
  }

  lemma CancelFits(env: Env, core: RoomCore, l: Ledger)
    requires CoreFits(env, core) && Custody(env, core, l) && CancelCore(core).Ok?
    ensures var core' := CancelCore(core).value;
      && CoreFits(env, core') && SameTerms(core', core) && Custody(env, core', l)
      && 0 <= Rank(core') < Rank(core)
  {
    var core' := CancelCore(core).value;
    hide Has, Count, FlagsFor, FixedPolicy, VaultHolds;
    forall s | 0 <= s < 6
      ensures AssetFits(env, core', s)
      ensures SlotInCustody(env, core', l, s)
    {
      assert AssetFits(env, core, s) && SlotInCustody(env, core, l, s);
    }
  }

  lemma CancelInv(env: Env, w: World, core: RoomCore, event: Event)
    requires Inv(env, w) && CancelCore(w.core) == Ok(core) && event.RoomCancelled?
    ensures Inv(env, PutCore(w, core, event))
  {
    hide CoreFits, LogFits, Custody, LiveFits, Consent, ReturnsFit, ProgressFits, Rank;
    CancelFits(env, w.core, w.ledger);
    QuietReturns(w.core, core, w.events, event);
    CoreStepInv(env, w, core, w.ledger, event);
    assert PutCore(w, core, event) == PutCore(w, core, event).(ledger := w.ledger);
  }

  // ----- Negotiation -----

  /** A core snapshot that passes the guard of a negotiation step is a fully funded core with the room's own terms. */
  lemma SeenCore(env: Env, w: World, venue: Venue)
    requires LogFits(env, w) && CoreFits(env, w.core)
    ensures var r := CoreSeen(w, venue);
      r.Ok? ==> SameTerms(r.value, w.core) && CoreFits(env, r.value)
                && (r.value.status == Active ==> r.value.depositedMask == SLOTS)
  {
  }

  /** The base copy never passes the guards of a negotiation step: it is delegated away, not yet active, or final. */
  lemma BaseCopyIsClosed(env: Env, w: World, now: i64, actor: Key)
    requires CopiesFit(w) && LocksFit(w.live) && w.liveOwner.ProgramOwned?
    ensures LiveContext(env, w.core, w.live, now, actor).Pass? ==> w.live.phase == Finalized
  {
  }

  lemma ProposeLive(env: Env, core: RoomCore, live: RoomLive, now: i64, actor: Key, revision: u64, slots: Bytes3,
                    cycle: Cycle)
    requires LiveFits(env, core, live)
    ensures var r := Propose(env, core, live, now, actor, revision, slots, cycle);
      r.Ok? ==> LiveFits(env, core, r.value) && r.value.revision == live.revision + 1 && r.value.phase == Negotiating
                && r.value.lockMask == 0
  {
  }

  lemma LockLive(env: Env, core: RoomCore, live: RoomLive, now: i64, actor: Key, revision: u64, hash: Hash)
    requires LiveFits(env, core, live)
    ensures var r := Lock(env, core, live, now, actor, revision, hash);
      r.Ok? ==> LiveFits(env, core, r.value) && r.value.phase != Finalized
                && r.value.lockMask == With(live.lockMask, Seat(core.participants, actor))
                && Seat(core.participants, actor) < 3
  {
    var r := Lock(env, core, live, now, actor, revision, hash);
    if r.Ok? {
      var index := Seat(core.participants, actor);
      WithHas(live.lockMask, index, 0);
      WithHas(live.lockMask, index, 1);
      WithHas(live.lockMask, index, 2);
    }
  }

  lemma RevokeLive(env: Env, core: RoomCore, live: RoomLive, now: i64, actor: Key, revision: u64, hash: Hash)
    requires LiveFits(env, core, live)
    ensures var r := RevokeLock(env, core, live, now, actor, revision, hash);
      r.Ok? ==> LiveFits(env, core, r.value) && r.value.phase != Finalized
                && r.value.lockMask == Without(live.lockMask, Seat(core.participants, actor))
                && Seat(core.participants, actor) < 3
  {
    var r := RevokeLock(env, core, live, now, actor, revision, hash);
    if r.Ok? {
      var index := Seat(core.participants, actor);
      WithoutHas(live.lockMask, index, 0);
      WithoutHas(live.lockMask, index, 1);
      WithoutHas(live.lockMask, index, 2);
    }
  }

  lemma FinalizedLive(env: Env, core: RoomCore, live: RoomLive, now: i64, actor: Key)
    requires LiveFits(env, core, live)
    ensures var r := FinalizeLive(env, core, live, now, actor);
      r.Ok? ==>
        && live.phase == Finalizing && LiveFits(env, core, r.value)
        && r.value
           == live.(phase := Finalized, lastActor := actor, lastAction := FinalizedAction, updatedAt := now)
  {
    hide LiveContext, AllocationHash, ValidateLockSet, SeatFits;
    if FinalizeLive(env, core, live, now, actor).Ok? {
      SeatsKept(live, FinalizeLive(env, core, live, now, actor).value);
    }
  }

  lemma SeatsKept(live: RoomLive, next: RoomLive)
    requires SeatFits(live, 0) && SeatFits(live, 1) && SeatFits(live, 2) && next.lockMask == live.lockMask
    requires next.revision == live.revision && next.allocationHash == live.allocationHash
    requires next.lockedRevision == live.lockedRevision && next.lockedHash == live.lockedHash
    ensures SeatFits(next, 0) && SeatFits(next, 1) && SeatFits(next, 2)
  {
  }

  lemma SameConsent(events: seq<Event>, live: RoomLive, next: RoomLive)
    requires Consent(events, live) && next.lockMask == live.lockMask && next.revision == live.revision
    requires next.allocationHash == live.allocationHash && next.selectedSlots == live.selectedSlots
      && next.cycle == live.cycle
    ensures Consent(events, next)
  {
  }

  lemma ProposeConsent(events: seq<Event>, live: RoomLive, next: RoomLive, actor: Key)
    requires Consent(events, live) && next.revision == live.revision + 1 && next.lockMask == 0
    ensures Consent(events + [ProposalChanged(actor, next.revision, next.selectedSlots, next.cycle,
                                              next.allocationHash)], next)
  {
    var e := ProposalChanged(actor, next.revision, next.selectedSlots, next.cycle, next.allocationHash);
    HistoryAppend(events, e);
    assert LockChanges(events, next.revision, 0) == [] && LockChanges(events, next.revision, 1) == []
        && LockChanges(events, next.revision, 2) == [];
    forall r: int, seat: nat
      ensures LockChanges(events + [e], r, seat) == LockChanges(events, r, seat)
    {
    }
    forall r: int
      ensures |Proposals(events + [e], r)| == if 1 <= r <= next.revision then 1 else 0
    {
      assert |Proposals(events, r)| == if 1 <= r <= live.revision then 1 else 0;
    }
    assert Proposals(events, next.revision) == [];
  }

  lemma LockSeat(events: seq<Event>, live: RoomLive, next: RoomLive, seat: nat, locked: bool, other: nat)
    requires seat < 3 && other < 3 && SeatSpoke(events, live, other)
    requires next.revision == live.revision && next.allocationHash == live.allocationHash
    requires next.lockMask == if locked then With(live.lockMask, seat) else Without(live.lockMask, seat)
    ensures SeatSpoke(events + [LockChanged(seat, live.revision, live.allocationHash, locked)], next, other)
  {
    var e := LockChanged(seat, live.revision, live.allocationHash, locked);
    HistoryAppend(events, e);
    WithHas(live.lockMask, seat, other);
    WithoutHas(live.lockMask, seat, other);
    assert LockChanges(events + [e], next.revision, other)
        == LockChanges(events, live.revision, other) + (if other == seat then [e] else []);
  }

  lemma LockConsent(events: seq<Event>, live: RoomLive, next: RoomLive, seat: nat, locked: bool)
    requires Consent(events, live) && seat < 3
    requires next.revision == live.revision && next.selectedSlots == live.selectedSlots && next.cycle == live.cycle
    requires next.allocationHash == live.allocationHash
    requires next.lockMask == if locked then With(live.lockMask, seat) else Without(live.lockMask, seat)
    ensures Consent(events + [LockChanged(seat, live.revision, live.allocationHash, locked)], next)
  {
    var e := LockChanged(seat, live.revision, live.allocationHash, locked);
    QuietProposals(events, e, live, next);
    LockSeat(events, live, next, seat, locked, 0);
    LockSeat(events, live, next, seat, locked, 1);
    LockSeat(events, live, next, seat, locked, 2);
    HistoryAppend(events, e);
    forall r: int, i: nat | r > next.revision
      ensures LockChanges(events + [e], r, i) == []
    {
      assert LockChanges(events, r, i) == [];
    }
  }

  /** The world after the rollup rewrote its copy, or froze it for the commit. */
  function RolledUp(w: World, next: RoomLive, event: Event): World {
    w.(er := if next.phase == Finalized then Scheduled(next) else Delegated(next), events := w.events + [event])
  }

  /** A step of the rollup that rewrites its delegated copy. */
  lemma RollupStepInv(env: Env, w: World, next: RoomLive, event: Event)
    requires Inv(env, w) && w.er.Delegated?
    requires LiveFits(env, w.core, next) && Consent(w.events + [event], next)
    requires !IsOutcome(event) && !IsDelegation(event) && !IsCoreWrite(event)
    ensures Inv(env, RolledUp(w, next, event))
  {
    hide CoreFits, Custody, LiveFits, Consent, ReturnsFit, Rank;
    LogIsItsOwn(env, w, RolledUp(w, next, event));
    TallyEvents(w.events, event);
    QuietReturns(w.core, w.core, w.events, event);
  }

  /** A negotiation step that gets past its guards runs on the rollup's delegated copy. */
  lemma NegotiatesOnRollup(env: Env, w: World, venue: Venue, actor: Key)
    requires Inv(env, w) && CoreSeen(w, venue).Ok? && LiveSeen(w, venue).Ok?
    requires LiveContext(env, CoreSeen(w, venue).value, LiveSeen(w, venue).value, ClockSeen(w, venue), actor).Pass?
    requires LiveSeen(w, venue).value.phase != Finalized
    ensures venue.OnEr? && w.er.Delegated? && LiveSeen(w, venue).value == w.er.live == Current(w)
    ensures SameTerms(CoreSeen(w, venue).value, w.core) && CoreSeen(w, venue).value.status == Active
    ensures CoreSeen(w, venue).value.depositedMask == SLOTS
    ensures LiveFits(env, CoreSeen(w, venue).value, w.er.live)
    ensures Consent(w.events, w.er.live)
  {
    SeenCore(env, w, venue);
    if venue.OnBase? {
      BaseCopyIsClosed(env, w, w.now, actor);
      assert false;
    }
  }

  ghost predicate RollupStep(env: Env, w: World, r: Result<World>, next: RoomLive, event: Event) {
    && w.er.Delegated?
    && r == Ok(RolledUp(w, next, event))
    && LiveFits(env, w.core, next) && Consent(w.events + [event], next)
    && !IsOutcome(event) && !IsDelegation(event) && !IsCoreWrite(event)
  }

  lemma ProposeEffect(env: Env, w: World, signer: Key, venue: Venue, revision: u64, slots: Bytes3, cycle: Cycle)
    returns (next: RoomLive, event: Event)
    requires Inv(env, w) && Perform(env, w, signer, MakeProposal(venue, revision, slots, cycle)).Ok?
    ensures RollupStep(env, w, Perform(env, w, signer, MakeProposal(venue, revision, slots, cycle)), next, event)
  {
    hide Inv, ProposalFits, LocksFit, LiveFits, Consent;
    NegotiatesOnRollup(env, w, venue, signer);
    var core, live, now := CoreSeen(w, venue).value, w.er.live, ClockSeen(w, venue);
    next := Propose(env, core, live, now, signer, revision, slots, cycle).value;
    event := ProposalChanged(signer, next.revision, slots, cycle, next.allocationHash);
    ProposeLive(env, core, live, now, signer, revision, slots, cycle);
    ProposeConsent(w.events, live, next, signer);
    SameTermsLive(env, core, w.core, next);
  }

  lemma LockEffect(env: Env, w: World, signer: Key, venue: Venue, revision: u64, hash: Hash)
    returns (next: RoomLive, event: Event)
    requires Inv(env, w) && Perform(env, w, signer, TakeLock(venue, revision, hash)).Ok?
    ensures RollupStep(env, w, Perform(env, w, signer, TakeLock(venue, revision, hash)), next, event)
  {
    hide Inv, ProposalFits, LocksFit, LiveFits, Consent;
    NegotiatesOnRollup(env, w, venue, signer);
    var core, live, now := CoreSeen(w, venue).value, w.er.live, ClockSeen(w, venue);
    next := Lock(env, core, live, now, signer, revision, hash).value;
    event := LockChanged(Seat(core.participants, signer), revision, hash, true);
    LockLive(env, core, live, now, signer, revision, hash);
    LockConsent(w.events, live, next, Seat(core.participants, signer), true);
    SameTermsLive(env, core, w.core, next);
  }

  lemma RevokeEffect(env: Env, w: World, signer: Key, venue: Venue, revision: u64, hash: Hash)
    returns (next: RoomLive, event: Event)
    requires Inv(env, w) && Perform(env, w, signer, DropLock(venue, revision, hash)).Ok?
    ensures RollupStep(env, w, Perform(env, w, signer, DropLock(venue, revision, hash)), next, event)
  {
    hide Inv, ProposalFits, LocksFit, LiveFits, Consent;
    NegotiatesOnRollup(env, w, venue, signer);
    var core, live, now := CoreSeen(w, venue).value, w.er.live, ClockSeen(w, venue);
    next := RevokeLock(env, core, live, now, signer, revision, hash).value;
    event := LockChanged(Seat(core.participants, signer), revision, hash, false);
    RevokeLive(env, core, live, now, signer, revision, hash);
    LockConsent(w.events, live, next, Seat(core.participants, signer), false);
    SameTermsLive(env, core, w.core, next);
  }

  lemma FinalizeEffect(env: Env, w: World, signer: Key, venue: Venue)
    returns (next: RoomLive, event: Event)
    requires Inv(env, w) && Perform(env, w, signer, Finalize(venue)).Ok?
    ensures RollupStep(env, w, Perform(env, w, signer, Finalize(venue)), next, event)
  {
    hide Inv, LocksFit, ProposalFits, SeatSpoke, OneProposalEach, NoEarlyLocks, LiveContext, ValidateLockSet;
    NegotiatesOnRollup(env, w, venue, signer);
    var core, live, now := CoreSeen(w, venue).value, w.er.live, ClockSeen(w, venue);
    next := FinalizeLive(env, core, live, now, signer).value;
    event := FinalizationScheduled(next.revision, next.allocationHash);
    FinalizedLive(env, core, live, now, signer);
    hide Consent, LiveFits;
    QuietConsent(w.events, event, live);
    SameConsent(w.events + [event], live, next);
    SameTermsLive(env, core, w.core, next);
  }

  lemma NegotiationInv(env: Env, w: World, signer: Key, action: Action)
    requires Inv(env, w)
    requires action.MakeProposal? || action.TakeLock? || action.DropLock? || action.Finalize?
    ensures var r := Perform(env, w, signer, action); r.Ok? ==> Inv(env, r.value)
  {
    hide Inv, Perform, LiveFits, Consent;
    if Perform(env, w, signer, action).Ok? {
      var next: RoomLive, event: Event;
      match action {
        case MakeProposal(venue, revision, slots, cycle) =>
          next, event := ProposeEffect(env, w, signer, venue, revision, slots, cycle);
        case TakeLock(venue, revision, hash) =>
          next, event := LockEffect(env, w, signer, venue, revision, hash);
        case DropLock(venue, revision, hash) =>
          next, event := RevokeEffect(env, w, signer, venue, revision, hash);
        case Finalize(venue) =>
          next, event := FinalizeEffect(env, w, signer, venue);
      }
      RollupStepInv(env, w, next, event);
    }
  }

  // ----- The environment -----

  lemma TokenSlotKept(env: Env, core: RoomCore, l: Ledger, signer: Key, op: TokenOp, slot: nat)
    requires slot < 6 && Conserved(l) && SlotInCustody(env, core, l, slot) && signer != env.VaultAuthority()
    ensures var r := Apply(l, signer, op); r.Some? ==> SlotInCustody(env, core, r.value, slot)
  {
    var r := Apply(l, signer, op);
    if r.Some? && Has(core.depositedMask, slot) {
      var a := core.assets[slot];
      PolicyIsForever(l, signer, op, a.mint);
      if Held(core, slot) {
        OthersCannotTake(l, signer, op, a.vault);
        ApplyConserves(l, signer, op);
        HoldingWithinSupply(r.value, a.vault);
      }
    }
  }

  lemma TokenCustody(env: Env, core: RoomCore, l: Ledger, signer: Key, op: TokenOp)
    requires Custody(env, core, l) && signer != env.VaultAuthority()
    ensures var r := Apply(l, signer, op); r.Some? ==> Custody(env, core, r.value)
  {
    hide Conserved, SlotInCustody, Apply;
    if Apply(l, signer, op).Some? {
      ApplyConserves(l, signer, op);
      forall s | 0 <= s < 6
        ensures SlotInCustody(env, core, Apply(l, signer, op).value, s)
      {
        TokenSlotKept(env, core, l, signer, op, s);
      }
    }
  }

  /** Nobody else's token instruction touches a held asset. */
  lemma TokenInv(env: Env, w: World, signer: Key, op: TokenOp)
    requires Inv(env, w)
    ensures var r := Next(env, w, Token(signer, op)); r.Ok? ==> Inv(env, r.value)
  {
    if Next(env, w, Token(signer, op)).Ok? {
      hide CoreFits, LogFits, Custody, LiveFits, Consent, SettlementFits, ReturnsFit, ProgressFits, CopiesFit, Apply;
      LogIsItsOwn(env, w, w.(ledger := Apply(w.ledger, signer, op).value));
      TokenCustody(env, w.core, w.ledger, signer, op);
      TokenParts(w, w.(ledger := Apply(w.ledger, signer, op).value));
    }
  }

  lemma TokenParts(w: World, w': World)
    requires w' == w.(ledger := w'.ledger) && CopiesFit(w) && ProgressFits(w)
    ensures CopiesFit(w') && ProgressFits(w')
  {
    hide Rank;
  }

  lemma CommitInv(env: Env, w: World, step: Step)
    requires Inv(env, w) && (step.Commit? || step.Undelegate? || step.Tick?)
    ensures var r := Next(env, w, step); r.Ok? ==> Inv(env, r.value)
  {
    hide CoreFits, LogFits, Custody, LiveFits, Consent, SettlementFits, ReturnsFit;
    var r := Next(env, w, step);
    if r.Ok? {
      LogIsItsOwn(env, w, r.value);
      assert CopiesFit(r.value) && Current(r.value) == Current(w);
      assert ProgressFits(r.value);
    }
  }
}
