/** What the three legs of a settlement do, and what a return does. */
module Settlement {
  import opened Wire
  import opened Masks
  import opened Records
  import opened Tokens
  import opened Allocation
  import opened Rules
  import opened Machine
  import opened Invariant
  import opened Preservation

  // ----- One leg -----

  function MarkLeg(core: RoomCore, slot: nat, destination: Key): RoomCore
    requires slot < 6
  {
    var a := core.assets[slot];
    core.(assets := core.assets[slot := a.(flags := a.flags | SELECTED | TRANSFERRED, finalAta := destination)])
  }

  /** A leg that succeeds moved the vault's token to the recipient's own account of that mint, and touched no account of
      another mint. */
  lemma LegEffect(env: Env, core: RoomCore, l: Ledger, live: RoomLive, accounts: LegAccounts, leg: nat)
    requires leg < 3 && LegIndicesInRange(live) && Conserved(l)
    ensures var r := SettleLeg(env, core, l, live, accounts, leg);
      r.Ok? ==>
        var asset := core.assets[live.selectedSlots[leg]];
        var destination := env.ata(core.participants[live.destinations[leg]], asset.mint);
        && r.value.0 == MarkLeg(core, live.selectedSlots[leg], destination)
        && Conserved(r.value.1) && OnlyMintMoves(l, r.value.1, asset.mint)
        && accounts == LegAccounts(asset.mint, asset.vault, destination)
        && TransferOne(l, env.VaultAuthority(), asset.vault, asset.mint, destination) == Ok(r.value.1)
  {
    hide Conserved;
    TransferFrame(l, env.VaultAuthority(), accounts.vault, accounts.mint, accounts.destination);
  }

  // ----- Three legs -----

  /** The states between the legs of a settlement that succeeds. */
  lemma LegStates(env: Env, core: RoomCore, l: Ledger, live: RoomLive, legs: Legs)
    returns (c1: RoomCore, l1: Ledger, c2: RoomCore, l2: Ledger, c3: RoomCore, l3: Ledger)
    requires LegIndicesInRange(live) && SettleLegs(env, core, l, live, legs, 3).Ok?
    ensures SettleLeg(env, core, l, live, legs[0], 0) == Ok((c1, l1))
    ensures SettleLeg(env, c1, l1, live, legs[1], 1) == Ok((c2, l2))
    ensures SettleLeg(env, c2, l2, live, legs[2], 2) == Ok((c3, l3))
    ensures SettleLegs(env, core, l, live, legs, 3) == Ok((c3, l3, MaskOf(live.selectedSlots)))
  {
    hide SettleLeg;
    var r0 := SettleLegs(env, core, l, live, legs, 0);
    var r1 := SettleLegs(env, core, l, live, legs, 1);
    var r2 := SettleLegs(env, core, l, live, legs, 2);
    assert r0 == Ok((core, l, 0));
    assert r1.Ok? && r2.Ok?;
    c1, l1 := r1.value.0, r1.value.1;
    c2, l2 := r2.value.0, r2.value.1;
    var r3 := SettleLegs(env, core, l, live, legs, 3);
    c3, l3 := r3.value.0, r3.value.1;
  }

  function MarkLegs(env: Env, core: RoomCore, live: RoomLive): RoomCore
    requires LegIndicesInRange(live)
  {
    var s, d := live.selectedSlots, live.destinations;
    var c1 := MarkLeg(core, s[0], env.ata(core.participants[d[0]], core.assets[s[0]].mint));
    var c2 := MarkLeg(c1, s[1], env.ata(core.participants[d[1]], core.assets[s[1]].mint));
    MarkLeg(c2, s[2], env.ata(core.participants[d[2]], core.assets[s[2]].mint))
  }

  ghost predicate OnlyMintsMove(l: Ledger, l': Ledger, a: Key, b: Key, c: Key) {
    l'.mints == l.mints
    && forall k :: k in l.accounts && l.accounts[k].mint != a && l.accounts[k].mint != b && l.accounts[k].mint != c ==>
         k in l'.accounts && l'.accounts[k] == l.accounts[k]
  }

  lemma TwoMintsMove(l: Ledger, l1: Ledger, l2: Ledger, l3: Ledger, a: Key, b: Key, c: Key)
    requires OnlyMintMoves(l, l1, a) && OnlyMintMoves(l1, l2, b) && OnlyMintMoves(l2, l3, c)
    ensures OnlyMintsMove(l, l3, a, b, c)
  {
  }

  lemma LegsEffect(env: Env, core: RoomCore, l: Ledger, live: RoomLive, legs: Legs)
    requires LegIndicesInRange(live) && Conserved(l)
    ensures var r := SettleLegs(env, core, l, live, legs, 3);
      r.Ok? ==>
        var s := live.selectedSlots;
        && r.value.0 == MarkLegs(env, core, live)
        && r.value.2 == MaskOf(s)
        && Conserved(r.value.1)
        && OnlyMintsMove(l, r.value.1, core.assets[s[0]].mint, core.assets[s[1]].mint, core.assets[s[2]].mint)
  {
    hide Conserved, SettleLeg, SettleLegs, OnlyMintMoves, OnlyMintsMove, MaskOf, TransferOne;
    if SettleLegs(env, core, l, live, legs, 3).Ok? {
      var c1, l1, c2, l2, c3, l3 := LegStates(env, core, l, live, legs);
      LegEffect(env, core, l, live, legs[0], 0);
      LegEffect(env, c1, l1, live, legs[1], 1);
      LegEffect(env, c2, l2, live, legs[2], 2);
      var s := live.selectedSlots;
      TwoMintsMove(l, l1, l2, l3, core.assets[s[0]].mint, c1.assets[s[1]].mint, c2.assets[s[2]].mint);
    }
  }

  /** The core a successful settlement leaves. */
  function SettledCore(env: Env, core: RoomCore, live: RoomLive): RoomCore
    requires LegIndicesInRange(live)
  {
    MarkLegs(env, core, live).(selectedMask := MaskOf(live.selectedSlots), settledRevision := live.revision,
                               allocationHash := live.allocationHash, status := Settled)
  }

  lemma MaskOfHas(slots: Bytes3, i: nat)
    requires SlotsInRange(slots) && i < 8
    ensures Has(MaskOf(slots), i) <==> i == slots[0] || i == slots[1] || i == slots[2]
    ensures OnePerSeat(MaskOf(slots))
  {
    forall i: nat | i < 8
      ensures Has(MaskOf(slots), i) <==> i == slots[0] || i == slots[1] || i == slots[2]
    {
      var m1 := With(0, slots[0]);
      var m2 := With(m1, slots[1]);
      WithHas(0, slots[0], i);
      WithHas(m1, slots[1], i);
      WithHas(m2, slots[2], i);
    }
    var m := MaskOf(slots);
    assert Has(m, 0) != Has(m, 1) && Has(m, 2) != Has(m, 3) && Has(m, 4) != Has(m, 5);
    assert !Has(m, 6) && !Has(m, 7);
  }

  lemma SettledMasks(core: RoomCore, slots: Bytes3)
    requires MasksFit(core) && core.status == Active && SlotsInRange(slots)
    ensures MasksFit(core.(selectedMask := MaskOf(slots), status := Settled))
  {
    MaskOfHas(slots, 0);
    hide MaskOf;
  }

  lemma SettledAssetFits(env: Env, core: RoomCore, live: RoomLive, s: nat)
    requires s < 6 && AssetFits(env, core, s) && MasksFit(core) && core.status == Active && LegIndicesInRange(live)
    ensures AssetFits(env, SettledCore(env, core, live), s)
    ensures SettledCore(env, core, live).assets[s].mint == core.assets[s].mint
  {
    MaskOfHas(live.selectedSlots, s);
    hide MaskOf;
  }

  lemma SettledCoreFits(env: Env, core: RoomCore, live: RoomLive)
    requires CoreFits(env, core) && core.status == Active && LegIndicesInRange(live)
    ensures var core' := SettledCore(env, core, live);
      CoreFits(env, core') && SameTerms(core', core) && Rank(core') == 3
  {
    var core' := SettledCore(env, core, live);
    SettledMasks(core, live.selectedSlots);
    assert MasksFit(core');
    forall s | 0 <= s < 6
      ensures AssetFits(env, core', s) && core'.assets[s].mint == core.assets[s].mint
    {
      SettledAssetFits(env, core, live, s);
    }
    hide MasksFit, AssetFits, MaskOf;
    assert DistinctMints(core');
  }

  lemma SettleSlotCustody(env: Env, core: RoomCore, l: Ledger, l': Ledger, live: RoomLive, s: nat)
    requires CoreFits(env, core) && core.status == Active && LegIndicesInRange(live)
    requires s < 6 && SlotInCustody(env, core, l, s)
    requires var t := live.selectedSlots;
      OnlyMintsMove(l, l', core.assets[t[0]].mint, core.assets[t[1]].mint, core.assets[t[2]].mint)
    ensures SlotInCustody(env, SettledCore(env, core, live), l', s)
  {
    hide MaskOf, AssetFits;
    MaskOfHas(live.selectedSlots, s);
    SettledAssetFits(env, core, live, s);
    var core' := SettledCore(env, core, live);
    if Held(core', s) {
      assert core'.assets[s] == core.assets[s];
      assert core.assets[s].mint != core.assets[live.selectedSlots[0]].mint;
      assert core.assets[s].mint != core.assets[live.selectedSlots[1]].mint;
      assert core.assets[s].mint != core.assets[live.selectedSlots[2]].mint;
    }
  }

  lemma SettleCustody(env: Env, core: RoomCore, l: Ledger, live: RoomLive, legs: Legs)
    requires CoreFits(env, core) && core.status == Active && LegIndicesInRange(live) && Custody(env, core, l)
    requires SettleLegs(env, core, l, live, legs, 3).Ok?
    ensures Custody(env, SettledCore(env, core, live), SettleLegs(env, core, l, live, legs, 3).value.1)
  {
    var l' := SettleLegs(env, core, l, live, legs, 3).value.1;
    var core' := SettledCore(env, core, live);
    LegsEffect(env, core, l, live, legs);
    hide SettleLegs, Conserved, SlotInCustody, SettledCore, OnlyMintsMove, CoreFits;
    forall s | 0 <= s < 6
      ensures SlotInCustody(env, core', l', s)
    {
      SettleSlotCustody(env, core, l, l', live, s);
    }
  }

  /** A settlement that succeeds does so on exact, frozen, hash-checked consent. */
  lemma SettleGuarded(env: Env, core: RoomCore, live: RoomLive, liveOwner: LiveOwner, required: LiveOwner, l: Ledger,
                      now: i64, legs: Legs)
    requires Conserved(l)
    ensures var r := Settle(env, core, live, liveOwner, required, l, now, legs);
      r.Ok? ==>
        && core.status == Active && liveOwner == required && now < core.expiresAt
        && live.phase == Finalized && live.lockMask == SEATS && LegIndicesInRange(live)
        && live.allocationHash
           == AllocationHash(env, live.revision, live.expiresAt, live.selectedSlots, live.cycle, live.destinations)
        && live.expiresAt == core.expiresAt
        && r.value.0 == SettledCore(env, core, live)
        && SettleLegs(env, core, l, live, legs, 3).Ok? && r.value.1 == SettleLegs(env, core, l, live, legs, 3).value.1
  {
    var r := Settle(env, core, live, liveOwner, required, l, now, legs);
    if r.Ok? {
      LegsEffect(env, core, l, live, legs);
    }
  }

  lemma SettledCoreRecords(env: Env, core: RoomCore, live: RoomLive)
    requires LegIndicesInRange(live) && live.phase == Finalized && live.expiresAt == core.expiresAt
    requires live.allocationHash == AllocationHash(env, live.revision, live.expiresAt, live.selectedSlots, live.cycle,
                                                   live.destinations)
    ensures SettlementFits(env, SettledCore(env, core, live), live)
  {
  }

  lemma SettlesCurrent(env: Env, w: World)
    requires Inv(env, w) && w.live.phase == Finalized
    ensures Current(w) == w.live && CopiesFit(w)
  {
  }

  lemma SettledCopies(env: Env, w: World)
    requires CopiesFit(w) && w.live.phase == Finalized && LegIndicesInRange(w.live)
    ensures CopiesFit(w.(core := SettledCore(env, w.core, w.live)))
  {
  }

  lemma ConservedNow(env: Env, w: World)
    requires Inv(env, w)
    ensures Conserved(w.ledger)
  {
  }

  lemma SettleInv(env: Env, w: World, signer: Key, required: LiveOwner, legs: Legs)
    requires Inv(env, w)
    ensures var r := Perform(env, w, signer, SettleDeal(required, legs)); r.Ok? ==> Inv(env, r.value)
  {
    hide Inv, Conserved, Settle, SettleLegs, AllocationHash;
    if Perform(env, w, signer, SettleDeal(required, legs)).Ok? {
      ConservedNow(env, w);
      SettleGuarded(env, w.core, w.live, w.liveOwner, required, w.ledger, w.now, legs);
      SettledWorldInv(env, w, legs);
    }
  }

  lemma SettledWorldInv(env: Env, w: World, legs: Legs)
    requires Inv(env, w) && w.core.status == Active && w.live.phase == Finalized && LegIndicesInRange(w.live)
    requires w.live.allocationHash
             == AllocationHash(env, w.live.revision, w.live.expiresAt, w.live.selectedSlots, w.live.cycle,
                               w.live.destinations)
    requires w.live.expiresAt == w.core.expiresAt && SettleLegs(env, w.core, w.ledger, w.live, legs, 3).Ok?
    ensures var core := SettledCore(env, w.core, w.live);
      Inv(env, PutCore(w, core, RoomSettled(core.settledRevision, core.allocationHash, core.selectedMask))
               .(ledger := SettleLegs(env, w.core, w.ledger, w.live, legs, 3).value.1))
  {
    SettlesCurrent(env, w);
    hide SettleLegs, CoreFits, LogFits, Custody, LiveFits, Consent, ReturnsFit, ProgressFits, SettlementFits,
         CopiesFit, Rank, AllocationHash;
    var core := SettledCore(env, w.core, w.live);
    var event := RoomSettled(core.settledRevision, core.allocationHash, core.selectedMask);
    SettledCoreFits(env, w.core, w.live);
    ActiveRank(w.core);
    SettleCustody(env, w.core, w.ledger, w.live, legs);
    SettledCoreRecords(env, w.core, w.live);
    SettleReturns(env, w.core, w.live, w.events, event);
    SettledCopies(env, w);
    CoreStepInv(env, w, core, SettleLegs(env, w.core, w.ledger, w.live, legs, 3).value.1, event);
  }

  lemma ActiveRank(core: RoomCore)
    requires core.status == Active
    ensures Rank(core) == 7
  {
  }

  lemma SettleReturns(env: Env, core: RoomCore, live: RoomLive, events: seq<Event>, event: Event)
    requires ReturnsFit(core, events) && LegIndicesInRange(live) && event.RoomSettled?
    ensures ReturnsFit(SettledCore(env, core, live), events + [event])
  {
    SettledRecords(env, core, live);
    hide ReturnsFit, SettledCore, Has;
    QuietReturns(core, SettledCore(env, core, live), events, event);
  }

  lemma SettledRecords(env: Env, core: RoomCore, live: RoomLive)
    requires LegIndicesInRange(live)
    ensures var next := SettledCore(env, core, live);
      && next.returnedMask == core.returnedMask
      && forall s :: 0 <= s < 6 ==>
           next.assets[s].mint == core.assets[s].mint && next.assets[s].originalAta == core.assets[s].originalAta
  {
    hide MaskOf;
  }

  // ----- Returns -----

  lemma ReturnMoves(env: Env, l: Ledger, mint: Key, vault: Key, originalOwner: Key, originalAta: Key)
    requires Conserved(l) && vault in l.accounts && OpenAta(l, originalAta, mint, originalOwner).Ok?
    ensures var r := TransferOne(OpenAta(l, originalAta, mint, originalOwner).value, env.VaultAuthority(), vault,
                                 mint, originalAta);
      r.Ok? ==> Conserved(r.value) && OnlyMintMoves(l, r.value, mint)
  {
    hide Conserved;
    OpenAtaFrame(l, originalAta, mint, originalOwner);
    TransferFrame(OpenAta(l, originalAta, mint, originalOwner).value, env.VaultAuthority(), vault, mint, originalAta);
  }

  lemma ReturnEffect(env: Env, core: RoomCore, l: Ledger, slot: byte, mint: Key, vault: Key, originalOwner: Key,
                     originalAta: Key)
    requires Conserved(l)
    ensures var r := ReturnAsset(env, core, l, slot, mint, vault, originalOwner, originalAta);
      r.Ok? ==>
        && slot < 6 && ReturnMaskGuard(core, slot).Pass?
        && mint == core.assets[slot].mint && vault == core.assets[slot].vault
           && originalAta == core.assets[slot].originalAta
        && originalOwner == core.assets[slot].originalOwner
        && r.value.0 == MarkReturned(core, slot)
        && Conserved(r.value.1) && OnlyMintMoves(l, r.value.1, mint)
  {
    hide Conserved, OnlyMintMoves, MarkReturned, ReturnMaskGuard, OpenAta, TransferOne;
    if ReturnAsset(env, core, l, slot, mint, vault, originalOwner, originalAta).Ok? {
      ReturnMoves(env, l, mint, vault, originalOwner, originalAta);
    }
  }

  /** What a decided room owes its depositors. */
  function Owed(core: RoomCore): bv8 {
    Minus(core.depositedMask, core.selectedMask)
  }

  lemma Returnable(core: RoomCore, slot: nat)
    requires slot < 6 && MasksFit(core) && ReturnMaskGuard(core, slot).Pass?
    ensures Within(core.returnedMask, core.depositedMask) && Apart(core.returnedMask, core.selectedMask)
    ensures Has(Owed(core), slot) && !Has(core.returnedMask, slot)
    ensures core.status == Cancelled || core.status == Settled || core.status == Returning
    ensures core.status == Cancelled ==> core.depositedMask == Owed(core)
  {
    MinusHas(core.depositedMask, core.selectedMask, slot);
    MinusNothing(core.depositedMask);
    assert core.status == Cancelled ==> !Has(core.selectedMask, slot) by { assert !Has(0, slot); }
    hide Has, Minus, Within, Apart, OnePerSeat;
  }

  lemma FinishStatus(core: RoomCore, owed: bv8)
    requires core.status == Cancelled || core.status == Returning
    requires owed == RequiredReturns(core) != 0
    requires Covers(core.returnedMask, owed) <==> core.returnedMask == owed
    ensures FinishReturnsIfEmpty(core)
         == if core.returnedMask != owed then core
            else core.(status := if core.status == Cancelled then Closed else Complete)
  {
    hide RequiredReturns, Covers;
  }

  /** A return ends the room exactly when it returns the last asset owed. */
  lemma ReturnStatus(core: RoomCore, slot: nat)
    requires slot < 6 && MasksFit(core) && ReturnMaskGuard(core, slot).Pass?
    ensures var recorded := RecordReturn(core, slot);
      MarkReturned(core, slot)
      == if recorded.returnedMask != Owed(core) then recorded
         else recorded.(status := if core.status == Cancelled then Closed else Complete)
  {
    hide Has, With, Minus, Within, Apart, Covers, MasksFit, FinishReturnsIfEmpty, ReturnMaskGuard;
    Returnable(core, slot);
    OneMoreReturned(core.depositedMask, core.selectedMask, core.returnedMask, slot);
    FinishStatus(RecordReturn(core, slot), Owed(core));
  }

  /** The masks after a return stay consistent with the status after it. */
  lemma ReturnMasks(core: RoomCore, slot: nat)
    requires slot < 6 && MasksFit(core) && ReturnMaskGuard(core, slot).Pass?
    ensures MasksFit(MarkReturned(core, slot))
    ensures !Undecided(core) && !Undecided(MarkReturned(core, slot))
    ensures WasSettled(MarkReturned(core, slot)) <==> WasSettled(core)
  {
    hide Has, With, Minus, Within, Apart, Covers, OnePerSeat, MarkReturned, ReturnMaskGuard;
    Returnable(core, slot);
    ReturnStatus(core, slot);
    OneMoreReturned(core.depositedMask, core.selectedMask, core.returnedMask, slot);
  }

  lemma UnselectedCount(sel: bv8)
    requires OnePerSeat(sel)
    ensures Count(Minus(SLOTS, sel)) == 3
  {
    MinusHas(SLOTS, sel, 0);
    MinusHas(SLOTS, sel, 1);
    MinusHas(SLOTS, sel, 2);
    MinusHas(SLOTS, sel, 3);
    MinusHas(SLOTS, sel, 4);
    MinusHas(SLOTS, sel, 5);
  }

  lemma CountZero()
    ensures Count(0) == 0
  {
  }

  /** After the outcome, the rank is the number of assets still to return. */
  lemma DecidedRank(core: RoomCore)
    requires MasksFit(core) && !Undecided(core)
    ensures Rank(core) == Count(Owed(core)) - Count(core.returnedMask)
    ensures Within(core.returnedMask, Owed(core))
  {
    hide Has, Minus, Within, Apart, Count;
    WithinMinus(core.returnedMask, core.depositedMask, core.selectedMask);
    MinusNothing(core.depositedMask);
    CountZero();
    if WasSettled(core) {
      UnselectedCount(core.selectedMask);
    }
  }

  lemma ReturnRank(core: RoomCore, slot: nat)
    requires slot < 6 && MasksFit(core) && ReturnMaskGuard(core, slot).Pass?
    ensures 0 <= Rank(MarkReturned(core, slot)) < Rank(core)
  {
    hide Has, With, Minus, Within, Apart, Covers, MasksFit, Rank, Count, ReturnMaskGuard;
    var core' := MarkReturned(core, slot);
    Returnable(core, slot);
    ReturnMasks(core, slot);
    DecidedRank(core);
    DecidedRank(core');
    CountWith(core.returnedMask, slot);
    CountSubset(core'.returnedMask, Owed(core'));
  }

  lemma ReturnAssetFits(env: Env, core: RoomCore, slot: nat, s: nat)
    requires slot < 6 && s < 6 && AssetFits(env, core, s) && Has(core.depositedMask, slot)
    ensures AssetFits(env, MarkReturned(core, slot), s)
  {
    WithHas(core.returnedMask, slot, s);
    hide With;
  }

  lemma ReturnCoreFits(env: Env, core: RoomCore, slot: nat)
    requires slot < 6 && CoreFits(env, core) && ReturnMaskGuard(core, slot).Pass?
    ensures CoreFits(env, MarkReturned(core, slot)) && SameTerms(MarkReturned(core, slot), core)
  {
    var core' := MarkReturned(core, slot);
    ReturnMasks(core, slot);
    hide MasksFit, Has, With;
    forall s | 0 <= s < 6
      ensures AssetFits(env, core', s)
    {
      ReturnAssetFits(env, core, slot, s);
    }
    hide AssetFits;
  }

  lemma ReturnCustody(env: Env, core: RoomCore, l: Ledger, l': Ledger, slot: nat)
    requires slot < 6 && CoreFits(env, core) && ReturnMaskGuard(core, slot).Pass? && Custody(env, core, l)
    requires Conserved(l') && OnlyMintMoves(l, l', core.assets[slot].mint)
    ensures Custody(env, MarkReturned(core, slot), l')
  {
    hide MasksFit, Conserved;
    var core' := MarkReturned(core, slot);
    forall s | 0 <= s < 6
      ensures SlotInCustody(env, core', l', s)
    {
      assert SlotInCustody(env, core, l, s);
      WithHas(core.returnedMask, slot, s);
      if s != slot {
        OtherSlotKept(env, core, core', l, l', core.assets[slot].mint, s);
      }
    }
  }

  lemma ReturnReturns(core: RoomCore, events: seq<Event>, slot: nat)
    requires slot < 6 && ReturnsFit(core, events)
    ensures ReturnsFit(MarkReturned(core, slot),
                       events + [AssetReturned(slot, core.assets[slot].mint, core.assets[slot].originalAta)])
  {
    var core' := MarkReturned(core, slot);
    forall s | 0 <= s < 6
      ensures Has(core'.returnedMask, s) <==> Has(core.returnedMask, s) || s == slot
    {
      WithHas(core.returnedMask, slot, s);
    }
  }

  lemma ReturnSettlement(env: Env, core: RoomCore, live: RoomLive, slot: nat)
    requires slot < 6 && MasksFit(core) && ReturnMaskGuard(core, slot).Pass? && SettlementFits(env, core, live)
    ensures SettlementFits(env, MarkReturned(core, slot), live)
  {
    ReturnMasks(core, slot);
    MarkedSame(core, slot);
    hide MasksFit, ReturnMaskGuard, MarkReturned, AllocationHash, WasSettled, MaskOf;
  }

  lemma MarkedSame(core: RoomCore, slot: nat)
    requires slot < 6
    ensures var next := MarkReturned(core, slot);
      && next.settledRevision == core.settledRevision && next.allocationHash == core.allocationHash
      && next.selectedMask == core.selectedMask && SameTerms(next, core)
      && forall s :: 0 <= s < 6 ==>
           next.assets[s].mint == core.assets[s].mint && next.assets[s].finalAta == core.assets[s].finalAta
  {
    hide Has, With, Minus, Covers;
  }

  lemma ReturnCopies(w: World, slot: nat)
    requires slot < 6 && MasksFit(w.core) && ReturnMaskGuard(w.core, slot).Pass? && CopiesFit(w)
    ensures CopiesFit(w.(core := MarkReturned(w.core, slot)))
  {
    ReturnMasks(w.core, slot);
    hide MasksFit;
  }

  lemma ReturnCoreInv(env: Env, w: World, slot: nat, ledger: Ledger)
    requires Inv(env, w) && slot < 6 && ReturnMaskGuard(w.core, slot).Pass?
    requires Conserved(ledger) && OnlyMintMoves(w.ledger, ledger, w.core.assets[slot].mint)
    ensures var a := w.core.assets[slot];
      Inv(env, PutCore(w, MarkReturned(w.core, slot), AssetReturned(slot, a.mint, a.originalAta)).(ledger := ledger))
  {
    hide MasksFit, LogFits, LiveFits, Consent, ReturnsFit, ProgressFits, SettlementFits, CopiesFit, MarkReturned,
         Rank, ReturnMaskGuard, AssetFits, Conserved, SlotInCustody, OnlyMintMoves, Undecided, WasSettled;
    var core := MarkReturned(w.core, slot);
    ReturnMasks(w.core, slot);
    ReturnRank(w.core, slot);
    ReturnCoreFits(env, w.core, slot);
    ReturnCustody(env, w.core, w.ledger, ledger, slot);
    ReturnReturns(w.core, w.events, slot);
    ReturnSettlement(env, w.core, Current(w), slot);
    ReturnCopies(w, slot);
    CoreStepInv(env, w, core, ledger, AssetReturned(slot, w.core.assets[slot].mint, w.core.assets[slot].originalAta));
  }

  lemma InvConserved(env: Env, w: World)
    requires Inv(env, w)
    ensures Conserved(w.ledger)
  {
  }

  lemma ReturnInv(env: Env, w: World, signer: Key, slot: byte, mint: Key, vault: Key, originalOwner: Key,
                  originalAta: Key)
    requires Inv(env, w)
    ensures var r := Perform(env, w, signer, Return(slot, mint, vault, originalOwner, originalAta)); r.Ok? ==>
      Inv(env, r.value)
  {
    hide Inv, ReturnAsset, Conserved, OnlyMintMoves, ReturnMaskGuard, MarkReturned;
    InvConserved(env, w);
    if Perform(env, w, signer, Return(slot, mint, vault, originalOwner, originalAta)).Ok? {
      ReturnEffect(env, w.core, w.ledger, slot, mint, vault, originalOwner, originalAta);
      ReturnCoreInv(env, w, slot,
                    ReturnAsset(env, w.core, w.ledger, slot, mint, vault, originalOwner, originalAta).value.1);
    }
  }

  // ----- Every run -----

  lemma StepInv(env: Env, w: World, step: Step)
    requires Inv(env, w)
    ensures Inv(env, After(env, w, step))
  {
    hide Inv, Perform;
    match step
    case Token(signer, op) => TokenInv(env, w, signer, op);
    case Tick(_) => CommitInv(env, w, step);
    case Commit => CommitInv(env, w, step);
    case Undelegate => CommitInv(env, w, step);
    case Call(signer, action) =>
      if signer != env.VaultAuthority() {
        ActionInv(env, w, signer, action);
      }
  }

  lemma ActionInv(env: Env, w: World, signer: Key, action: Action)
    requires Inv(env, w) && signer != env.VaultAuthority()
    ensures var r := Perform(env, w, signer, action); r.Ok? ==> Inv(env, r.value)
  {
    hide Inv, Perform;
    match action
    case Deposit(slot, mint, source, vault) => DepositInv(env, w, signer, slot, mint, source, vault);
    case Activate => ActivateInv(env, w, signer);
    case MakeProposal(_, _, _, _) => NegotiationInv(env, w, signer, action);
    case TakeLock(_, _, _) => NegotiationInv(env, w, signer, action);
    case DropLock(_, _, _) => NegotiationInv(env, w, signer, action);
    case Finalize(_) => NegotiationInv(env, w, signer, action);
    case SettleDeal(required, legs) => SettleInv(env, w, signer, required, legs);
    case CancelAsParticipant => CancelStepInv(env, w, signer, action);
    case CancelAfterExpiry => CancelStepInv(env, w, signer, action);
    case Return(slot, mint, vault, originalOwner, originalAta) =>
      ReturnInv(env, w, signer, slot, mint, vault, originalOwner, originalAta);
  }

  lemma CancelStepInv(env: Env, w: World, signer: Key, action: Action)
    requires Inv(env, w) && (action.CancelAsParticipant? || action.CancelAfterExpiry?)
    ensures var r := Perform(env, w, signer, action); r.Ok? ==> Inv(env, r.value)
  {
    hide Inv;
    if Perform(env, w, signer, action).Ok? {
      CancelInv(env, w, CancelCore(w.core).value, RoomCancelled(signer, action.CancelAfterExpiry?));
    }
  }

  lemma {:induction false} RunInv(env: Env, w: World, steps: seq<Step>)
    requires Inv(env, w)
    ensures Inv(env, Exec(env, w, steps))
  {
    hide Inv;
    if steps != [] {
      RunInv(env, w, steps[..|steps| - 1]);
      StepInv(env, Exec(env, w, steps[..|steps| - 1]), steps[|steps| - 1]);
    }
  }

  /** The invariant holds in every reachable room. */
  lemma ReachableInv(env: Env, w: World)
    requires Reachable(env, w)
    ensures Inv(env, w)
  {
    hide Inv;
    var start, steps :| Initial(env, start) && w == Exec(env, start, steps);
    InitialInv(env, start);
    RunInv(env, start, steps);
  }
}
