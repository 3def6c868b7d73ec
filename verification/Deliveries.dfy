/** Which tokens reach whom: what one return delivers, and where a run has brought every asset when its room ends. */
module Deliveries {
  import opened Wire
  import opened Masks
  import opened Records
  import opened Tokens
  import opened Allocation
  import opened Rules
  import opened Machine
  import History
  import opened Invariant
  import Preservation
  import opened Settlement
  import opened Agreement
  import opened CustodyLaws

  // ----- One return -----

  lemma ReturnHands(env: Env, l: Ledger, a: AssetRecord)
    requires Conserved(l) && VaultHolds(env, a, l) && a.mint in l.mints && l.mints[a.mint].supply == 1
    requires a.originalOwner != env.VaultAuthority() && OpenAta(l, a.originalAta, a.mint, a.originalOwner).Ok?
    ensures var ready := OpenAta(l, a.originalAta, a.mint, a.originalOwner).value;
      var r := TransferOne(ready, env.VaultAuthority(), a.vault, a.mint, a.originalAta);
      r.Ok? ==> Handed(l, r.value, a.mint, a.vault, a.originalAta, a.originalOwner)
  {
    hide Conserved, OpenAta, TransferOne, SoleHolder;
    Preservation.OpenAtaFrame(l, a.originalAta, a.mint, a.originalOwner);
    var ready := OpenAta(l, a.originalAta, a.mint, a.originalOwner).value;
    Preservation.TransferFrame(ready, env.VaultAuthority(), a.vault, a.mint, a.originalAta);
    SupplyOneHasSoleHolder(l, a.vault);
    var r := TransferOne(ready, env.VaultAuthority(), a.vault, a.mint, a.originalAta);
    if r.Ok? {
      SupplyOneHasSoleHolder(r.value, a.originalAta);
    }
  }

  lemma HeldParts(env: Env, w: World, slot: nat)
    requires Inv(env, w) && slot < 6 && Held(w.core, slot)
    ensures var a := w.core.assets[slot];
      && Conserved(w.ledger) && VaultHolds(env, a, w.ledger) && a.mint in w.ledger.mints
         && w.ledger.mints[a.mint].supply == 1
      && a.originalOwner != env.VaultAuthority()
  {
    assert SlotInCustody(env, w.core, w.ledger, slot) && AssetFits(env, w.core, slot);
    hide LogFits, LiveFits, CopiesFit, Consent, SettlementFits, ProgressFits, ReturnsFit, MasksFit, DistinctMints,
         Conserved;
  }

  /** What a return that succeeds has done to the ledger. */
  lemma ReturnLedger(env: Env, core: RoomCore, l: Ledger, slot: nat)
    requires slot < 6
    ensures var a := core.assets[slot];
      var r := ReturnAsset(env, core, l, slot, a.mint, a.vault, a.originalOwner, a.originalAta);
      r.Ok? ==>
        && OpenAta(l, a.originalAta, a.mint, a.originalOwner).Ok?
        && var ready := OpenAta(l, a.originalAta, a.mint, a.originalOwner).value;
           TransferOne(ready, env.VaultAuthority(), a.vault, a.mint, a.originalAta) == Ok(r.value.1)
  {
    hide OpenAta, TransferOne, ReturnMaskGuard, MarkReturned;
  }

  /** A return that succeeds leaves the vault empty and the depositor's own account the sole holder of the asset. */
  lemma ReturnDelivers(env: Env, w: World, slot: nat)
    requires Inv(env, w) && slot < 6 && Held(w.core, slot)
    ensures var a := w.core.assets[slot];
      var r := ReturnAsset(env, w.core, w.ledger, slot, a.mint, a.vault, a.originalOwner, a.originalAta);
      r.Ok? ==> Handed(w.ledger, r.value.1, a.mint, a.vault, a.originalAta, a.originalOwner)
  {
    HeldParts(env, w, slot);
    hide Inv, Conserved, OpenAta, TransferOne, ReturnAsset, Handed, VaultHolds, Held;
    ReturnLedger(env, w.core, w.ledger, slot);
    if OpenAta(w.ledger, w.core.assets[slot].originalAta, w.core.assets[slot].mint,
               w.core.assets[slot].originalOwner).Ok? {
      ReturnHands(env, w.ledger, w.core.assets[slot]);
    }
  }

  // ----- Hand-overs in a run -----

  /** Step `i` of the run handed the asset from its vault to the account `to` of `owner`. */
  ghost predicate HandedAt(env: Env, start: World, steps: seq<Step>, i: int, a: AssetRecord, to: Key, owner: Key) {
    && 0 <= i < |steps|
    && Handed(Exec(env, start, steps[..i]).ledger, Exec(env, start, steps[..i + 1]).ledger, a.mint, a.vault, to, owner)
  }

  lemma HandedEarlier(env: Env, start: World, steps: seq<Step>, i: int, a: AssetRecord, b: AssetRecord, to: Key,
                      owner: Key)
    requires steps != [] && HandedAt(env, start, steps[..|steps| - 1], i, a, to, owner) && a.mint == b.mint
      && a.vault == b.vault
    ensures HandedAt(env, start, steps, i, b, to, owner)
  {
    var before := steps[..|steps| - 1];
    assert before[..i] == steps[..i] && before[..i + 1] == steps[..i + 1];
    hide Handed, Exec;
  }

  lemma HandedLast(env: Env, start: World, steps: seq<Step>, a: AssetRecord, to: Key, owner: Key)
    requires steps != []
    requires var w := Exec(env, start, steps[..|steps| - 1]);
      Handed(w.ledger, After(env, w, steps[|steps| - 1]).ledger, a.mint, a.vault, to, owner)
    ensures HandedAt(env, start, steps, |steps| - 1, a, to, owner)
  {
    assert steps[..|steps| - 1 + 1] == steps;
    assert Exec(env, start, steps) == After(env, Exec(env, start, steps[..|steps| - 1]), steps[|steps| - 1]);
    hide Handed, Exec, After;
  }

  lemma RunReaches(env: Env, start: World, steps: seq<Step>)
    requires Initial(env, start)
    ensures Reachable(env, Exec(env, start, steps)) && Inv(env, Exec(env, start, steps))
  {
    hide Initial, Inv, Exec;
    assert Reachable(env, Exec(env, start, steps));
    ReachableInv(env, Exec(env, start, steps));
  }

  // ----- Returned assets -----

  lemma OnlyReturnsReturn(env: Env, w: World, signer: Key, action: Action)
    requires Conserved(w.ledger) && !action.Return?
    ensures var r := Perform(env, w, signer, action); r.Ok? ==> r.value.core.returnedMask == w.core.returnedMask
  {
    hide Conserved, OpenAta, TransferOne, SettleLegs, Propose, Lock, RevokeLock, FinalizeLive, With, Has,
         RequireParticipant;
    if action.SettleDeal? {
      SettleKeepsReturned(env, w, action.required, action.legs);
    }
  }

  lemma SettleKeepsReturned(env: Env, w: World, required: LiveOwner, legs: Legs)
    requires Conserved(w.ledger)
    ensures var r := Settle(env, w.core, w.live, w.liveOwner, required, w.ledger, w.now, legs);
      r.Ok? ==> r.value.0.returnedMask == w.core.returnedMask
  {
    hide Conserved, Settle, SettleLegs, MaskOf, Has;
    if Settle(env, w.core, w.live, w.liveOwner, required, w.ledger, w.now, legs).Ok? {
      SettleGuarded(env, w.core, w.live, w.liveOwner, required, w.ledger, w.now, legs);
    }
  }

  lemma GuardedIsHeld(core: RoomCore, slot: nat)
    requires slot < 6 && MasksFit(core) && ReturnMaskGuard(core, slot).Pass?
    ensures Held(core, slot)
  {
    Returnable(core, slot);
    MinusHas(core.depositedMask, core.selectedMask, slot);
    hide Has, Minus, Within, Apart, MasksFit, OnePerSeat, ReturnMaskGuard;
  }

  lemma ReturnWorld(env: Env, w: World, signer: Key, t: Action)
    requires t.Return? && Perform(env, w, signer, t).Ok?
    ensures var r := ReturnAsset(env, w.core, w.ledger, t.slot, t.mint, t.vault, t.originalOwner, t.originalAta);
      r.Ok? && Perform(env, w, signer, t).value.core == r.value.0
        && Perform(env, w, signer, t).value.ledger == r.value.1
  {
    hide ReturnAsset;
  }

  lemma ReturnCallHands(env: Env, w: World, signer: Key, action: Action, slot: nat)
    requires Inv(env, w) && slot < 6 && action.Return? && Perform(env, w, signer, action).Ok?
    requires !Has(w.core.returnedMask, slot) && Has(Perform(env, w, signer, action).value.core.returnedMask, slot)
    ensures Held(w.core, slot)
    ensures var a := w.core.assets[slot];
      Handed(w.ledger, Perform(env, w, signer, action).value.ledger, a.mint, a.vault, a.originalAta, a.originalOwner)
  {
    InvParts(env, w);
    hide Inv, Conserved, MasksFit, Has, Handed, ReturnAsset, MarkReturned, ReturnMaskGuard,
         Preservation.OnlyMintMoves, Held;
    var t := action;
    ReturnWorld(env, w, signer, t);
    hide Perform;
    ReturnEffect(env, w.core, w.ledger, t.slot, t.mint, t.vault, t.originalOwner, t.originalAta);
    MarkedBits(w.core, t.slot, slot);
    GuardedIsHeld(w.core, slot);
    ReturnDelivers(env, w, slot);
  }

  /** Only an instruction that succeeds changes the core. */
  lemma CoreWriter(env: Env, w: World, step: Step)
    requires After(env, w, step).core != w.core
    ensures step.Call? && step.signer != env.VaultAuthority()
      && Perform(env, w, step.signer, step.action) == Ok(After(env, w, step))
  {
    hide Perform, Apply;
  }

  /** The step that sets a slot's returned bit is the one that brings the asset home. */
  lemma ReturnStepHands(env: Env, w: World, step: Step, slot: nat)
    requires Inv(env, w) && slot < 6
    requires !Has(w.core.returnedMask, slot) && Has(After(env, w, step).core.returnedMask, slot)
    ensures Has(w.core.depositedMask, slot)
    ensures var a := w.core.assets[slot];
      Handed(w.ledger, After(env, w, step).ledger, a.mint, a.vault, a.originalAta, a.originalOwner)
  {
    InvParts(env, w);
    CoreWriter(env, w, step);
    hide Inv, Conserved, MasksFit, Has, Handed, Perform, After;
    if step.action.Return? {
      ReturnCallHands(env, w, step.signer, step.action, slot);
    } else {
      OnlyReturnsReturn(env, w, step.signer, step.action);
    }
  }

  lemma MarkedBits(core: RoomCore, slot: nat, other: nat)
    requires slot < 6 && other < 6
    ensures Has(MarkReturned(core, slot).returnedMask, other) <==> Has(core.returnedMask, other) || other == slot
  {
    WithHas(core.returnedMask, slot, other);
  }

  lemma NothingAtStart(env: Env, start: World, slot: nat)
    requires Initial(env, start) && slot < 6
    ensures !Has(start.core.returnedMask, slot) && !Has(start.core.depositedMask, slot) && !WasSettled(start.core)
  {
    SlotsHas(slot);
    hide Has;
  }

  lemma ReturnedIsDeposited(env: Env, w: World, slot: nat)
    requires Inv(env, w) && slot < 6 && Has(w.core.returnedMask, slot)
    ensures Has(w.core.depositedMask, slot)
  {
    WithinHas(w.core.returnedMask, w.core.depositedMask, slot);
  }

  /** In every run, an asset that the core records as returned was handed, at some step, from its vault to its
      depositor's own account. */
  lemma {:induction false} ReturnedInRun(env: Env, start: World, steps: seq<Step>, slot: nat)
    requires Initial(env, start) && slot < 6 && Has(Exec(env, start, steps).core.returnedMask, slot)
    ensures var a := Exec(env, start, steps).core.assets[slot];
      exists i :: HandedAt(env, start, steps, i, a, a.originalAta, a.originalOwner)
  {
    hide Initial, Inv, Has, HandedAt, Handed, After, Conserved, MasksFit;
    if steps == [] {
      NothingAtStart(env, start, slot);
    } else {
      var before, last := steps[..|steps| - 1], steps[|steps| - 1];
      var w, w' := Exec(env, start, before), Exec(env, start, steps);
      RunReaches(env, start, before);
      InvParts(env, w);
      StepKeeps(env, w, last, slot);
      if Has(w.core.returnedMask, slot) {
        ReturnedInRun(env, start, before, slot);
        ReturnedIsDeposited(env, w, slot);
        var a, b := w.core.assets[slot], w'.core.assets[slot];
        var i :| HandedAt(env, start, before, i, a, a.originalAta, a.originalOwner);
        HandedEarlier(env, start, steps, i, a, b, a.originalAta, a.originalOwner);
      } else {
        ReturnStepHands(env, w, last, slot);
        var b := w'.core.assets[slot];
        HandedLast(env, start, steps, b, b.originalAta, b.originalOwner);
      }
    }
  }

  /** Every entry of the log that reports a return stands for such a step. */
  lemma LoggedReturn(env: Env, start: World, steps: seq<Step>, e: Event)
    requires Initial(env, start) && e in Exec(env, start, steps).events && e.AssetReturned?
    ensures e.slot < 6
    ensures var a := Exec(env, start, steps).core.assets[e.slot];
      && e.mint == a.mint && e.destination == a.originalAta
      && exists i :: HandedAt(env, start, steps, i, a, e.destination, a.originalOwner)
  {
    RunReaches(env, start, steps);
    LogMeans(env, Exec(env, start, steps), e);
    hide Initial, Inv, HandedAt, Exec, Has;
    ReturnedInRun(env, start, steps, e.slot);
  }

  lemma LogMeans(env: Env, w: World, e: Event)
    requires Inv(env, w) && e in w.events && e.AssetReturned?
    ensures e.slot < 6 && Has(w.core.returnedMask, e.slot)
    ensures e.mint == w.core.assets[e.slot].mint && e.destination == w.core.assets[e.slot].originalAta
  {
  }

  // ----- Traded assets -----

  /** The recipient of a leg of the deal on record. */
  function RecipientOf(w: World, leg: nat): Key
    requires leg < 3 && LegIndicesInRange(Current(w))
  {
    w.core.participants[Current(w).destinations[leg]]
  }

  function TradedAsset(w: World, leg: nat): AssetRecord
    requires leg < 3 && LegIndicesInRange(Current(w))
  {
    w.core.assets[Current(w).selectedSlots[leg]]
  }

  lemma CurrentInRange(env: Env, w: World)
    requires Inv(env, w)
    ensures LegIndicesInRange(Current(w))
  {
  }

  lemma LegAmong(env: Env, core: RoomCore, l: Ledger, live: RoomLive, legs: Legs, leg: nat)
    requires leg < 3 && LegIndicesInRange(live) && LegsCanonical(env, core, live, legs)
      && RecipientsReady(env, core, l, live)
    ensures legs[leg] == LegOf(env, core, live, leg) && RecipientReady(env, core, l, live, leg)
  {
    hide LegOf, RecipientReady;
  }

  lemma OneOfThree(l: Ledger, l': Ledger, legs: Legs, leg: nat, owner: Key)
    requires leg < 3 && ThreeMoved(l, l', legs)
    requires legs[leg].destination in l.accounts ==> l.accounts[legs[leg].destination].owner == owner
    ensures Handed(l, l', legs[leg].mint, legs[leg].vault, legs[leg].destination, owner)
  {
    hide Handed, Uninvolved;
  }

  function LegRecipient(core: RoomCore, live: RoomLive, leg: nat): Key
    requires leg < 3 && LegIndicesInRange(live)
  {
    core.participants[live.destinations[leg]]
  }

  lemma LegHanded(env: Env, core: RoomCore, live: RoomLive, l: Ledger, l': Ledger, legs: Legs, leg: nat)
    requires leg < 3 && LegIndicesInRange(live) && ThreeMoved(l, l', legs)
    requires LegsCanonical(env, core, live, legs) && RecipientsReady(env, core, l, live)
    ensures var a := LegOf(env, core, live, leg);
      Handed(l, l', a.mint, a.vault, a.destination, LegRecipient(core, live, leg))
  {
    LegAmong(env, core, l, live, legs, leg);
    hide ThreeMoved, LegsCanonical, RecipientsReady, Handed;
    OneOfThree(l, l', legs, leg, LegRecipient(core, live, leg));
  }

  lemma SettledLeg(env: Env, core: RoomCore, live: RoomLive, leg: nat)
    requires leg < 3 && LegIndicesInRange(live)
    ensures var a := SettledCore(env, core, live).assets[live.selectedSlots[leg]];
      LegAccounts(a.mint, a.vault, a.finalAta) == LegOf(env, core, live, leg)
    ensures SettledCore(env, core, live).participants == core.participants
  {
    hide MaskOf;
  }

  lemma SettledPerform(env: Env, w: World, signer: Key, required: LiveOwner, legs: Legs)
    requires Perform(env, w, signer, SettleDeal(required, legs)).Ok?
    ensures var r := Settle(env, w.core, w.live, w.liveOwner, required, w.ledger, w.now, legs);
      && r.Ok? && var w' := Perform(env, w, signer, SettleDeal(required, legs)).value;
         w'.core == r.value.0 && w'.ledger == r.value.1 && Current(w') == Current(w)
  {
    hide Settle;
  }

  lemma SettledWorld(env: Env, w: World, signer: Key, required: LiveOwner, legs: Legs)
    requires Reachable(env, w) && Perform(env, w, signer, SettleDeal(required, legs)).Ok?
    ensures LegIndicesInRange(w.live) && Settle(env, w.core, w.live, w.liveOwner, required, w.ledger, w.now, legs).Ok?
    ensures var w' := Perform(env, w, signer, SettleDeal(required, legs)).value;
      && w'.core == SettledCore(env, w.core, w.live) && Current(w') == w.live
      && w'.ledger == Settle(env, w.core, w.live, w.liveOwner, required, w.ledger, w.now, legs).value.1
  {
    ReachableInv(env, w);
    InvParts(env, w);
    SettledPerform(env, w, signer, required, legs);
    hide Reachable, Inv, Conserved, MasksFit, Settle, SettledCore, SettleLegs, Perform, AllocationHash;
    SettleGuarded(env, w.core, w.live, w.liveOwner, required, w.ledger, w.now, legs);
    SettlesCurrent(env, w);
  }

  /** The settlement step hands each leg's asset to its recipient. */
  lemma SettlementHands(env: Env, w: World, signer: Key, required: LiveOwner, legs: Legs, leg: nat)
    requires Reachable(env, w) && leg < 3 && Perform(env, w, signer, SettleDeal(required, legs)).Ok?
    ensures var w' := Perform(env, w, signer, SettleDeal(required, legs)).value;
      && LegIndicesInRange(Current(w')) && var a := TradedAsset(w', leg);
         Handed(w.ledger, w'.ledger, a.mint, a.vault, a.finalAta, RecipientOf(w', leg))
  {
    SettledWorld(env, w, signer, required, legs);
    hide Reachable, Perform, Settle, ThreeMoved, LegsCanonical, RecipientsReady, SettledCore, Handed;
    SettlementMovesThree(env, w, required, legs);
    LegHanded(env, w.core, w.live, w.ledger, Perform(env, w, signer, SettleDeal(required, legs)).value.ledger, legs,
              leg);
    SettledLeg(env, w.core, w.live, leg);
  }

  lemma SettledActionKeeps(env: Env, w: World, signer: Key, action: Action)
    requires Inv(env, w) && WasSettled(w.core)
    ensures var r := Perform(env, w, signer, action);
      r.Ok? ==> forall s :: 0 <= s < 6 ==> r.value.core.assets[s].finalAta == w.core.assets[s].finalAta
  {
    InvParts(env, w);
    hide Inv, Conserved, MasksFit, ReturnAsset, MarkReturned, ReturnMaskGuard, Preservation.OnlyMintMoves, Perform;
    if !action.Return? {
      DecidedAction(env, w, signer, action);
    } else {
      ReturnActionKeeps(env, w, signer, action);
    }
  }

  lemma ReturnActionKeeps(env: Env, w: World, signer: Key, action: Action)
    requires Conserved(w.ledger) && action.Return?
    ensures var r := Perform(env, w, signer, action);
      r.Ok? ==> forall s :: 0 <= s < 6 ==> r.value.core.assets[s].finalAta == w.core.assets[s].finalAta
  {
    hide Conserved, ReturnAsset, ReturnMaskGuard, Preservation.OnlyMintMoves, Covers, RequiredReturns, With;
    if Perform(env, w, signer, action).Ok? {
      ReturnEffect(env, w.core, w.ledger, action.slot, action.mint, action.vault, action.originalOwner,
                   action.originalAta);
    }
  }

  lemma SettledStepKeeps(env: Env, w: World, step: Step)
    requires Inv(env, w) && WasSettled(w.core)
    ensures forall s :: 0 <= s < 6 ==> After(env, w, step).core.assets[s].finalAta == w.core.assets[s].finalAta
  {
    hide Inv, Perform, WasSettled;
    if step.Call? {
      SettledActionKeeps(env, w, step.signer, step.action);
    }
  }

  lemma SettledIsFrozen(env: Env, w: World)
    requires Inv(env, w) && WasSettled(w.core)
    ensures CopiesFit(w) && Current(w).phase != Negotiating && LegIndicesInRange(Current(w))
    ensures Has(w.core.depositedMask, Current(w).selectedSlots[0])
      && Has(w.core.depositedMask, Current(w).selectedSlots[1])
    ensures Has(w.core.depositedMask, Current(w).selectedSlots[2])
  {
    var s := Current(w).selectedSlots;
    SlotsHas(s[0]);
    SlotsHas(s[1]);
    SlotsHas(s[2]);
    hide LogFits, Custody, LocksFit, Consent, ProgressFits, ReturnsFit, AssetFits, DistinctMints, LegRecorded, MaskOf,
         Has, OnePerSeat;
  }

  lemma SettlingStep(env: Env, w: World, step: Step)
    requires Conserved(w.ledger) && MasksFit(w.core) && !WasSettled(w.core) && WasSettled(After(env, w, step).core)
    ensures step.Call? && step.signer != env.VaultAuthority() && step.action.SettleDeal?
      && Perform(env, w, step.signer, step.action).Ok?
  {
    hide Conserved, MasksFit, DepositAsset, Settle, ReturnAsset, Propose, Lock, RevokeLock, FinalizeLive,
         RequireParticipant, MarkReturned, ReturnMaskGuard, Preservation.OnlyMintMoves, Apply;
    if step.Call? && step.signer != env.VaultAuthority() {
      var t := step.action;
      if t.Return? {
        ReturnEffect(env, w.core, w.ledger, t.slot, t.mint, t.vault, t.originalOwner, t.originalAta);
        ReturnMasks(w.core, t.slot);
      } else if t.Deposit? {
        DepositStatus(env, w.core, w.ledger, w.now, step.signer, t.slot, t.mint, t.source, t.vault);
      }
    }
  }

  lemma DepositStatus(env: Env, core: RoomCore, l: Ledger, now: i64, signer: Key, slot: byte, mint: Key, source: Key,
                      vault: Key)
    ensures var r := DepositAsset(env, core, l, now, signer, slot, mint, source, vault); r.Ok? ==>
      r.value.0.status == core.status
  {
    hide OpenAta, TransferOne, Has, With, MintTaken;
  }

  lemma SettlingStepHands(env: Env, w: World, step: Step, leg: nat)
    requires Reachable(env, w) && leg < 3 && !WasSettled(w.core) && WasSettled(After(env, w, step).core)
    ensures var w' := After(env, w, step);
      && LegIndicesInRange(Current(w')) && var a := TradedAsset(w', leg);
         Handed(w.ledger, w'.ledger, a.mint, a.vault, a.finalAta, RecipientOf(w', leg))
  {
    ReachableInv(env, w);
    InvParts(env, w);
    hide Reachable, Inv, Conserved, MasksFit, WasSettled, Perform, Handed;
    SettlingStep(env, w, step);
    SettlementHands(env, w, step.signer, step.action.required, step.action.legs, leg);
  }

  /** What a later step leaves of a settled deal: the same live record, the same accounts on record, the same roster. */
  lemma SettledStepSame(env: Env, w: World, step: Step, leg: nat)
    requires Reachable(env, w) && leg < 3 && WasSettled(w.core)
    ensures var w' := After(env, w, step);
      && LegIndicesInRange(Current(w)) && LegIndicesInRange(Current(w'))
      && var a, b := TradedAsset(w, leg), TradedAsset(w', leg);
         a.mint == b.mint && a.vault == b.vault && a.finalAta == b.finalAta
           && RecipientOf(w, leg) == RecipientOf(w', leg)
  {
    hide Reachable, Inv, Conserved, MasksFit, WasSettled, After, Has, CopiesFit;
    ReachableInv(env, w);
    ReachableNext(env, w, step);
    ReachableInv(env, After(env, w, step));
    CurrentInRange(env, After(env, w, step));
    var slot := SettledSlot(env, w, leg);
    InvParts(env, w);
    SettledStepKeeps(env, w, step);
    StepKeeps(env, w, step, slot);
    FrozenStep(env, w, step);
    StepTerms(env, w, step);
  }

  lemma SettledSlot(env: Env, w: World, leg: nat) returns (slot: nat)
    requires Inv(env, w) && WasSettled(w.core) && leg < 3
    ensures LegIndicesInRange(Current(w)) && slot == Current(w).selectedSlots[leg] && slot < 6
      && Has(w.core.depositedMask, slot)
    ensures CopiesFit(w) && Current(w).phase != Negotiating
  {
    hide Inv, WasSettled, Has, CopiesFit;
    SettledIsFrozen(env, w);
    slot := Current(w).selectedSlots[leg];
  }

  lemma StepTerms(env: Env, w: World, step: Step)
    requires Reachable(env, w)
    ensures SameTerms(w.core, After(env, w, step).core)
  {
    hide Reachable, SameTerms, After;
    TermsForever(env, w, [step]);
    assert [step][..0] == [] && Exec(env, w, [step]) == After(env, Exec(env, w, []), step);
  }

  /** In every run, each asset of the settled deal was handed, at some step, from its vault to its recipient. */
  lemma {:induction false} TradedInRun(env: Env, start: World, steps: seq<Step>, leg: nat)
    requires Initial(env, start) && leg < 3 && WasSettled(Exec(env, start, steps).core)
    ensures var w := Exec(env, start, steps);
      && LegIndicesInRange(Current(w)) && var a := TradedAsset(w, leg);
         exists i :: HandedAt(env, start, steps, i, a, a.finalAta, RecipientOf(w, leg))
  {
    hide Initial, Inv, Reachable, WasSettled, HandedAt, Handed, After, LegIndicesInRange, TradedAsset, RecipientOf;
    if steps == [] {
      NothingAtStart(env, start, 0);
    } else {
      var before, last := steps[..|steps| - 1], steps[|steps| - 1];
      var w, w' := Exec(env, start, before), Exec(env, start, steps);
      RunReaches(env, start, before);
      if WasSettled(w.core) {
        TradedInRun(env, start, before, leg);
        SettledStepSame(env, w, last, leg);
        var a, b := TradedAsset(w, leg), TradedAsset(w', leg);
        var i :| HandedAt(env, start, before, i, a, a.finalAta, RecipientOf(w, leg));
        HandedEarlier(env, start, steps, i, a, b, a.finalAta, RecipientOf(w, leg));
      } else {
        SettlingStepHands(env, w, last, leg);
        HandedLast(env, start, steps, TradedAsset(w', leg), TradedAsset(w', leg).finalAta, RecipientOf(w', leg));
      }
    }
  }

  // ----- Where everything ends up -----

  /** The seat's slot that `chosen` leaves behind. */
  function OtherSlot(seat: nat, chosen: nat): nat
    requires seat < 3 && (chosen == 2 * seat || chosen == 2 * seat + 1)
  {
    4 * seat + 1 - chosen
  }

  /** The seat's chosen asset went from its vault to the next participant on the cycle, who is somebody else. */
  ghost predicate SeatTraded(env: Env, start: World, steps: seq<Step>, p: Event, seat: nat)
    requires seat < 3 && p.ProposalChanged? && SlotsInRange(p.slots)
  {
    var w := Exec(env, start, steps);
    var next := DestinationsFor(p.cycle)[seat];
    && next < 3 && next != seat
    && var recipient, chosen := w.core.participants[next], w.core.assets[p.slots[seat]];
       && Has(w.core.selectedMask, p.slots[seat]) && chosen.finalAta == env.ata(recipient, chosen.mint)
       && (exists i :: HandedAt(env, start, steps, i, chosen, chosen.finalAta, recipient))
  }

  /** The seat's other asset went from its vault back to the seat's own account, and the log says so. */
  ghost predicate SeatKept(env: Env, start: World, steps: seq<Step>, p: Event, seat: nat)
    requires seat < 3 && p.ProposalChanged? && SlotsInRange(p.slots)
  {
    var w := Exec(env, start, steps);
    var kept := w.core.assets[OtherSlot(seat, p.slots[seat])];
    && kept.originalOwner == w.core.participants[seat]
       && kept.originalAta == env.ata(w.core.participants[seat], kept.mint)
    && AssetReturned(OtherSlot(seat, p.slots[seat]), kept.mint, kept.originalAta) in w.events
    && (exists i :: HandedAt(env, start, steps, i, kept, kept.originalAta, kept.originalOwner))
  }

  ghost predicate SeatServed(env: Env, start: World, steps: seq<Step>, p: Event, seat: nat)
    requires seat < 3 && p.ProposalChanged? && SlotsInRange(p.slots)
  {
    SeatTraded(env, start, steps, p, seat) && SeatKept(env, start, steps, p, seat)
  }

  lemma UnselectedReturned(core: RoomCore, slots: Bytes3, seat: nat)
    requires MasksFit(core) && core.status == Complete && SlotsInRange(slots) && core.selectedMask == MaskOf(slots)
      && seat < 3
    ensures Has(core.returnedMask, OtherSlot(seat, slots[seat])) && Has(core.selectedMask, slots[seat])
    ensures Has(core.depositedMask, OtherSlot(seat, slots[seat]))
  {
    var other := OtherSlot(seat, slots[seat]);
    MaskOfHas(slots, other);
    MaskOfHas(slots, slots[seat]);
    MinusHas(core.depositedMask, core.selectedMask, other);
  }

  lemma KeptRecord(env: Env, core: RoomCore, slot: nat)
    requires slot < 6 && CoreFits(env, core) && Has(core.depositedMask, slot)
    ensures core.assets[slot].originalOwner == core.participants[slot / 2]
    ensures core.assets[slot].originalAta == env.ata(core.participants[slot / 2], core.assets[slot].mint)
  {
    assert AssetFits(env, core, slot);
    hide MasksFit, DistinctMints;
  }

  lemma CompleteParts(env: Env, w: World)
    requires Inv(env, w) && w.core.status == Complete
    ensures w.core.returnedMask == Minus(SLOTS, w.core.selectedMask) && WasSettled(w.core)
    ensures CoreFits(env, w.core) && MasksFit(w.core) && ReturnsFit(w.core, w.events)
    ensures w.core.settledRevision == Current(w).revision && LegIndicesInRange(Current(w))
    ensures Current(w).revision > 0 ==> IsProposalOf(History.Proposals(w.events, Current(w).revision)[0], Current(w))
  {
    hide LogFits, Custody, CopiesFit, ProgressFits, LocksFit, SeatSpoke, NoEarlyLocks, AssetFits, DistinctMints,
         LegRecorded, MaskOf;
  }

  lemma TradeSeat(env: Env, start: World, steps: seq<Step>, p: Event, seat: nat)
    requires Initial(env, start) && seat < 3
    requires var w := Exec(env, start, steps);
      WasSettled(w.core) && DealOf(env, w.core, p) && LegIndicesInRange(Current(w)) && IsProposalOf(p, Current(w))
    ensures SeatTraded(env, start, steps, p, seat)
  {
    hide MaskOf, AllocationHash, Initial, HandedAt, Exec, WasSettled, Has;
    var w := Exec(env, start, steps);
    MaskOfHas(p.slots, p.slots[seat]);
    Derangement(p.cycle);
    TradedInRun(env, start, steps, seat);
  }

  lemma KeptOnRecord(env: Env, core: RoomCore, events: seq<Event>, slots: Bytes3, seat: nat)
    requires seat < 3 && SlotsInRange(slots) && core.status == Complete && core.selectedMask == MaskOf(slots)
    requires CoreFits(env, core) && MasksFit(core) && ReturnsFit(core, events)
    ensures var kept := core.assets[OtherSlot(seat, slots[seat])];
      && Has(core.returnedMask, OtherSlot(seat, slots[seat]))
      && kept.originalOwner == core.participants[seat]
         && kept.originalAta == env.ata(core.participants[seat], kept.mint)
      && AssetReturned(OtherSlot(seat, slots[seat]), kept.mint, kept.originalAta) in events
  {
    var other := OtherSlot(seat, slots[seat]);
    UnselectedReturned(core, slots, seat);
    hide MasksFit, MaskOf, Has, CoreFits;
    KeptRecord(env, core, other);
    assert other / 2 == seat;
  }

  lemma KeepSeat(env: Env, start: World, steps: seq<Step>, p: Event, seat: nat)
    requires Initial(env, start) && seat < 3 && p.ProposalChanged? && SlotsInRange(p.slots)
    requires var w := Exec(env, start, steps);
      && w.core.status == Complete && CoreFits(env, w.core) && MasksFit(w.core) && ReturnsFit(w.core, w.events)
      && w.core.selectedMask == MaskOf(p.slots)
    ensures SeatKept(env, start, steps, p, seat)
  {
    var w := Exec(env, start, steps);
    hide CoreFits, MasksFit, MaskOf, ReturnsFit, Initial, HandedAt, Exec, Has;
    KeptOnRecord(env, w.core, w.events, p.slots, seat);
    ReturnedInRun(env, start, steps, OtherSlot(seat, p.slots[seat]));
  }

  lemma ServeSeat(env: Env, start: World, steps: seq<Step>, p: Event, seat: nat)
    requires Initial(env, start) && seat < 3
    requires var w := Exec(env, start, steps);
      && w.core.status == Complete && WasSettled(w.core) && CoreFits(env, w.core) && MasksFit(w.core)
         && ReturnsFit(w.core, w.events)
      && DealOf(env, w.core, p) && LegIndicesInRange(Current(w)) && IsProposalOf(p, Current(w))
    ensures SeatServed(env, start, steps, p, seat)
  {
    hide CoreFits, MasksFit, MaskOf, ReturnsFit, Initial, Exec, WasSettled, IsProposalOf, SeatTraded, SeatKept,
         AllocationHash;
    TradeSeat(env, start, steps, p, seat);
    KeepSeat(env, start, steps, p, seat);
  }

  /** A complete room served every seat of the one deal all of them locked, token by token, in whatever run led
      to it. */
  lemma CompleteRoom(env: Env, start: World, steps: seq<Step>)
    requires Initial(env, start) && Exec(env, start, steps).core.status == Complete
    requires UnproposedHash(env, Exec(env, start, steps).core) != ZERO_HASH
    ensures var w := Exec(env, start, steps);
      && w.core.returnedMask == Minus(SLOTS, w.core.selectedMask)
      && var deals := History.Proposals(w.events, w.core.settledRevision);
         && |deals| == 1 && DealOf(env, w.core, deals[0])
         && forall seat :: 0 <= seat < 3 ==> SeatServed(env, start, steps, deals[0], seat)
  {
    var w := Exec(env, start, steps);
    RunReaches(env, start, steps);
    CompleteParts(env, w);
    hide Initial, Inv, Reachable, Exec, CoreFits, MasksFit, ReturnsFit, DealOf, History.Stands, UnproposedHash,
         SeatServed, IsProposalOf, WasSettled;
    UnanimousExactConsent(env, w);
    forall seat | 0 <= seat < 3
      ensures SeatServed(env, start, steps, History.Proposals(w.events, w.core.settledRevision)[0], seat)
    {
      ServeSeat(env, start, steps, History.Proposals(w.events, w.core.settledRevision)[0], seat);
    }
  }

  /** A closed room gave every deposited asset back: some step of the run handed it from its vault to its depositor's
      own canonical account. */
  lemma ClosedRoom(env: Env, start: World, steps: seq<Step>, slot: nat)
    requires Initial(env, start) && Exec(env, start, steps).core.status == Closed
    requires slot < 6 && Has(Exec(env, start, steps).core.depositedMask, slot)
    ensures var w := Exec(env, start, steps);
      var a := w.core.assets[slot];
      && a.originalOwner == w.core.participants[slot / 2]
      && a.originalAta == env.ata(w.core.participants[slot / 2], a.mint)
      && AssetReturned(slot, a.mint, a.originalAta) in w.events
      && exists i :: HandedAt(env, start, steps, i, a, a.originalAta, a.originalOwner)
  {
    var w := Exec(env, start, steps);
    RunReaches(env, start, steps);
    ClosedParts(env, w, slot);
    KeptRecord(env, w.core, slot);
    hide Initial, Inv, CoreFits, Exec, HandedAt, Has;
    ReturnedInRun(env, start, steps, slot);
  }

  lemma ClosedParts(env: Env, w: World, slot: nat)
    requires Inv(env, w) && w.core.status == Closed && slot < 6 && Has(w.core.depositedMask, slot)
    ensures CoreFits(env, w.core) && Has(w.core.returnedMask, slot)
    ensures AssetReturned(slot, w.core.assets[slot].mint, w.core.assets[slot].originalAta) in w.events
  {
    hide LogFits, Custody, CopiesFit, ProgressFits, LiveFits, Consent, SettlementFits, AssetFits, DistinctMints;
  }
}
