/** Where the six assets are: in custody, and in the three transfers of a settlement. */
module CustodyLaws {
  import opened Wire
  import opened Masks
  import opened Records
  import opened Tokens
  import opened Allocation
  import opened Rules
  import opened Machine
  import opened Invariant
  import Preservation
  import opened Settlement
  import Agreement

  // ----- Custody in every reachable state -----

  /** Each deposited asset is in exactly one of three places by the books, and an asset that is held really is the sole
      token of its mint, sitting in its own vault. */
  lemma CustodyHolds(env: Env, w: World, slot: nat)
    requires Reachable(env, w) && slot < 6 && Has(w.core.depositedMask, slot)
    ensures var a := w.core.assets[slot];
      && (if Held(w.core, slot) then a.flags == DEPOSITED
          else if Has(w.core.selectedMask, slot) then a.flags == DEPOSITED | SELECTED | TRANSFERRED
            && !Has(w.core.returnedMask, slot)
          else a.flags == DEPOSITED | RETURNED && Has(w.core.returnedMask, slot))
      && (Held(w.core, slot) ==>
          a.vault == env.VaultOf(a.mint) && VaultHolds(env, a, w.ledger) && SoleHolder(w.ledger, a.mint, a.vault))
  {
    ReachableInv(env, w);
    assert AssetFits(env, w.core, slot) && SlotInCustody(env, w.core, w.ledger, slot);
    ApartHas(w.core.returnedMask, w.core.selectedMask, slot);
    hide LogFits, LiveFits, CopiesFit, Consent, SettlementFits, ProgressFits, ReturnsFit, DistinctMints;
    if Held(w.core, slot) {
      SupplyOneHasSoleHolder(w.ledger, w.core.assets[slot].vault);
    }
  }

  /** Two assets in custody never share a vault. */
  lemma VaultsDistinct(env: Env, w: World, s: nat, t: nat)
    requires Reachable(env, w) && s < 6 && t < 6 && s != t && Held(w.core, s) && Held(w.core, t)
    ensures w.core.assets[s].vault != w.core.assets[t].vault
  {
    ReachableInv(env, w);
    hide LogFits, LiveFits, CopiesFit, Consent, SettlementFits, ProgressFits, ReturnsFit, AssetFits, MasksFit,
         Conserved;
    assert SlotInCustody(env, w.core, w.ledger, s) && SlotInCustody(env, w.core, w.ledger, t);
    assert w.core.assets[s].mint != w.core.assets[t].mint;
  }

  /** A deposited asset whose mint still has its one token is held by exactly one account, wherever it has gone
      since. */
  lemma OneHolder(env: Env, w: World, slot: nat)
    requires Reachable(env, w) && slot < 6 && Has(w.core.depositedMask, slot)
    ensures var mint := w.core.assets[slot].mint;
      && mint in w.ledger.mints && w.ledger.mints[mint].supply <= 1
      && (w.ledger.mints[mint].supply == 1 ==>
            && (exists k :: SoleHolder(w.ledger, mint, k))
            && (forall j, k :: SoleHolder(w.ledger, mint, j) && SoleHolder(w.ledger, mint, k) ==> j == k))
  {
    ReachableInv(env, w);
    assert SlotInCustody(env, w.core, w.ledger, slot);
    hide LogFits, LiveFits, CopiesFit, Consent, SettlementFits, ProgressFits, ReturnsFit, CoreFits, SoleHolder,
         Conserved;
    if w.ledger.mints[w.core.assets[slot].mint].supply == 1 {
      SupplyOneIsSomewhere(w.ledger, w.core.assets[slot].mint);
    }
  }

  // ----- When a settlement succeeds, and what it moves -----

  function LegOf(env: Env, core: RoomCore, live: RoomLive, leg: nat): LegAccounts
    requires leg < 3 && LegIndicesInRange(live)
  {
    var a := core.assets[live.selectedSlots[leg]];
    LegAccounts(a.mint, a.vault, env.ata(core.participants[live.destinations[leg]], a.mint))
  }

  /** The recipient's canonical account of the asset exists, is theirs and is not frozen. */
  predicate RecipientReady(env: Env, core: RoomCore, l: Ledger, live: RoomLive, leg: nat)
    requires leg < 3 && LegIndicesInRange(live)
  {
    var accounts := LegOf(env, core, live, leg);
    && accounts.destination in l.accounts
    && l.accounts[accounts.destination].mint == accounts.mint
    && l.accounts[accounts.destination].owner == core.participants[live.destinations[leg]]
    && !l.accounts[accounts.destination].frozen
  }

  predicate LegFunded(env: Env, core: RoomCore, l: Ledger, live: RoomLive, leg: nat)
    requires leg < 3 && LegIndicesInRange(live)
  {
    var a := core.assets[live.selectedSlots[leg]];
    && VaultHolds(env, a, l) && a.mint in l.mints && MintEligible(l.mints[a.mint])
    && core.participants[live.destinations[leg]] != env.VaultAuthority()
  }

  /** One token from one account to another, if both exist and there is one to move. */
  function MoveOne(l: Ledger, from: Key, to: Key): Ledger {
    if from in l.accounts && to in l.accounts && l.accounts[from].amount > 0 then
      l.(accounts := l.accounts[from := l.accounts[from].(amount := l.accounts[from].amount - 1)]
                               [to := l.accounts[to].(amount := l.accounts[to].amount + 1)])
    else l
  }

  lemma LegIff(env: Env, core: RoomCore, l: Ledger, live: RoomLive, accounts: LegAccounts, leg: nat)
    requires leg < 3 && LegIndicesInRange(live) && LegFunded(env, core, l, live, leg)
    ensures var r := SettleLeg(env, core, l, live, accounts, leg);
      && (r.Ok? <==> accounts == LegOf(env, core, live, leg) && RecipientReady(env, core, l, live, leg))
      && (r.Ok? ==> accounts.vault != accounts.destination
                    && r.value == (MarkLeg(core, live.selectedSlots[leg], accounts.destination),
                                   MoveOne(l, accounts.vault, accounts.destination)))
  {
  }

  /** One leg's transfer leaves every other leg as ready, or as unready, as it was. */
  lemma OtherLegUnmoved(env: Env, core: RoomCore, l: Ledger, live: RoomLive, leg: nat, other: nat)
    requires leg < 3 && other < 3 && leg != other && LegIndicesInRange(live)
    requires LegFunded(env, core, l, live, leg) && LegFunded(env, core, l, live, other)
    requires RecipientReady(env, core, l, live, leg)
    requires core.assets[live.selectedSlots[leg]].mint != core.assets[live.selectedSlots[other]].mint
    ensures var a := LegOf(env, core, live, leg);
      var core', l' := MarkLeg(core, live.selectedSlots[leg], a.destination), MoveOne(l, a.vault, a.destination);
      && LegFunded(env, core', l', live, other)
      && LegOf(env, core', live, other) == LegOf(env, core, live, other)
      && (RecipientReady(env, core', l', live, other) <==> RecipientReady(env, core, l, live, other))
  {
  }

  predicate LegsCanonical(env: Env, core: RoomCore, live: RoomLive, legs: Legs)
    requires LegIndicesInRange(live)
  {
    legs[0] == LegOf(env, core, live, 0) && legs[1] == LegOf(env, core, live, 1) && legs[2] == LegOf(env, core, live, 2)
  }

  predicate RecipientsReady(env: Env, core: RoomCore, l: Ledger, live: RoomLive)
    requires LegIndicesInRange(live)
  {
    RecipientReady(env, core, l, live, 0) && RecipientReady(env, core, l, live, 1)
      && RecipientReady(env, core, l, live, 2)
  }

  ghost predicate AllLegsFunded(env: Env, core: RoomCore, l: Ledger, live: RoomLive)
    requires LegIndicesInRange(live)
  {
    && (forall leg :: 0 <= leg < 3 ==> LegFunded(env, core, l, live, leg))
    && (forall i, j :: 0 <= i < 3 && 0 <= j < 3 && i != j ==>
          core.assets[live.selectedSlots[i]].mint != core.assets[live.selectedSlots[j]].mint)
  }

  lemma ActiveLegsFunded(env: Env, core: RoomCore, l: Ledger, live: RoomLive)
    requires CoreFits(env, core) && Custody(env, core, l) && core.status == Active && LegIndicesInRange(live)
    ensures AllLegsFunded(env, core, l, live)
  {
    forall leg | 0 <= leg < 3
      ensures LegFunded(env, core, l, live, leg)
    {
      var slot, d := live.selectedSlots[leg], live.destinations[leg];
      assert SlotInCustody(env, core, l, slot) && AssetFits(env, core, slot) && AssetFits(env, core, 2 * d);
      hide SlotInCustody, AssetFits, Custody, LegFunded, Has;
      ActiveLegFunded(env, core, l, live, leg);
    }
  }

  lemma ActiveLegFunded(env: Env, core: RoomCore, l: Ledger, live: RoomLive, leg: nat)
    requires leg < 3 && LegIndicesInRange(live) && core.status == Active
    requires core.depositedMask == SLOTS && core.selectedMask == 0 && core.returnedMask == 0
    requires SlotInCustody(env, core, l, live.selectedSlots[leg])
    requires AssetFits(env, core, live.selectedSlots[leg]) && AssetFits(env, core, 2 * live.destinations[leg])
    ensures LegFunded(env, core, l, live, leg)
  {
    Derangement(live.cycle);
  }

  /** Three legs succeed exactly on the canonical accounts with ready recipients, and then they move exactly three
      tokens, one after the other. */
  lemma LegsIff(env: Env, core: RoomCore, l: Ledger, live: RoomLive, legs: Legs)
    requires LegIndicesInRange(live) && AllLegsFunded(env, core, l, live)
    ensures SettleLegs(env, core, l, live, legs, 3).Ok?
      <==> LegsCanonical(env, core, live, legs) && RecipientsReady(env, core, l, live)
    ensures SettleLegs(env, core, l, live, legs, 3).Ok? ==>
      SettleLegs(env, core, l, live, legs, 3).value.1
      == MoveOne(MoveOne(MoveOne(l, legs[0].vault, legs[0].destination), legs[1].vault, legs[1].destination),
                 legs[2].vault, legs[2].destination)
  {
    hide SettleLeg, LegFunded, RecipientReady, MarkLeg, MoveOne;
    var r1 := SettleLegs(env, core, l, live, legs, 1);
    var r2 := SettleLegs(env, core, l, live, legs, 2);
    var r3 := SettleLegs(env, core, l, live, legs, 3);
    var s := live.selectedSlots;
    assert SettleLegs(env, core, l, live, legs, 0) == Ok((core, l, 0));
    assert (r1.Err? ==> r2.Err?) && (r2.Err? ==> r3.Err?);
    LegIff(env, core, l, live, legs[0], 0);
    if r1.Ok? {
      OtherLegUnmoved(env, core, l, live, 0, 1);
      OtherLegUnmoved(env, core, l, live, 0, 2);
      var c1, l1 := r1.value.0, r1.value.1;
      SlotsKeepMints(core, s, 0, legs[0].destination);
      LegIff(env, c1, l1, live, legs[1], 1);
      if r2.Ok? {
        OtherLegUnmoved(env, c1, l1, live, 1, 2);
        LegIff(env, r2.value.0, r2.value.1, live, legs[2], 2);
      }
    }
  }

  lemma SlotsKeepMints(core: RoomCore, s: Bytes3, leg: nat, destination: Key)
    requires SlotsInRange(s) && leg < 3
    ensures forall t :: 0 <= t < 6 ==> MarkLeg(core, s[leg], destination).assets[t].mint == core.assets[t].mint
  {
  }

  lemma SettleUnfolds(env: Env, core: RoomCore, live: RoomLive, liveOwner: LiveOwner, required: LiveOwner, l: Ledger,
                      now: i64, legs: Legs)
    requires LegIndicesInRange(live)
    ensures Settle(env, core, live, liveOwner, required, l, now, legs).Ok?
      <==>
        && SettlementGuard(env, core, live, liveOwner, required, now).Pass?
        && SettleLegs(env, core, l, live, legs, 3).Ok?
  {
    hide SettleLegs, ValidateLockSet, ValidateSelection;
  }

  /** Past the guard, settlement succeeds exactly when the caller names the canonical accounts and every recipient's
      account is there to receive. */
  lemma GuardedDealSettles(env: Env, w: World, required: LiveOwner, legs: Legs)
    requires Reachable(env, w) && w.core.status == Active && LegIndicesInRange(w.live)
    requires SettlementGuard(env, w.core, w.live, w.liveOwner, required, w.now).Pass?
    ensures Settle(env, w.core, w.live, w.liveOwner, required, w.ledger, w.now, legs).Ok?
      <==> LegsCanonical(env, w.core, w.live, legs) && RecipientsReady(env, w.core, w.ledger, w.live)
  {
    ReachableInv(env, w);
    hide LogFits, LiveFits, CopiesFit, Consent, SettlementFits, ProgressFits, ReturnsFit, CoreFits, Custody,
         SettlementGuard, Settle, SettleLegs, LegsCanonical, RecipientsReady, AllLegsFunded;
    ActiveLegsFunded(env, w.core, w.ledger, w.live);
    LegsIff(env, w.core, w.ledger, w.live, legs);
    SettleUnfolds(env, w.core, w.live, w.liveOwner, required, w.ledger, w.now, legs);
  }

  lemma LiveLegsInRange(env: Env, w: World)
    requires Reachable(env, w)
    ensures LegIndicesInRange(w.live)
  {
    ReachableInv(env, w);
  }

  /** Revalidation never blocks an honest deal. In any reachable room that is active and unexpired, with the finalized
      live record on base under the owner the entry point expects, settlement succeeds exactly when somebody proposed
      the deal, the caller names the canonical accounts and every recipient's account is there to receive. */
  lemma HonestDealSettles(env: Env, w: World, required: LiveOwner, legs: Legs)
    requires Reachable(env, w) && w.core.status == Active && w.now < w.core.expiresAt
    requires w.live.phase == Finalized && w.liveOwner == required
    requires Agreement.UnproposedHash(env, w.core) != ZERO_HASH
    ensures LegIndicesInRange(w.live)
    ensures Settle(env, w.core, w.live, w.liveOwner, required, w.ledger, w.now, legs).Ok?
      <==>
        && w.live.revision > 0 && LegsCanonical(env, w.core, w.live, legs)
        && RecipientsReady(env, w.core, w.ledger, w.live)
  {
    Agreement.SettlesIffProposed(env, w);
    LiveLegsInRange(env, w);
    hide Reachable, SettlementGuard, SettleLegs, LegsCanonical, RecipientsReady, Agreement.UnproposedHash;
    if w.live.revision > 0 {
      GuardedDealSettles(env, w, required, legs);
    }
  }

  /** `k` is none of the vaults and destinations of the three legs. */
  predicate Uninvolved(legs: Legs, k: Key) {
    forall i :: 0 <= i < 3 ==> k != legs[i].vault && k != legs[i].destination
  }

  lemma LegEnds(env: Env, core: RoomCore, l: Ledger, live: RoomLive, legs: Legs, leg: nat)
    requires leg < 3 && LegIndicesInRange(live) && LegFunded(env, core, l, live, leg)
    requires RecipientReady(env, core, l, live, leg)
    requires legs[leg] == LegOf(env, core, live, leg)
    ensures var a := legs[leg];
      && a.vault in l.accounts && a.destination in l.accounts && a.vault != a.destination
      && l.accounts[a.vault].mint == a.mint && l.accounts[a.destination].mint == a.mint
         && l.accounts[a.vault].amount == 1
      && a.mint in l.mints && l.mints[a.mint].supply == 1
  {
  }

  /** Three accounts to empty and three to fill, each pair of its own mint. */
  ghost predicate ThreeEnds(l: Ledger, legs: Legs) {
    && (forall i :: 0 <= i < 3 ==>
          && legs[i].vault in l.accounts && legs[i].destination in l.accounts && legs[i].vault != legs[i].destination
          && l.accounts[legs[i].vault].mint == legs[i].mint && l.accounts[legs[i].destination].mint == legs[i].mint
          && l.accounts[legs[i].vault].amount == 1
          && legs[i].mint in l.mints && l.mints[legs[i].mint].supply == 1)
    && legs[0].mint != legs[1].mint && legs[0].mint != legs[2].mint && legs[1].mint != legs[2].mint
  }

  lemma FundedEnds(env: Env, core: RoomCore, l: Ledger, live: RoomLive, legs: Legs)
    requires LegIndicesInRange(live) && AllLegsFunded(env, core, l, live)
    requires LegsCanonical(env, core, live, legs) && RecipientsReady(env, core, l, live)
    ensures ThreeEnds(l, legs)
  {
    assert LegFunded(env, core, l, live, 0) && LegFunded(env, core, l, live, 1) && LegFunded(env, core, l, live, 2);
    LegEnds(env, core, l, live, legs, 0);
    LegEnds(env, core, l, live, legs, 1);
    LegEnds(env, core, l, live, legs, 2);
    hide LegFunded, RecipientReady;
    assert legs[0].mint != legs[1].mint && legs[0].mint != legs[2].mint && legs[1].mint != legs[2].mint;
  }

  function MoveThree(l: Ledger, legs: Legs): Ledger {
    MoveOne(MoveOne(MoveOne(l, legs[0].vault, legs[0].destination), legs[1].vault, legs[1].destination),
            legs[2].vault, legs[2].destination)
  }

  lemma ThreeMoves(l: Ledger, legs: Legs)
    requires ThreeEnds(l, legs)
    ensures var l' := MoveThree(l, legs);
      && l'.mints == l.mints && l'.accounts.Keys == l.accounts.Keys
      && (forall i :: 0 <= i < 3 ==>
            && l'.accounts[legs[i].vault] == l.accounts[legs[i].vault].(amount := 0)
            && l'.accounts[legs[i].destination]
               == l.accounts[legs[i].destination].(amount := l.accounts[legs[i].destination].amount + 1))
      && (forall k :: k in l.accounts && Uninvolved(legs, k) ==> l'.accounts[k] == l.accounts[k])
  {
    var l1 := MoveOne(l, legs[0].vault, legs[0].destination);
    var l2 := MoveOne(l1, legs[1].vault, legs[1].destination);
    assert l1.accounts.Keys == l.accounts.Keys && l2.accounts.Keys == l.accounts.Keys;
  }

  /** Each vault is left empty, each recipient's account is the sole holder of its asset, and nothing else changed. */
  ghost predicate ThreeMoved(l: Ledger, l': Ledger, legs: Legs) {
    && (forall i :: 0 <= i < 3 ==>
          && legs[i].destination in l.accounts
          && Handed(l, l', legs[i].mint, legs[i].vault, legs[i].destination, l.accounts[legs[i].destination].owner))
    && (forall k :: k in l.accounts && Uninvolved(legs, k) ==> k in l'.accounts && l'.accounts[k] == l.accounts[k])
  }

  lemma MovedExactly(l: Ledger, legs: Legs)
    requires ThreeEnds(l, legs) && Conserved(l) && Conserved(MoveThree(l, legs))
    ensures ThreeMoved(l, MoveThree(l, legs), legs)
  {
    hide Conserved, SoleHolder, Uninvolved, MoveThree;
    ThreeMoves(l, legs);
    var l' := MoveThree(l, legs);
    forall i | 0 <= i < 3
      ensures SoleHolder(l, legs[i].mint, legs[i].vault) && SoleHolder(l', legs[i].mint, legs[i].destination)
    {
      SupplyOneHasSoleHolder(l, legs[i].vault);
      SupplyOneHasSoleHolder(l', legs[i].destination);
    }
  }

  lemma LegsMoveThree(env: Env, core: RoomCore, l: Ledger, live: RoomLive, legs: Legs)
    requires CoreFits(env, core) && Custody(env, core, l) && core.status == Active && LegIndicesInRange(live)
    requires SettleLegs(env, core, l, live, legs, 3).Ok?
    ensures LegsCanonical(env, core, live, legs) && RecipientsReady(env, core, l, live)
    ensures ThreeMoved(l, SettleLegs(env, core, l, live, legs, 3).value.1, legs)
  {
    assert Conserved(l);
    hide CoreFits, Custody, SettleLegs, AllLegsFunded, LegsCanonical, RecipientsReady, ThreeEnds, ThreeMoved,
         Conserved, OnlyMintsMove, MarkLegs, MaskOf, MoveOne;
    ActiveLegsFunded(env, core, l, live);
    LegsIff(env, core, l, live, legs);
    LegsEffect(env, core, l, live, legs);
    FundedEnds(env, core, l, live, legs);
    MovedExactly(l, legs);
  }

  /** A settlement that succeeds in a reachable room moves three tokens and nothing else. */
  lemma SettlementMovesThree(env: Env, w: World, required: LiveOwner, legs: Legs)
    requires Reachable(env, w) && Settle(env, w.core, w.live, w.liveOwner, required, w.ledger, w.now, legs).Ok?
    ensures LegIndicesInRange(w.live) && LegsCanonical(env, w.core, w.live, legs)
    ensures RecipientsReady(env, w.core, w.ledger, w.live)
    ensures ThreeMoved(w.ledger, Settle(env, w.core, w.live, w.liveOwner, required, w.ledger, w.now, legs).value.1,
                       legs)
  {
    ReachableInv(env, w);
    Agreement.InvParts(env, w);
    hide LogFits, LiveFits, CopiesFit, Consent, SettlementFits, ProgressFits, ReturnsFit, CoreFits, Custody, MasksFit,
         Settle, SettleLegs, LegsCanonical, RecipientsReady, SettledCore, Conserved, ThreeMoved;
    SettleGuarded(env, w.core, w.live, w.liveOwner, required, w.ledger, w.now, legs);
    LegsMoveThree(env, w.core, w.ledger, w.live, legs);
  }

  // ----- Records are immutable -----

  /** Where an asset came from and where it must go back to. */
  predicate SameRecord(a: AssetRecord, b: AssetRecord) {
    && a.mint == b.mint && a.vault == b.vault && a.originalOwner == b.originalOwner && a.originalAta == b.originalAta
    && a.depositedAt == b.depositedAt
  }

  predicate RecordKept(core: RoomCore, next: RoomCore, slot: nat)
    requires slot < 6
  {
    Has(core.depositedMask, slot) ==> Has(next.depositedMask, slot) && SameRecord(core.assets[slot], next.assets[slot])
  }

  lemma DepositKeeps(env: Env, w: World, signer: Key, slot: byte, mint: Key, source: Key, vault: Key, s: nat)
    requires s < 6
    ensures var r := DepositAsset(env, w.core, w.ledger, w.now, signer, slot, mint, source, vault);
      r.Ok? ==> RecordKept(w.core, r.value.0, s)
  {
    if slot < 6 {
      WithHas(w.core.depositedMask, slot, s);
    }
    hide Has, With, OpenAta, TransferOne, MintTaken, MintEligible;
  }

  lemma SettleKeeps(env: Env, w: World, required: LiveOwner, legs: Legs, s: nat)
    requires s < 6 && Conserved(w.ledger)
    ensures var r := Settle(env, w.core, w.live, w.liveOwner, required, w.ledger, w.now, legs);
      r.Ok? ==> RecordKept(w.core, r.value.0, s)
  {
    hide Conserved, Settle, SettleLegs, Has, MaskOf;
    if Settle(env, w.core, w.live, w.liveOwner, required, w.ledger, w.now, legs).Ok? {
      SettleGuarded(env, w.core, w.live, w.liveOwner, required, w.ledger, w.now, legs);
    }
  }

  lemma ReturnKeeps(env: Env, w: World, action: Action, s: nat)
    requires s < 6 && Conserved(w.ledger) && action.Return?
    ensures var r := ReturnAsset(env, w.core, w.ledger, action.slot, action.mint, action.vault, action.originalOwner,
                                 action.originalAta);
      r.Ok? ==> RecordKept(w.core, r.value.0, s)
  {
    hide Conserved, ReturnAsset, Has, With, Covers, Minus, Preservation.OnlyMintMoves, ReturnMaskGuard;
    if ReturnAsset(env, w.core, w.ledger, action.slot, action.mint, action.vault, action.originalOwner,
                   action.originalAta).Ok? {
      ReturnEffect(env, w.core, w.ledger, action.slot, action.mint, action.vault, action.originalOwner,
                   action.originalAta);
    }
  }

  lemma ActionKeeps(env: Env, w: World, signer: Key, action: Action, s: nat)
    requires s < 6 && Conserved(w.ledger)
    ensures var r := Perform(env, w, signer, action); r.Ok? ==> RecordKept(w.core, r.value.core, s)
  {
    hide Conserved, DepositAsset, Settle, ReturnAsset, Propose, Lock, RevokeLock, FinalizeLive, Has,
         RequireParticipant;
    match action
    case Deposit(slot, mint, source, vault) => DepositKeeps(env, w, signer, slot, mint, source, vault, s);
    case SettleDeal(required, legs) => SettleKeeps(env, w, required, legs, s);
    case Return(_, _, _, _, _) => ReturnKeeps(env, w, action, s);
    case _ =>
  }

  lemma StepKeeps(env: Env, w: World, step: Step, s: nat)
    requires s < 6 && Conserved(w.ledger)
    ensures RecordKept(w.core, After(env, w, step).core, s)
  {
    hide Perform, Conserved, Has;
    if step.Call? {
      ActionKeeps(env, w, step.signer, step.action, s);
    }
  }

  /** A deposit's mint, vault, owner, return account and time never change again, whatever anybody does. */
  lemma {:induction false} RecordForever(env: Env, w: World, steps: seq<Step>, slot: nat)
    requires Reachable(env, w) && slot < 6 && Has(w.core.depositedMask, slot)
    ensures var next := Exec(env, w, steps).core;
      Has(next.depositedMask, slot) && SameRecord(w.core.assets[slot], next.assets[slot])
  {
    hide Inv, Conserved, Has, Reachable, After;
    if steps != [] {
      var before := steps[..|steps| - 1];
      RecordForever(env, w, before, slot);
      ReachableExec(env, w, before);
      ReachableInv(env, Exec(env, w, before));
      Agreement.InvParts(env, Exec(env, w, before));
      StepKeeps(env, Exec(env, w, before), steps[|steps| - 1], slot);
    }
  }
}
