/** No asset is trapped: how anybody empties a room's vaults, even if the rollup never commits. */
module Recovery {
  import opened Wire
  import opened Masks
  import opened Records
  import opened Tokens
  import Allocation
  import opened Rules
  import opened Machine
  import opened Invariant
  import Preservation
  import opened Settlement
  import Agreement
  import Deliveries

  /** The depositor's own account can take the asset back: it is absent, or still theirs, of that mint and not
      frozen. */
  predicate Reclaimable(core: RoomCore, l: Ledger, slot: nat)
    requires slot < 6
  {
    var a := core.assets[slot];
    a.originalAta in l.accounts ==>
      l.accounts[a.originalAta].mint == a.mint && l.accounts[a.originalAta].owner == a.originalOwner
      && !l.accounts[a.originalAta].frozen
  }

  /** The return of a slot, with the accounts the core recorded. */
  function ReturnOf(core: RoomCore, slot: nat): Action
    requires slot < 6
  {
    var a := core.assets[slot];
    Return(slot, a.mint, a.vault, a.originalOwner, a.originalAta)
  }

  lemma HeldIsReturnable(core: RoomCore, slot: nat)
    requires MasksFit(core) && !Undecided(core) && slot < 6 && Held(core, slot)
    ensures ReturnMaskGuard(core, slot).Pass?
  {
    MinusHas(core.depositedMask, core.selectedMask, slot);
  }

  /** Opening the depositor's account, when it must be created, and moving the token to it. */
  lemma ReclaimTransfer(env: Allocation.Env, core: RoomCore, l: Ledger, slot: nat)
    requires slot < 6 && SlotInCustody(env, core, l, slot) && AssetFits(env, core, slot) && Held(core, slot)
    ensures var a := core.assets[slot];
      var r := OpenAta(l, a.originalAta, a.mint, a.originalOwner);
      && (r.Ok? ==>
            && a.vault in r.value.accounts && r.value.accounts[a.vault] == l.accounts[a.vault]
            && a.vault != a.originalAta && a.originalAta in r.value.accounts)
      && (r.Ok? && TransferOne(r.value, env.VaultAuthority(), a.vault, a.mint, a.originalAta).Ok?
          <==> Reclaimable(core, l, slot))
  {
  }

  /** Anyone's return of a held asset of a decided room, to the accounts on record, succeeds exactly when the
      depositor's account can take it. */
  lemma ReturnIff(env: Allocation.Env, w: World, slot: nat)
    requires Inv(env, w) && !Undecided(w.core) && slot < 6 && Held(w.core, slot)
    ensures var a := w.core.assets[slot];
      ReturnAsset(env, w.core, w.ledger, slot, a.mint, a.vault, a.originalOwner, a.originalAta).Ok?
      <==> Reclaimable(w.core, w.ledger, slot)
  {
    hide LogFits, LiveFits, CopiesFit, Consent, SettlementFits, ProgressFits, ReturnsFit, MasksFit, Conserved,
         DistinctMints, MarkReturned, OpenAta, TransferOne, Reclaimable, ReturnMaskGuard;
    HeldIsReturnable(w.core, slot);
    assert SlotInCustody(env, w.core, w.ledger, slot) && AssetFits(env, w.core, slot);
    OpenAtaOwner(w.ledger, w.core.assets[slot].originalAta, w.core.assets[slot].mint,
                 w.core.assets[slot].originalOwner);
    ReclaimTransfer(env, w.core, w.ledger, slot);
  }

  lemma OpenAtaOwner(l: Ledger, account: Key, mint: Key, owner: Key)
    ensures var r := OpenAta(l, account, mint, owner);
      r.Ok? ==>
        && account in r.value.accounts && r.value.accounts[account].mint == mint
        && r.value.accounts[account].owner == owner
  {
  }

  /** The depositors' accounts of the assets still held are different accounts. */
  ghost predicate OwnAccounts(core: RoomCore) {
    forall s, t :: 0 <= s < 6 && 0 <= t < 6 && s != t && Held(core, s) && Held(core, t) ==>
      core.assets[s].originalAta != core.assets[t].originalAta
  }

  ghost predicate AllReclaimable(core: RoomCore, l: Ledger) {
    forall s :: 0 <= s < 6 && Held(core, s) ==> Reclaimable(core, l, s)
  }

  lemma ReturnLedgerKeys(env: Allocation.Env, core: RoomCore, l: Ledger, slot: nat)
    requires slot < 6
    ensures var a := core.assets[slot];
      var r := ReturnAsset(env, core, l, slot, a.mint, a.vault, a.originalOwner, a.originalAta);
      r.Ok? ==> r.value.1.accounts.Keys <= l.accounts.Keys + {a.originalAta}
  {
    hide MarkReturned, ReturnMaskGuard;
  }

  /** The return of a reclaimable asset goes through, and only accounts of its mint change. */
  lemma ReturnGoesThrough(env: Allocation.Env, w: World, caller: Key, slot: nat)
    requires Inv(env, w) && !Undecided(w.core) && caller != env.VaultAuthority() && slot < 6 && Held(w.core, slot)
    requires Reclaimable(w.core, w.ledger, slot)
    ensures var w' := After(env, w, Call(caller, ReturnOf(w.core, slot)));
      && w'.core == MarkReturned(w.core, slot)
      && Preservation.OnlyMintMoves(w.ledger, w'.ledger, w.core.assets[slot].mint)
      && w'.ledger.accounts.Keys <= w.ledger.accounts.Keys + {w.core.assets[slot].originalAta}
    ensures !Undecided(MarkReturned(w.core, slot))
  {
    hide Inv, MasksFit, Conserved, ReturnAsset, MarkReturned, ReturnMaskGuard, Reclaimable, Undecided,
         Preservation.OnlyMintMoves, Held;
    ReturnIff(env, w, slot);
    Agreement.InvParts(env, w);
    HeldIsReturnable(w.core, slot);
    var a := w.core.assets[slot];
    ReturnEffect(env, w.core, w.ledger, slot, a.mint, a.vault, a.originalOwner, a.originalAta);
    ReturnLedgerKeys(env, w.core, w.ledger, slot);
    ReturnMasks(w.core, slot);
  }

  lemma OthersStayReclaimable(core: RoomCore, l: Ledger, l': Ledger, slot: nat)
    requires slot < 6 && Held(core, slot) && AllReclaimable(core, l) && OwnAccounts(core) && DistinctMints(core)
    requires Preservation.OnlyMintMoves(l, l', core.assets[slot].mint)
    requires l'.accounts.Keys <= l.accounts.Keys + {core.assets[slot].originalAta}
    ensures AllReclaimable(MarkReturned(core, slot), l') && OwnAccounts(MarkReturned(core, slot))
  {
    HeldAfterReturn(core, slot);
    hide MarkReturned;
    forall s | 0 <= s < 6 && Held(MarkReturned(core, slot), s)
      ensures Reclaimable(MarkReturned(core, slot), l', s)
    {
      assert core.assets[s].mint != core.assets[slot].mint
          && core.assets[s].originalAta != core.assets[slot].originalAta;
      assert Reclaimable(core, l, s);
    }
  }

  lemma InvDistinctMints(env: Allocation.Env, w: World)
    requires Inv(env, w)
    ensures DistinctMints(w.core)
  {
  }

  /** One return takes its slot out of custody and leaves every other held slot as it was. */
  lemma ReturnProgress(env: Allocation.Env, w: World, caller: Key, slot: nat)
    requires Inv(env, w) && !Undecided(w.core) && caller != env.VaultAuthority() && slot < 6 && Held(w.core, slot)
    requires AllReclaimable(w.core, w.ledger) && OwnAccounts(w.core)
    ensures var w' := After(env, w, Call(caller, ReturnOf(w.core, slot)));
      && !Undecided(w'.core) && AllReclaimable(w'.core, w'.ledger) && OwnAccounts(w'.core)
      && (forall s :: 0 <= s < 6 ==> (Held(w'.core, s) <==> Held(w.core, s) && s != slot))
      && (forall s :: 0 <= s < 6 && s != slot ==> w'.core.assets[s] == w.core.assets[s])
  {
    InvDistinctMints(env, w);
    assert Reclaimable(w.core, w.ledger, slot);
    hide Inv, MarkReturned, Undecided, After, Reclaimable, AllReclaimable, OwnAccounts, DistinctMints,
         Preservation.OnlyMintMoves;
    ReturnGoesThrough(env, w, caller, slot);
    var w' := After(env, w, Call(caller, ReturnOf(w.core, slot)));
    OthersStayReclaimable(w.core, w.ledger, w'.ledger, slot);
    HeldAfterReturn(w.core, slot);
  }

  lemma HeldAfterReturn(core: RoomCore, slot: nat)
    requires slot < 6
    ensures forall s :: 0 <= s < 6 ==> (Held(MarkReturned(core, slot), s) <==> Held(core, s) && s != slot)
    ensures forall s :: 0 <= s < 6 && s != slot ==> MarkReturned(core, slot).assets[s] == core.assets[s]
  {
    forall s | 0 <= s < 6
      ensures Held(MarkReturned(core, slot), s) <==> Held(core, s) && s != slot
    {
      WithHas(core.returnedMask, slot, s);
    }
  }

  /** The returns of every held slot below `n`, in slot order. */
  function ReturnsBelow(core: RoomCore, caller: Key, n: nat): (steps: seq<Step>)
    requires n <= 6
    ensures |steps| <= n
  {
    if n == 0 then []
    else ReturnsBelow(core, caller, n - 1) + (if Held(core, n - 1) then [Call(caller, ReturnOf(core, n - 1))] else [])
  }

  lemma {:induction false} ReturnsBelowWork(env: Allocation.Env, w: World, caller: Key, n: nat)
    requires Reachable(env, w) && !Undecided(w.core) && caller != env.VaultAuthority() && n <= 6
    requires AllReclaimable(w.core, w.ledger) && OwnAccounts(w.core)
    ensures var w' := Exec(env, w, ReturnsBelow(w.core, caller, n));
      && Reachable(env, w') && !Undecided(w'.core) && AllReclaimable(w'.core, w'.ledger) && OwnAccounts(w'.core)
      && (forall s :: 0 <= s < 6 ==> (Held(w'.core, s) <==> Held(w.core, s) && s >= n))
      && (forall s :: n <= s < 6 ==> w'.core.assets[s] == w.core.assets[s])
  {
    hide Reachable, Undecided, AllReclaimable, OwnAccounts, Inv, After;
    ReachableExec(env, w, ReturnsBelow(w.core, caller, n));
    if n > 0 {
      var before := ReturnsBelow(w.core, caller, n - 1);
      var all := ReturnsBelow(w.core, caller, n);
      ReturnsBelowWork(env, w, caller, n - 1);
      if Held(w.core, n - 1) {
        var step := Call(caller, ReturnOf(w.core, n - 1));
        assert all == before + [step] && all[..|all| - 1] == before;
        ReachableInv(env, Exec(env, w, before));
        ReturnProgress(env, Exec(env, w, before), caller, n - 1);
      } else {
        assert all == before;
      }
    }
  }

  /** The asset is back: its vault is empty, and its one token is held by its depositor's own account. */
  ghost predicate Home(l: Ledger, a: AssetRecord) {
    && a.vault in l.accounts && l.accounts[a.vault].mint == a.mint && l.accounts[a.vault].amount == 0
    && SoleHolder(l, a.mint, a.originalAta) && l.accounts[a.originalAta].owner == a.originalOwner
    && a.mint in l.mints && l.mints[a.mint].supply <= 1
  }

  /** Moving tokens of another mint leaves it there. */
  lemma HomeStays(l: Ledger, l': Ledger, a: AssetRecord, mint: Key)
    requires Home(l, a) && Preservation.OnlyMintMoves(l, l', mint) && mint != a.mint && Conserved(l')
    ensures Home(l', a)
  {
    assert a.originalAta in l'.accounts && l'.accounts[a.originalAta] == l.accounts[a.originalAta];
    hide Conserved;
    SupplyOneHasSoleHolder(l', a.originalAta);
  }

  lemma HandedHome(l: Ledger, l': Ledger, a: AssetRecord)
    requires Handed(l, l', a.mint, a.vault, a.originalAta, a.originalOwner) && l'.mints == l.mints
    requires a.mint in l.mints && l.mints[a.mint].supply <= 1
    ensures Home(l', a)
  {
    hide SoleHolder;
  }

  lemma ReturnAfter(env: Allocation.Env, w: World, caller: Key, slot: nat)
    requires slot < 6 && caller != env.VaultAuthority()
    ensures var a := w.core.assets[slot];
      var r := ReturnAsset(env, w.core, w.ledger, slot, a.mint, a.vault, a.originalOwner, a.originalAta);
      r.Ok? ==> After(env, w, Call(caller, ReturnOf(w.core, slot))).ledger == r.value.1
  {
    hide ReturnAsset;
  }

  /** The return of one held asset brings it home. */
  lemma ReturnBringsHome(env: Allocation.Env, w: World, caller: Key, slot: nat)
    requires Inv(env, w) && !Undecided(w.core) && caller != env.VaultAuthority() && slot < 6 && Held(w.core, slot)
    requires Reclaimable(w.core, w.ledger, slot)
    ensures Home(After(env, w, Call(caller, ReturnOf(w.core, slot))).ledger, w.core.assets[slot])
  {
    hide Inv, MasksFit, Conserved, ReturnAsset, Reclaimable, Undecided, Held, Handed, Home,
         Preservation.OnlyMintMoves, MarkReturned, ReturnMaskGuard, VaultHolds, After;
    ReturnIff(env, w, slot);
    Deliveries.ReturnDelivers(env, w, slot);
    Deliveries.HeldParts(env, w, slot);
    var a := w.core.assets[slot];
    var l' := ReturnAsset(env, w.core, w.ledger, slot, a.mint, a.vault, a.originalOwner, a.originalAta).value.1;
    ReturnEffect(env, w.core, w.ledger, slot, a.mint, a.vault, a.originalOwner, a.originalAta);
    MintsStay(w.ledger, l', a.mint);
    HandedHome(w.ledger, l', a);
    ReturnAfter(env, w, caller, slot);
  }

  lemma MintsStay(l: Ledger, l': Ledger, mint: Key)
    requires Preservation.OnlyMintMoves(l, l', mint)
    ensures l'.mints == l.mints
  {
  }

  /** The asset of every held slot below `n` is home after the returns below `n`. */
  ghost predicate BroughtHome(core: RoomCore, l: Ledger, n: nat)
    requires n <= 6
  {
    forall s :: 0 <= s < n && Held(core, s) ==> Home(l, core.assets[s])
  }

  lemma OthersStayHome(core: RoomCore, l: Ledger, l': Ledger, n: nat)
    requires n < 6 && BroughtHome(core, l, n) && DistinctMints(core) && Held(core, n) && Conserved(l')
    requires Preservation.OnlyMintMoves(l, l', core.assets[n].mint) && Home(l', core.assets[n])
    ensures BroughtHome(core, l', n + 1)
  {
    hide Home, Preservation.OnlyMintMoves, Conserved;
    forall s | 0 <= s < n && Held(core, s)
      ensures Home(l', core.assets[s])
    {
      assert core.assets[s].mint != core.assets[n].mint;
      HomeStays(l, l', core.assets[s], core.assets[n].mint);
    }
  }

  lemma {:induction false} ReturnsBelowBringHome(env: Allocation.Env, w: World, caller: Key, n: nat)
    requires Reachable(env, w) && !Undecided(w.core) && caller != env.VaultAuthority() && n <= 6
    requires AllReclaimable(w.core, w.ledger) && OwnAccounts(w.core)
    ensures BroughtHome(w.core, Exec(env, w, ReturnsBelow(w.core, caller, n)).ledger, n)
  {
    hide Reachable, Undecided, AllReclaimable, OwnAccounts, Inv, After, Home, BroughtHome, Conserved, MasksFit,
         DistinctMints;
    if n == 0 {
      NoneBelow(w.core, w.ledger);
    } else {
      var before := ReturnsBelow(w.core, caller, n - 1);
      var all := ReturnsBelow(w.core, caller, n);
      var w1 := Exec(env, w, before);
      ReturnsBelowBringHome(env, w, caller, n - 1);
      if Held(w.core, n - 1) {
        assert all == before + [Call(caller, ReturnOf(w.core, n - 1))] && all[..|all| - 1] == before;
        ReturnsBelowWork(env, w, caller, n - 1);
        OneMoreHome(env, w, w1, caller, n - 1);
      } else {
        assert all == before;
        OneFewer(w.core, w1.ledger, n - 1);
      }
    }
  }

  lemma NoneBelow(core: RoomCore, l: Ledger)
    ensures BroughtHome(core, l, 0)
  {
  }

  lemma OneFewer(core: RoomCore, l: Ledger, n: nat)
    requires n < 6 && BroughtHome(core, l, n) && !Held(core, n)
    ensures BroughtHome(core, l, n + 1)
  {
    hide Held, Home;
  }

  lemma ReclaimableAt(core: RoomCore, l: Ledger, slot: nat)
    requires slot < 6 && AllReclaimable(core, l) && Held(core, slot)
    ensures Reclaimable(core, l, slot)
  {
  }

  lemma OneMoreHome(env: Allocation.Env, w: World, w1: World, caller: Key, n: nat)
    requires Reachable(env, w) && Reachable(env, w1) && n < 6 && BroughtHome(w.core, w1.ledger, n) && Held(w.core, n)
    requires !Undecided(w1.core) && caller != env.VaultAuthority() && AllReclaimable(w1.core, w1.ledger)
      && Held(w1.core, n)
    requires w1.core.assets[n] == w.core.assets[n]
    ensures BroughtHome(w.core, After(env, w1, Call(caller, ReturnOf(w.core, n))).ledger, n + 1)
  {
    var step := Call(caller, ReturnOf(w.core, n));
    ReachableInv(env, w);
    ReachableInv(env, w1);
    ReachableNext(env, w1, step);
    ReachableInv(env, After(env, w1, step));
    InvDistinctMints(env, w);
    Agreement.InvParts(env, After(env, w1, step));
    hide Reachable, Inv, Undecided, AllReclaimable, BroughtHome, Home, Held, After, Conserved, MasksFit,
         DistinctMints, Preservation.OnlyMintMoves, Reclaimable, MarkReturned;
    ReclaimableAt(w1.core, w1.ledger, n);
    ReturnBringsHome(env, w1, caller, n);
    ReturnGoesThrough(env, w1, caller, n);
    OthersStayHome(w.core, w1.ledger, After(env, w1, step).ledger, n);
  }

  lemma NothingHeldIsFinal(core: RoomCore)
    requires MasksFit(core) && !Undecided(core) && forall s :: 0 <= s < 6 ==> !Held(core, s)
    ensures core.status == Complete || core.status == Closed || (core.status == Cancelled && core.depositedMask == 0)
  {
    forall i: nat | i < 8
      ensures Has(core.returnedMask, i) <==> Has(Owed(core), i)
    {
      MinusHas(core.depositedMask, core.selectedMask, i);
      WithinHas(core.returnedMask, core.depositedMask, i);
      WithinHas(core.depositedMask, SLOTS, i);
      ApartHas(core.returnedMask, core.selectedMask, i);
      if i < 6 {
        assert !Held(core, i);
      } else {
        assert !Has(SLOTS, i);
      }
    }
    MaskExtensional(core.returnedMask, Owed(core));
    MinusNothing(core.depositedMask);
    hide Has, Within, Apart, Minus;
    if core.status == Settled {
      UnselectedCount(core.selectedMask);
      CountZero();
    }
  }

  /** Cancel if the room is still undecided, then return whatever is held. */
  function RecoverySteps(core: RoomCore, caller: Key): (steps: seq<Step>)
    ensures |steps| <= 7
  {
    (if Undecided(core) then [Call(caller, CancelAfterExpiry)] else []) + ReturnsBelow(core, caller, 6)
  }

  /** No vault holds a deposit any more, and the room is at its end. */
  ghost predicate Emptied(core: RoomCore) {
    && (forall s :: 0 <= s < 6 ==> !Held(core, s))
    && (core.status == Complete || core.status == Closed || (core.status == Cancelled && core.depositedMask == 0))
  }

  lemma DecidedRecovery(env: Allocation.Env, w: World, caller: Key)
    requires Reachable(env, w) && !Undecided(w.core) && caller != env.VaultAuthority()
    requires AllReclaimable(w.core, w.ledger) && OwnAccounts(w.core)
    ensures var w' := Exec(env, w, ReturnsBelow(w.core, caller, 6));
      Emptied(w'.core) && BroughtHome(w.core, w'.ledger, 6)
  {
    hide Reachable, AllReclaimable, OwnAccounts, Exec, Undecided, Inv, MasksFit, BroughtHome;
    ReturnsBelowWork(env, w, caller, 6);
    ReturnsBelowBringHome(env, w, caller, 6);
    var w' := Exec(env, w, ReturnsBelow(w.core, caller, 6));
    ReachableInv(env, w');
    Agreement.InvParts(env, w');
    NothingHeldIsFinal(w'.core);
  }

  lemma CancelFirst(env: Allocation.Env, w: World, caller: Key, rest: seq<Step>)
    requires Undecided(w.core) && w.now >= w.core.expiresAt && caller != env.VaultAuthority()
    ensures var cancelled := PutCore(w, w.core.(status := Cancelled), RoomCancelled(caller, true));
      && After(env, w, Call(caller, CancelAfterExpiry)) == cancelled
      && Exec(env, w, [Call(caller, CancelAfterExpiry)] + rest) == Exec(env, cancelled, rest)
  {
    var cancel := Call(caller, CancelAfterExpiry);
    assert [cancel][..0] == [] && Exec(env, w, [cancel]) == After(env, Exec(env, w, []), cancel);
    ExecConcat(env, w, [cancel], rest);
  }

  lemma CancelledCustody(w: World, caller: Key)
    requires AllReclaimable(w.core, w.ledger) && OwnAccounts(w.core)
    ensures var w1 := PutCore(w, w.core.(status := Cancelled), RoomCancelled(caller, true));
      AllReclaimable(w1.core, w1.ledger) && OwnAccounts(w1.core) && !Undecided(w1.core)
  {
    var w1 := PutCore(w, w.core.(status := Cancelled), RoomCancelled(caller, true));
    assert forall s :: 0 <= s < 6 ==> Held(w1.core, s) == Held(w.core, s);
    assert forall s :: 0 <= s < 6 ==> Reclaimable(w1.core, w1.ledger, s) == Reclaimable(w.core, w.ledger, s);
  }

  lemma CancelKeepsHeld(w: World, w1: World, l: Ledger)
    requires w1.core == w.core.(status := w1.core.status)
    ensures BroughtHome(w1.core, l, 6) <==> BroughtHome(w.core, l, 6)
  {
    assert forall s :: 0 <= s < 6 ==> Held(w1.core, s) == Held(w.core, s);
    hide Held, Home;
  }

  /** From every reachable room that is decided or past its expiry, any caller alone has a run of at most seven
      instructions that ends the room and leaves, for every asset that was held, its vault empty and its depositor's
      own account its sole holder. Only the depositors' own accounts matter: each must be absent or still theirs, and
      no two of them the same. */
  lemma NoAssetTrapped(env: Allocation.Env, w: World, caller: Key)
    requires Reachable(env, w) && (Undecided(w.core) ==> w.now >= w.core.expiresAt) && caller != env.VaultAuthority()
    requires AllReclaimable(w.core, w.ledger) && OwnAccounts(w.core)
    ensures var steps := RecoverySteps(w.core, caller);
      var w' := Exec(env, w, steps);
      && |steps| <= 7 && (forall i :: 0 <= i < |steps| ==> steps[i].Call? && steps[i].signer == caller)
      && Emptied(w'.core)
      && (forall s :: 0 <= s < 6 && Held(w.core, s) ==> Home(w'.ledger, w.core.assets[s]))
  {
    hide Emptied, Reachable, Exec, AllReclaimable, OwnAccounts, Home, Held;
    var reclaims := ReturnsBelow(w.core, caller, 6);
    ReturnsAreCalls(w.core, caller, 6);
    if Undecided(w.core) {
      CancelFirst(env, w, caller, reclaims);
      var w1 := After(env, w, Call(caller, CancelAfterExpiry));
      ReachableNext(env, w, Call(caller, CancelAfterExpiry));
      hide After;
      ReturnsSame(w.core, w1.core, caller, 6);
      CancelledCustody(w, caller);
      DecidedRecovery(env, w1, caller);
      CancelKeepsHeld(w, w1, Exec(env, w1, reclaims).ledger);
    } else {
      assert RecoverySteps(w.core, caller) == reclaims;
      DecidedRecovery(env, w, caller);
    }
  }

  // ----- When a cancelled room closes -----

  /** A room cancelled before its first deposit stays cancelled in every later state of any run. */
  lemma EmptyCancelledStays(env: Allocation.Env, w: World, steps: seq<Step>)
    requires Reachable(env, w) && w.core.status == Cancelled && w.core.depositedMask == 0
    ensures Exec(env, w, steps).core.status == Cancelled && Exec(env, w, steps).core.depositedMask == 0
  {
    hide Reachable, Inv, Exec, Conserved;
    Agreement.DecidedForever(env, w, steps);
    ReachableExec(env, w, steps);
    ReachableInv(env, Exec(env, w, steps));
    Agreement.InvParts(env, Exec(env, w, steps));
  }

  /** A cancelled room with deposits can be closed, by any caller alone, and one without deposits never closes. */
  lemma CancelledClosesIff(env: Allocation.Env, w: World, caller: Key)
    requires Reachable(env, w) && w.core.status == Cancelled && caller != env.VaultAuthority()
    requires AllReclaimable(w.core, w.ledger) && OwnAccounts(w.core)
    ensures (exists steps :: Exec(env, w, steps).core.status == Closed) <==> w.core.depositedMask != 0
    ensures w.core.depositedMask != 0 ==> Exec(env, w, RecoverySteps(w.core, caller)).core.status == Closed
  {
    hide Reachable, Exec, AllReclaimable, OwnAccounts, Home, Held, Has;
    NoAssetTrapped(env, w, caller);
    Agreement.DecidedForever(env, w, RecoverySteps(w.core, caller));
    if w.core.depositedMask == 0 {
      forall steps
        ensures Exec(env, w, steps).core.status != Closed
      {
        EmptyCancelledStays(env, w, steps);
      }
    }
  }

  lemma {:induction false} ReturnsAreCalls(core: RoomCore, caller: Key, n: nat)
    requires n <= 6
    ensures forall i :: 0 <= i < |ReturnsBelow(core, caller, n)| ==>
      ReturnsBelow(core, caller, n)[i].Call? && ReturnsBelow(core, caller, n)[i].signer == caller
  {
    if n > 0 {
      ReturnsAreCalls(core, caller, n - 1);
    }
  }

  lemma {:induction false} ReturnsSame(core: RoomCore, core': RoomCore, caller: Key, n: nat)
    requires n <= 6 && core' == core.(status := core'.status)
    ensures ReturnsBelow(core', caller, n) == ReturnsBelow(core, caller, n)
  {
    if n > 0 {
      ReturnsSame(core, core', caller, n - 1);
    }
  }
}
