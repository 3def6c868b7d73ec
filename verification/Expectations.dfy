/** What a write's expectation says about the room's history, and how long the client waits for it. */
module Expectations {
  import Wire
  import opened Masks
  import opened Records
  import opened Allocation
  import opened Machine
  import opened Invariant
  import opened RoomActions
  import RoomState
  import ClientLaws
  import History
  import Settlement

  // ----- What an expectation means -----

  /** The record on the table is, or is not, what the expectation names, by the room's own log. */
  lemma ProposalExpected(env: Env, w: World, revision: int, slots: Bytes3, cycle: Cycle, hash: Wire.Hash)
    requires Reachable(env, w) && revision > 0
    ensures ExpectationMet(Proposal(revision, slots, cycle, hash), ClientLaws.View(w)) <==>
      && Current(w).revision == revision
      && exists p :: p in History.Proposals(w.events, revision) && p.ProposalChanged?
                     && p.slots == slots && p.cycle == cycle && p.hash == hash
  {
    hide Reachable, Inv, OneProposalEach;
    Settlement.ReachableInv(env, w);
    TableConsent(env, w);
    if Current(w).revision == revision { OneProposal(w, revision); }
  }

  lemma TableConsent(env: Env, w: World)
    requires Inv(env, w)
    ensures Consent(w.events, Current(w)) && ReturnsFit(w.core, w.events) && MasksFit(w.core)
    ensures LocksFit(Current(w))
  {
  }

  lemma OneProposal(w: World, revision: int)
    requires OneProposalEach(w.events, Current(w)) && revision > 0 && Current(w).revision == revision
    ensures var ps := History.Proposals(w.events, revision);
      |ps| == 1 && IsProposalOf(ps[0], Current(w)) && forall p :: p in ps ==> p == ps[0]
  {
  }

  /** A seat's lock is expected to be its last word on the current revision, and its revocation not to be. */
  lemma LockExpected(env: Env, w: World, seat: nat, revision: int, hash: Wire.Hash)
    requires Reachable(env, w) && seat < 3
    ensures ExpectationMet(SeatLock(seat, revision, hash), ClientLaws.View(w)) <==>
      && Current(w).revision == revision && Current(w).allocationHash == hash
      && History.Stands(History.LockChanges(w.events, revision, seat), hash)
    ensures ExpectationMet(SeatRevoke(seat, revision, hash), ClientLaws.View(w)) <==>
      && Current(w).revision == revision && Current(w).allocationHash == hash
      && !History.Stands(History.LockChanges(w.events, revision, seat), hash)
  {
    hide Reachable, Inv, OneProposalEach, NoEarlyLocks, Has, History.Stands, History.LockChanges;
    Settlement.ReachableInv(env, w);
    TableConsent(env, w);
  }

  /** A return is expected to be in the log, with the asset's own mint and original account. */
  lemma ReturnExpected(env: Env, w: World, slot: nat)
    requires Reachable(env, w)
    ensures ExpectationMet(Expectation.Return(slot), ClientLaws.View(w)) <==>
      slot < 6 && AssetReturned(slot, w.core.assets[slot].mint, w.core.assets[slot].originalAta) in w.events
  {
    hide Reachable, Inv, Has;
    Settlement.ReachableInv(env, w);
    TableConsent(env, w);
    hide MasksFit;
    NoReturnBeyond(env, w, slot);
  }

  lemma NoReturnBeyond(env: Env, w: World, slot: nat)
    requires MasksFit(w.core)
    ensures BitAt(w.core.returnedMask, slot) ==> slot < 6
  {
    if slot < 8 {
      WithinHas(w.core.returnedMask, w.core.depositedMask, slot);
      WithinHas(w.core.depositedMask, SLOTS, slot);
      assert !Has(SLOTS, 6) && !Has(SLOTS, 7);
    }
    hide Has;
  }

  /** The other expectations compare the very fields they name. */
  lemma FieldsExpected(w: World, phase: LivePhase, status: CoreStatus, mask: bv8, revision: int, hash: Wire.Hash)
    ensures ExpectationMet(Phase(phase), ClientLaws.View(w)) <==> Current(w).phase == phase
    ensures ExpectationMet(Status(status), ClientLaws.View(w)) <==> w.core.status == status
    ensures ExpectationMet(Mask(DepositedMask, mask), ClientLaws.View(w)) <==>
      Members(w.core.depositedMask) == Members(mask)
    ensures ExpectationMet(Expectation.Settlement(mask, revision, hash), ClientLaws.View(w)) <==>
      && (w.core.status == Settled || w.core.status == Returning || w.core.status == Complete)
      && Members(w.core.selectedMask) == Members(mask) && w.core.settledRevision == revision
      && w.core.allocationHash == hash
  {
    MembersLaws(w.core.depositedMask, mask, 0);
    MembersLaws(w.core.selectedMask, mask, 0);
    hide Members;
  }

  /** On any snapshot whatever, reachable or not, an expectation about the negotiation compares every field it names. */
  lemma SnapshotExpected(s: Snapshot, seat: nat, revision: int, slots: Bytes3, cycle: Cycle, hash: Wire.Hash)
    requires seat < 3
    ensures ExpectationMet(Proposal(revision, slots, cycle, hash), s) <==>
      && s.live.Some? && s.live.value.revision == revision && s.live.value.selectedSlots == slots
      && s.live.value.cycle == cycle && s.live.value.allocationHash == hash
    ensures ExpectationMet(SeatLock(seat, revision, hash), s) <==>
      && s.live.Some? && s.live.value.revision == revision && s.live.value.allocationHash == hash
      && seat in Members(s.live.value.lockMask)
      && s.live.value.lockedRevision[seat] == revision && s.live.value.lockedHash[seat] == hash
    ensures ExpectationMet(SeatRevoke(seat, revision, hash), s) <==>
      && s.live.Some? && s.live.value.revision == revision && s.live.value.allocationHash == hash
      && seat !in Members(s.live.value.lockMask)
  {
    assert s.live.Some? ==> (seat in Members(s.live.value.lockMask) <==> Has(s.live.value.lockMask, seat));
    hide Members, Has;
  }

  /** A new room is expected as its two records at the two addresses it was made for. */
  lemma RoomExpected(s: Snapshot, coreAddress: Wire.Key, liveAddress: Wire.Key)
    ensures ExpectationMet(Expectation.RoomInitialized(coreAddress, liveAddress), s) <==>
      s.core.Some? && s.live.Some? && s.coreAddress == Some(coreAddress) && s.liveAddress == Some(liveAddress)
  {
  }

  // ----- How long the client waits -----

  /** What a look shows the pending write. */
  predicate Shows(p: PendingWrite, core: RoomCore, live: RoomLive, observedAt: int, now: int) {
    now - observedAt <= 5000 && ExpectationMet(p.expectation, Snapshot(Some(core), Some(live), None, None))
  }

  /** A fresh look that shows the expectation settles the write; any other leaves it as it was before its timeout, and
      from then on gives it up and asks for a refresh. */
  lemma LookDecides(p: PendingWrite, core: RoomCore, live: RoomLive, observedAt: int, now: int)
    ensures var next := ReconcileFreshPending(p, core, live, observedAt, now);
      next == if Shows(p, core, live, observedAt, now)
              then p.(phase := Reconciled, updatedAt := now, refreshAuthority := false)
              else if now < p.timeoutAt then p
              else p.(phase := TimedOut, updatedAt := now, refreshAuthority := true, canBlindRetry := false)
  {
    hide ExpectationMet;
    ClientLaws.SeesNothing(p.expectation);
  }

  /** A look at or after the timeout ends the wait, whatever came before. */
  lemma WaitEnds(action: RoomState.RoomAction, expectation: Expectation, start: int, timeoutMs: int,
                 events: seq<ClientLaws.PendingEvent>)
    requires timeoutMs > 0 && events != []
    requires events[|events| - 1].Looked? && events[|events| - 1].at >= start + timeoutMs
    ensures var p := ClientLaws.RunPending(StartPending(action, expectation, start, timeoutMs).value, events);
      var last := events[|events| - 1];
      && (p.phase == Reconciled || p.phase == TimedOut) && p.updatedAt == last.at
      && (p.phase == Reconciled <==> ClientLaws.SawIt(last, expectation))
      && (p.refreshAuthority <==> p.phase == TimedOut)
  {
    hide ExpectationMet;
    var before := events[..|events| - 1];
    var last := events[|events| - 1];
    ClientLaws.PendingIsHonest(action, expectation, start, timeoutMs, before);
    var p := ClientLaws.RunPending(StartPending(action, expectation, start, timeoutMs).value, before);
    LookDecides(p, last.core, last.live, last.observedAt, last.at);
  }

  /** The write was signed at some point of the run. */
  predicate WasSigned(events: seq<ClientLaws.PendingEvent>) {
    exists i :: 0 <= i < |events| && events[i].Signed?
  }

  /** A run keeps the last signature, and starts from none. */
  lemma {:induction false} SignatureKept(p: PendingWrite, events: seq<ClientLaws.PendingEvent>)
    requires p.signature.None?
    ensures ClientLaws.RunPending(p, events).signature.Some? <==> WasSigned(events)
  {
    hide ExpectationMet;
    if events != [] {
      var before := events[..|events| - 1];
      SignatureKept(p, before);
      if WasSigned(before) {
        var i :| 0 <= i < |before| && before[i].Signed?;
        assert events[i].Signed?;
      }
      if WasSigned(events) && !events[|events| - 1].Signed? {
        var i :| 0 <= i < |events| && events[i].Signed?;
        assert before[i].Signed?;
      }
    }
  }

  /** A refused write has failed; it asks for a look at the authority exactly if it was signed before. */
  lemma RefusalAsksIfSigned(p: PendingWrite, events: seq<ClientLaws.PendingEvent>)
    requires p.signature.None? && events != [] && events[|events| - 1].Refused?
    ensures var q := ClientLaws.RunPending(p, events);
      && q.phase == Failed && q.updatedAt == events[|events| - 1].at && !q.canBlindRetry
      && (q.refreshAuthority <==> WasSigned(events))
  {
    hide ExpectationMet;
    var before := events[..|events| - 1];
    SignatureKept(p, before);
    SignatureKept(p, events);
  }

  /** A wait starts for the wallet, with a positive time limit only; signing and waiting are recorded as they happen. */
  lemma StepsRecorded(p: PendingWrite, action: RoomState.RoomAction, e: Expectation, signature: string, now: int,
                      timeoutMs: int)
    ensures StartPending(action, e, now, timeoutMs)
         == if timeoutMs > 0
            then Some(PendingWrite(action, e, AwaitingWallet, now, now, now + timeoutMs, None, false, false)) else None
    ensures ClientLaws.NextPending(p, ClientLaws.Signed(signature, now))
         == p.(phase := Broadcast, signature := Some(signature), updatedAt := now)
    ensures ClientLaws.NextPending(p, ClientLaws.Awaited(now)) == p.(phase := AwaitingAuthoritative, updatedAt := now)
  {
  }
}
