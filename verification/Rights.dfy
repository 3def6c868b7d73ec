/** Who may do what, and exactly when: the checks that are left in a room that can come about. */
module Rights {
  import opened Wire
  import opened Masks
  import opened Records
  import opened Allocation
  import opened Machine
  import opened Invariant
  import Rules
  import ClientLaws
  import Instructions
  import Effects
  import Settlement
  import Agreement

  /** A reachable table: what is fixed of its copy and of every core the rollup may show. */
  ghost predicate AtTable(env: Env, w: World) {
    && CoreFits(env, w.core) && LogFits(env, w) && CopiesFit(w) && LiveFits(env, w.core, Current(w))
  }

  lemma ReachableTable(env: Env, w: World)
    requires Reachable(env, w)
    ensures AtTable(env, w)
  {
    hide Reachable, CoreFits, LogFits, CopiesFit, LiveFits;
    Settlement.ReachableInv(env, w);
    InvTable(env, w);
  }

  lemma InvTable(env: Env, w: World)
    requires Inv(env, w)
    ensures AtTable(env, w)
  {
  }

  // ----- Negotiation -----

  /** What every negotiation instruction needs. */
  predicate MaySpeak(w: World, signer: Key, venue: Venue) {
    w.er.Delegated? && ClientLaws.RollupSees(w, venue) && signer in w.core.participants
  }

  lemma TableHolds(env: Env, w: World, signer: Key, venue: Venue)
    requires AtTable(env, w)
    ensures Instructions.Answers(Pass, Effects.TableChecks(env, w, signer, venue))
            && Effects.LiveThere(w, venue).phase != Finalized
      <==> MaySpeak(w, signer, venue)
    ensures w.er.Delegated? && ClientLaws.RollupSees(w, venue) ==>
      var core := Effects.CoreThere(w, venue);
      && core.participants == w.core.participants && core.depositedMask == SLOTS
         && Effects.LiveThere(w, venue) == w.er.live
  {
    hide LiveFits, MasksFit, AssetFits, DistinctMints;
    ThereFits(env, w, venue);
    var v := Effects.VenueChecks(w, venue);
    var t := Instructions.ContextChecks(env, Effects.CoreThere(w, venue), Effects.LiveThere(w, venue),
                                        Effects.ClockThere(w, venue), signer);
    PassBoth(v, t);
    assert Instructions.Answers(Pass, v) <==> v[0].holds && v[1].holds;
    assert Instructions.Answers(Pass, t)
        <==> t[0].holds && t[1].holds && t[2].holds && t[3].holds && t[4].holds && t[5].holds;
    hide Instructions.Answers;
    if w.er.Delegated? && venue.OnEr? { LiveLinked(env, w, venue); }
  }

  lemma PassBoth(a: seq<Instructions.Check>, b: seq<Instructions.Check>)
    ensures Instructions.Answers(Pass, a + b) <==> Instructions.Answers(Pass, a) && Instructions.Answers(Pass, b)
  {
    assert forall i :: 0 <= i < |a| ==> (a + b)[i] == a[i];
    assert forall i :: 0 <= i < |b| ==> (a + b)[|a| + i] == b[i];
  }

  lemma LiveLinked(env: Env, w: World, venue: Venue)
    requires AtTable(env, w) && w.er.Delegated? && venue.OnEr?
    ensures var live := Effects.LiveThere(w, venue);
      live == w.er.live && live.core == env.coreKey && live.participants == w.core.participants
      && live.expiresAt == w.core.expiresAt
  {
  }

  lemma ThereFits(env: Env, w: World, venue: Venue)
    requires AtTable(env, w)
    ensures var core := Effects.CoreThere(w, venue);
      && SameTerms(core, w.core) && core.liveRoom == env.LiveKey()
         && env.roomPda(core.creator, core.roomNonce) == env.coreKey
      && (core.status == Active ==> core.depositedMask == SLOTS)
  {
    hide LiveFits, AssetFits, DistinctMints;
    if venue.OnEr? && venue.snapshot < |w.coreLog| {
      assert SameTerms(w.coreLog[venue.snapshot], w.core) && CoreFits(env, w.coreLog[venue.snapshot]);
    }
  }

  /** An instruction succeeds exactly when every one of its checks holds. */
  lemma OkIff(env: Env, w: World, signer: Key, action: Action)
    ensures Perform(env, w, signer, action).Ok? <==> Instructions.Answers(Pass, Effects.Checks(env, w, signer, action))
    ensures Perform(env, w, signer, action).Ok? ==>
      Effects.Leaves(env, w, signer, action, Perform(env, w, signer, action).value)
  {
    hide Effects.Checks, Effects.Leaves, Perform;
    Effects.EveryInstruction(env, w, signer, action);
    if Perform(env, w, signer, action).Ok? {
    } else if Instructions.Answers(Pass, Effects.Checks(env, w, signer, action)) {
      Instructions.AnswersOnce(Pass, Fail(Perform(env, w, signer, action).error),
                               Effects.Checks(env, w, signer, action));
    }
  }

  /** A proposal goes through exactly for a roster member at the table, on the revision it was drafted on, with one slot
      of each owner; it is then the next revision, and nobody is locked on it. */
  lemma ProposeIff(env: Env, w: World, signer: Key, venue: Venue, revision: u64, slots: Bytes3, cycle: Cycle)
    requires Reachable(env, w)
    ensures var r := Perform(env, w, signer, MakeProposal(venue, revision, slots, cycle));
      && (r.Ok? <==>
            && MaySpeak(w, signer, venue) && w.er.live.phase == Negotiating
            && revision == w.er.live.revision && revision < U64_MAX
            && forall owner :: 0 <= owner < 3 ==> slots[owner] / 2 == owner)
      && (r.Ok? ==>
            && r.value == w.(er := r.value.er, events := r.value.events) && r.value.er.Delegated?
            && r.value.er.live.revision == revision + 1 && r.value.er.live.selectedSlots == slots
            && r.value.er.live.cycle == cycle && Members(r.value.er.live.lockMask) == {})
  {
    hide Reachable, Perform, Instructions.Answers, Effects.TableChecks, Instructions.OneFundedSlotEach, AtTable,
         Members, MaySpeak, AllocationHash;
    var action := MakeProposal(venue, revision, slots, cycle);
    ReachableTable(env, w);
    OkIff(env, w, signer, action);
    TableHolds(env, w, signer, venue);
    var core, live := Effects.CoreThere(w, venue), Effects.LiveThere(w, venue);
    PassBoth(Effects.TableChecks(env, w, signer, venue), Instructions.ProposalChecks(core, live, revision, slots));
    FourPass(Instructions.ProposalChecks(core, live, revision, slots));
    Instructions.NoMembers();
    if MaySpeak(w, signer, venue) {
      SpeakerThere(w, signer, venue);
      FundedEach(slots);
    }
  }

  lemma SpeakerThere(w: World, signer: Key, venue: Venue)
    requires MaySpeak(w, signer, venue)
    ensures venue.OnEr? && w.er.Delegated? && Effects.LiveThere(w, venue) == w.er.live
      && ClientLaws.RollupSees(w, venue)
  {
  }

  lemma FourPass(c: seq<Instructions.Check>)
    requires |c| == 4
    ensures Instructions.Answers(Pass, c) <==> c[0].holds && c[1].holds && c[2].holds && c[3].holds
  {
  }

  lemma ThreePass(c: seq<Instructions.Check>)
    requires |c| == 3
    ensures Instructions.Answers(Pass, c) <==> c[0].holds && c[1].holds && c[2].holds
  {
  }

  lemma OnePass(c: seq<Instructions.Check>)
    requires |c| == 1
    ensures Instructions.Answers(Pass, c) <==> c[0].holds
  {
  }

  lemma FundedEach(slots: Bytes3)
    ensures Instructions.OneFundedSlotEach(SLOTS, slots) <==> forall owner :: 0 <= owner < 3 ==>
      slots[owner] / 2 == owner
  {
    Instructions.SlotBits();
    hide Members;
  }

  /** Nobody acts on a revision or a hash other than the copy's: such a call changes nothing, whatever the world. */
  lemma StaleTermsRefused(env: Env, w: World, signer: Key, venue: Venue, revision: u64, hash: Hash, slots: Bytes3,
                          cycle: Cycle)
    ensures var live := Effects.LiveThere(w, venue);
      && (revision != live.revision ==> After(env, w, Call(signer, MakeProposal(venue, revision, slots, cycle))) == w)
      && (revision != live.revision || hash != live.allocationHash ==>
            && After(env, w, Call(signer, TakeLock(venue, revision, hash))) == w
            && After(env, w, Call(signer, DropLock(venue, revision, hash))) == w)
  {
    hide Perform, Instructions.Answers, Effects.TableChecks, Instructions.LockChecks, Instructions.HasLockChecks,
         Effects.Leaves, Instructions.OneFundedSlotEach;
    var core, live := Effects.CoreThere(w, venue), Effects.LiveThere(w, venue);
    var table, terms := Effects.TableChecks(env, w, signer, venue), Instructions.TermsChecks(live, revision, hash);
    OkIff(env, w, signer, MakeProposal(venue, revision, slots, cycle));
    OkIff(env, w, signer, TakeLock(venue, revision, hash));
    OkIff(env, w, signer, DropLock(venue, revision, hash));
    PassBoth(table, Instructions.ProposalChecks(core, live, revision, slots));
    FourPass(Instructions.ProposalChecks(core, live, revision, slots));
    ThreePass(terms);
    var lock, drop := Instructions.LockChecks(core, live, Effects.ClockThere(w, venue), signer),
                      Instructions.HasLockChecks(core, live, signer);
    PassBoth(table, terms + lock);
    PassBoth(terms, lock);
    PassBoth(table, terms + drop);
    PassBoth(terms, drop);
  }

  // ----- Locks -----

  lemma LockSetHolds(live: RoomLive, core: RoomCore, now: i64, signer: Key)
    requires LocksFit(live) && Instructions.SeatOf(core.participants, signer) !in Members(live.lockMask)
    ensures Instructions.Answers(Pass, Instructions.LockChecks(core, live, now, signer))
  {
    var seat := Instructions.SeatOf(core.participants, signer);
    assert seat in Members(live.lockMask) <==> Has(live.lockMask, seat);
    WithHas(live.lockMask, seat, 0);
    WithHas(live.lockMask, seat, 1);
    WithHas(live.lockMask, seat, 2);
    assert Has(SEATS, 0) && Has(SEATS, 1) && Has(SEATS, 2);
    hide Has, With, Members;
  }

  lemma LockFits(env: Env, w: World)
    requires AtTable(env, w) && w.er.Delegated?
    ensures LocksFit(w.er.live)
  {
  }

  /** A lock goes through exactly for a roster member at the table who has none, on the current revision and hash. */
  lemma LockIff(env: Env, w: World, signer: Key, venue: Venue, revision: u64, hash: Hash)
    requires Reachable(env, w)
    ensures Perform(env, w, signer, TakeLock(venue, revision, hash)).Ok? <==>
      && MaySpeak(w, signer, venue) && w.er.live.phase == Negotiating
      && revision == w.er.live.revision && hash == w.er.live.allocationHash
      && Instructions.SeatOf(w.core.participants, signer) !in Members(w.er.live.lockMask)
  {
    hide Reachable, Perform, Instructions.Answers, Effects.TableChecks, AtTable, Members, MaySpeak, LocksFit,
         Effects.Leaves, Instructions.SeatOf;
    ReachableTable(env, w);
    OkIff(env, w, signer, TakeLock(venue, revision, hash));
    TableHolds(env, w, signer, venue);
    var core, live, now := Effects.CoreThere(w, venue), Effects.LiveThere(w, venue), Effects.ClockThere(w, venue);
    var terms, lock := Instructions.TermsChecks(live, revision, hash), Instructions.LockChecks(core, live, now, signer);
    PassBoth(Effects.TableChecks(env, w, signer, venue), terms + lock);
    PassBoth(terms, lock);
    ThreePass(terms);
    LockNeedsBit(core, live, now, signer);
    hide Instructions.LockChecks;
    if MaySpeak(w, signer, venue) {
      SpeakerThere(w, signer, venue);
      LockFits(env, w);
      if Instructions.SeatOf(core.participants, signer) !in Members(live.lockMask) {
        LockSetHolds(live, core, now, signer);
      }
    }
  }

  lemma LockNeedsBit(core: RoomCore, live: RoomLive, now: i64, signer: Key)
    ensures Instructions.Answers(Pass, Instructions.LockChecks(core, live, now, signer)) ==>
      Instructions.SeatOf(core.participants, signer) !in Members(live.lockMask)
  {
    var c := Instructions.LockChecks(core, live, now, signer);
    assert c[0] == Instructions.Check(Instructions.SeatOf(core.participants, signer) !in Members(live.lockMask),
                                      AlreadyLocked);
  }

  /** A lock is taken back exactly by the roster member who has it, on the current revision and hash. */
  lemma RevokeIff(env: Env, w: World, signer: Key, venue: Venue, revision: u64, hash: Hash)
    requires Reachable(env, w)
    ensures Perform(env, w, signer, DropLock(venue, revision, hash)).Ok? <==>
      && MaySpeak(w, signer, venue) && w.er.live.phase == Negotiating
      && revision == w.er.live.revision && hash == w.er.live.allocationHash
      && Instructions.SeatOf(w.core.participants, signer) in Members(w.er.live.lockMask)
  {
    hide Reachable, Perform, Instructions.Answers, Effects.TableChecks, AtTable, Members, MaySpeak, Effects.Leaves,
         Instructions.SeatOf;
    ReachableTable(env, w);
    OkIff(env, w, signer, DropLock(venue, revision, hash));
    TableHolds(env, w, signer, venue);
    var core, live := Effects.CoreThere(w, venue), Effects.LiveThere(w, venue);
    var terms, drop := Instructions.TermsChecks(live, revision, hash), Instructions.HasLockChecks(core, live, signer);
    PassBoth(Effects.TableChecks(env, w, signer, venue), terms + drop);
    PassBoth(terms, drop);
    ThreePass(terms);
    OnePass(drop);
    if MaySpeak(w, signer, venue) { SpeakerThere(w, signer, venue); }
  }

  /** A deal is finalized exactly by a roster member at the table, once all three seats are locked. */
  lemma FinalizeIff(env: Env, w: World, signer: Key, venue: Venue)
    requires Reachable(env, w)
    ensures Perform(env, w, signer, Finalize(venue)).Ok? <==>
      MaySpeak(w, signer, venue) && Members(w.er.live.lockMask) == {0, 1, 2}
  {
    hide Reachable, Perform, Instructions.Answers, Effects.TableChecks, AtTable, Members, MaySpeak, Effects.Leaves,
         Instructions.FinalizeChecks, LocksFit;
    ReachableTable(env, w);
    OkIff(env, w, signer, Finalize(venue));
    TableHolds(env, w, signer, venue);
    var live := Effects.LiveThere(w, venue);
    var own, commit := Instructions.FinalizeChecks(live), [Instructions.Check(venue.OnEr?, CpiFailed)];
    PassBoth(Effects.TableChecks(env, w, signer, venue), own + commit);
    PassBoth(own, commit);
    OnePass(commit);
    FinalizeNeedsPhase(live);
    if MaySpeak(w, signer, venue) {
      SpeakerThere(w, signer, venue);
      LockFits(env, w);
      FullSetHolds(live);
      Instructions.AllSeats(live.lockMask);
      DelegatedPhase(env, w);
    }
  }

  lemma DelegatedPhase(env: Env, w: World)
    requires AtTable(env, w) && w.er.Delegated?
    ensures w.er.live.phase != Finalized
  {
  }

  lemma FinalizeNeedsPhase(live: RoomLive)
    ensures Instructions.Answers(Pass, Instructions.FinalizeChecks(live)) ==> live.phase == Finalizing
  {
    var c := Instructions.FinalizeChecks(live);
    assert c[7] == Instructions.Check(live.phase == Finalizing, NotFinalizable);
  }

  lemma FullSetHolds(live: RoomLive)
    requires LocksFit(live) && live.phase != Finalized
    ensures Instructions.Answers(Pass, Instructions.FinalizeChecks(live)) <==> live.lockMask == SEATS
  {
    assert Has(SEATS, 0) && Has(SEATS, 1) && Has(SEATS, 2);
    var c := Instructions.FinalizeChecks(live);
    assert c[0] == Instructions.Check(live.lockMask == SEATS, NotFinalizable);
    hide Has;
  }

  // ----- Base -----

  /** Exactly a roster member cancels a room before its activation, and anybody one that is undecided at its expiry. */
  lemma CancelIff(env: Env, w: World, signer: Key)
    ensures Perform(env, w, signer, CancelAsParticipant).Ok? <==>
      signer in w.core.participants && w.core.status == Funding
    ensures Perform(env, w, signer, CancelAfterExpiry).Ok? <==>
      w.now >= w.core.expiresAt && (w.core.status == Funding || w.core.status == Active)
  {
    hide Perform;
    OkIff(env, w, signer, CancelAsParticipant);
    OkIff(env, w, signer, CancelAfterExpiry);
    TwoPass(Instructions.CancellationChecks(w.core, signer));
    TwoPass(Instructions.ExpiryChecks(w.core, w.now));
    hide Instructions.Answers;
  }

  lemma TwoPass(c: seq<Instructions.Check>)
    requires |c| == 2
    ensures Instructions.Answers(Pass, c) <==> c[0].holds && c[1].holds
  {
  }

  /** Exactly a roster member activates a room, once all six slots are deposited and before it expires. */
  lemma ActivateIff(env: Env, w: World, signer: Key)
    requires Reachable(env, w)
    ensures Perform(env, w, signer, Activate).Ok? <==>
      && signer in w.core.participants && w.core.status == Funding && w.now < w.core.expiresAt
      && Members(w.core.depositedMask) == {0, 1, 2, 3, 4, 5}
  {
    hide Reachable, Perform, Members, AtTable;
    ReachableTable(env, w);
    FundingIsOwned(env, w);
    OkIff(env, w, signer, Activate);
    var c := Instructions.ActivationChecks(w.core, w.liveOwner, w.now, signer);
    assert Instructions.Answers(Pass, c) <==> c[0].holds && c[1].holds && c[2].holds && c[3].holds && c[4].holds;
    hide Instructions.Answers;
  }

  lemma FundingIsOwned(env: Env, w: World)
    requires AtTable(env, w)
    ensures w.core.status == Funding ==> w.liveOwner.ProgramOwned?
  {
  }

  /** Only the owner of a slot deposits into it. */
  lemma DepositorOwnsSlot(env: Env, w: World, signer: Key, slot: byte, mint: Key, source: Key, vault: Key)
    requires Perform(env, w, signer, Deposit(slot, mint, source, vault)).Ok?
    ensures slot < 6 && w.core.participants[slot / 2] == signer && w.core.status == Funding
    ensures slot !in Members(w.core.depositedMask)
  {
    hide Perform, Members, Effects.Leaves, Instructions.DepositAccountChecks, Instructions.DepositTokenChecks;
    OkIff(env, w, signer, Deposit(slot, mint, source, vault));
    var a, r, t := Instructions.DepositAccountChecks(env, w.ledger, signer, mint, source, vault),
                   Instructions.DepositRoomChecks(w.core, signer, slot),
                   Instructions.DepositTokenChecks(w.core, w.ledger, mint, source, vault);
    PassBoth(a, r + t);
    PassBoth(r, t);
    FourPass(r);
    hide Instructions.Answers;
  }

  /** A stranger's call that changes anything is an expiry's cancellation, a settlement or a return: the three that are
      anybody's. */
  lemma StrangersMayOnly(env: Env, w: World, signer: Key, action: Action)
    requires Reachable(env, w) && signer !in w.core.participants && After(env, w, Call(signer, action)) != w
    ensures action.CancelAfterExpiry? || action.SettleDeal? || action.Return?
  {
    hide Reachable, Perform, Members, MaySpeak;
    match action
    case Deposit(slot, mint, source, vault) => DepositorOwnsSlot(env, w, signer, slot, mint, source, vault);
    case Activate => ActivateIff(env, w, signer);
    case CancelAsParticipant => CancelIff(env, w, signer);
    case MakeProposal(venue, revision, slots, cycle) =>
      ProposeIff(env, w, signer, venue, revision, slots, cycle);
      SpeakersAreSeated(w, signer, venue);
    case TakeLock(venue, revision, hash) =>
      LockIff(env, w, signer, venue, revision, hash);
      SpeakersAreSeated(w, signer, venue);
    case DropLock(venue, revision, hash) =>
      RevokeIff(env, w, signer, venue, revision, hash);
      SpeakersAreSeated(w, signer, venue);
    case Finalize(venue) =>
      FinalizeIff(env, w, signer, venue);
      SpeakersAreSeated(w, signer, venue);
    case _ =>
  }

  lemma SpeakersAreSeated(w: World, signer: Key, venue: Venue)
    ensures MaySpeak(w, signer, venue) ==> signer in w.core.participants
  {
  }

  // ----- Nobody speaks for another seat -----

  lemma QuietStepKeepsTable(env: Env, w: World, step: Step)
    requires CopiesFit(w) && (step.Call? ==> !Agreement.Negotiates(step.action))
    ensures Current(After(env, w, step)) == Current(w)
  {
    hide Perform;
    if step.Call? { Agreement.BaseActionKeepsDeal(env, w, step.signer, step.action); }
  }

  /** A seat's lock comes and goes by that participant's own calls, on the very revision and hash on the table; only a
      new proposal, by a roster member on that revision, clears the locks of others. */
  predicate Personal(w: World, w': World, step: Step, seat: nat)
    requires seat < 3
  {
    var before, after := Current(w), Current(w');
    var owner := w.core.participants[seat];
    && (Has(after.lockMask, seat) && !Has(before.lockMask, seat) ==>
          step.Call? && step.signer == owner && step.action.TakeLock?
          && step.action.expectedRevision == before.revision && step.action.expectedHash == before.allocationHash)
    && (!Has(after.lockMask, seat) && Has(before.lockMask, seat) && after.revision == before.revision ==>
          step.Call? && step.signer == owner && step.action.DropLock?
          && step.action.expectedRevision == before.revision && step.action.expectedHash == before.allocationHash)
    && (after.revision != before.revision ==>
          step.Call? && step.signer in w.core.participants && step.action.MakeProposal?
          && step.action.expectedRevision == before.revision && after.revision == before.revision + 1)
  }

  lemma ConsentIsPersonal(env: Env, w: World, step: Step, seat: nat)
    requires Reachable(env, w) && seat < 3
    ensures Personal(w, After(env, w, step), step, seat)
  {
    hide Reachable, CoreFits, LogFits, LiveFits, Perform, CopiesFit, Has;
    ReachableTable(env, w);
    if step.Call? && Agreement.Negotiates(step.action) {
      if After(env, w, step) != w {
        SpeechIsPersonal(env, w, step.signer, step.action, seat);
      }
    } else {
      QuietStepKeepsTable(env, w, step);
    }
  }

  lemma SpeechIsPersonal(env: Env, w: World, signer: Key, action: Action, seat: nat)
    requires Reachable(env, w) && seat < 3 && Agreement.Negotiates(action) && Perform(env, w, signer, action).Ok?
    ensures Personal(w, Perform(env, w, signer, action).value, Call(signer, action), seat)
  {
    hide Reachable, Perform, Personal;
    match action
    case MakeProposal(venue, revision, slots, cycle) =>
      ProposalIsPersonal(env, w, signer, venue, revision, slots, cycle, seat);
    case TakeLock(venue, revision, hash) => LockIsPersonal(env, w, signer, venue, revision, hash, seat);
    case DropLock(venue, revision, hash) => RevokeIsPersonal(env, w, signer, venue, revision, hash, seat);
    case Finalize(venue) => FinalizeIsPersonal(env, w, signer, venue, seat);
  }

  lemma ProposalIsPersonal(env: Env, w: World, signer: Key, venue: Venue, revision: u64, slots: Bytes3, cycle: Cycle,
                           seat: nat)
    requires Reachable(env, w) && seat < 3 && Perform(env, w, signer, MakeProposal(venue, revision, slots, cycle)).Ok?
    ensures Personal(w, Perform(env, w, signer, MakeProposal(venue, revision, slots, cycle)).value,
                     Call(signer, MakeProposal(venue, revision, slots, cycle)), seat)
  {
    hide Reachable, Perform, MaySpeak, Members, Has;
    ProposeIff(env, w, signer, venue, revision, slots, cycle);
    SpeakerThere(w, signer, venue);
    SpeakersAreSeated(w, signer, venue);
    NoBits(Perform(env, w, signer, MakeProposal(venue, revision, slots, cycle)).value.er.live.lockMask, seat);
  }

  lemma NoBits(mask: bv8, seat: nat)
    requires seat < 8 && Members(mask) == {}
    ensures !Has(mask, seat)
  {
    assert seat !in Members(mask);
  }

  lemma LockIsPersonal(env: Env, w: World, signer: Key, venue: Venue, revision: u64, hash: Hash, seat: nat)
    requires Reachable(env, w) && seat < 3 && Perform(env, w, signer, TakeLock(venue, revision, hash)).Ok?
    ensures Personal(w, Perform(env, w, signer, TakeLock(venue, revision, hash)).value,
                     Call(signer, TakeLock(venue, revision, hash)), seat)
  {
    hide Reachable, Perform, MaySpeak, AtTable, Members, Has, With, Effects.Checks, Instructions.SeatOf;
    ReachableTable(env, w);
    OkIff(env, w, signer, TakeLock(venue, revision, hash));
    TableHolds(env, w, signer, venue);
    LockIff(env, w, signer, venue, revision, hash);
    SpeakerThere(w, signer, venue);
    SpeakersAreSeated(w, signer, venue);
    OwnSeat(w.core.participants, signer);
    WithHas(w.er.live.lockMask, Instructions.SeatOf(w.core.participants, signer), seat);
  }

  lemma RevokeIsPersonal(env: Env, w: World, signer: Key, venue: Venue, revision: u64, hash: Hash, seat: nat)
    requires Reachable(env, w) && seat < 3 && Perform(env, w, signer, DropLock(venue, revision, hash)).Ok?
    ensures Personal(w, Perform(env, w, signer, DropLock(venue, revision, hash)).value,
                     Call(signer, DropLock(venue, revision, hash)), seat)
  {
    hide Reachable, Perform, MaySpeak, AtTable, Members, Has, Without, Effects.Checks, Instructions.SeatOf;
    ReachableTable(env, w);
    OkIff(env, w, signer, DropLock(venue, revision, hash));
    TableHolds(env, w, signer, venue);
    RevokeIff(env, w, signer, venue, revision, hash);
    SpeakerThere(w, signer, venue);
    SpeakersAreSeated(w, signer, venue);
    OwnSeat(w.core.participants, signer);
    WithoutHas(w.er.live.lockMask, Instructions.SeatOf(w.core.participants, signer), seat);
  }

  lemma FinalizeIsPersonal(env: Env, w: World, signer: Key, venue: Venue, seat: nat)
    requires Reachable(env, w) && seat < 3 && Perform(env, w, signer, Finalize(venue)).Ok?
    ensures Personal(w, Perform(env, w, signer, Finalize(venue)).value, Call(signer, Finalize(venue)), seat)
  {
    hide Reachable, Perform, MaySpeak, Members, Has, Effects.Checks;
    OkIff(env, w, signer, Finalize(venue));
    FinalizeIff(env, w, signer, venue);
    SpeakerThere(w, signer, venue);
  }

  lemma OwnSeat(participants: Trio, signer: Key)
    requires signer in participants
    ensures participants[Instructions.SeatOf(participants, signer)] == signer
    ensures Instructions.SeatOf(participants, signer) < 3
  {
  }
}
