/** Every instruction against its own list of checks: the first one that fails is the error, and when none does the room
    changes in exactly the fields named here. Nothing is assumed of the room, the accounts or the caller. */
module Instructions {
  import opened Wire
  import opened Masks
  import opened Records
  import opened Tokens
  import opened Allocation
  import Rules

  // ----- Lists of checks -----

  datatype Check = Check(holds: bool, error: TradeError)

  ghost predicate FirstFailure(checks: seq<Check>, i: nat) {
    i < |checks| && !checks[i].holds && forall j :: 0 <= j < i ==> checks[j].holds
  }

  /** Every check holds, or the answer is the error of the first that does not. */
  ghost predicate Answers(r: Outcome, checks: seq<Check>) {
    match r
    case Pass => forall i :: 0 <= i < |checks| ==> checks[i].holds
    case Fail(error) => exists i: nat :: FirstFailure(checks, i) && checks[i].error == error
  }

  ghost predicate Reports<T>(r: Result<T>, checks: seq<Check>) {
    Answers(Told(r), checks)
  }

  /** A list of checks has one answer. */
  lemma AnswersOnce(a: Outcome, b: Outcome, checks: seq<Check>)
    requires Answers(a, checks) && Answers(b, checks)
    ensures a == b
  {
    forall i: nat, j: nat | FirstFailure(checks, i) && FirstFailure(checks, j)
      ensures i == j
    {
    }
  }

  lemma AnswerFirst(r: Outcome, checks: seq<Check>, later: seq<Check>)
    requires r.Fail? && Answers(r, checks)
    ensures Answers(r, checks + later)
  {
    var i: nat :| FirstFailure(checks, i) && checks[i].error == r.error;
    assert FirstFailure(checks + later, i);
  }

  lemma AnswerLater(r: Outcome, checks: seq<Check>, later: seq<Check>)
    requires Answers(Pass, checks) && Answers(r, later)
    ensures Answers(r, checks + later)
  {
    if r.Fail? {
      var i: nat :| FirstFailure(later, i) && later[i].error == r.error;
      assert (checks + later)[|checks| + i] == later[i];
      assert FirstFailure(checks + later, |checks| + i);
    }
  }

  /** The answer to two lists in a row. */
  lemma AnswerBoth(first: Outcome, second: Outcome, checks: seq<Check>, later: seq<Check>)
    requires Answers(first, checks) && (first.Pass? ==> Answers(second, later))
    ensures Answers(if first.Fail? then first else second, checks + later)
  {
    if first.Fail? {
      AnswerFirst(first, checks, later);
    } else {
      AnswerLater(second, checks, later);
    }
  }

  // ----- The guard of a negotiation instruction -----

  function ContextChecks(env: Env, core: RoomCore, live: RoomLive, now: i64, actor: Key): seq<Check> {
    [Check(env.roomPda(core.creator, core.roomNonce) == env.coreKey, InvalidAccountPda),
     Check(core.status == Active, InvalidCoreStatus),
     Check(core.liveRoom == env.livePda(env.coreKey) && live.core == env.coreKey, CoreLiveMismatch),
     Check(core.participants == live.participants && core.expiresAt == live.expiresAt, CoreLiveMismatch),
     Check(now < core.expiresAt, InvalidExpiry),
     Check(actor in core.participants, UnauthorizedParticipant)]
  }

  lemma ContextAnswers(env: Env, core: RoomCore, live: RoomLive, now: i64, actor: Key)
    ensures Answers(Rules.LiveContext(env, core, live, now, actor), ContextChecks(env, core, live, now, actor))
  {
    var c := ContextChecks(env, core, live, now, actor);
    var r := Rules.LiveContext(env, core, live, now, actor);
    if r.Fail? {
      var i := if !c[0].holds then 0 else if !c[1].holds then 1 else if !c[2].holds then 2 else if !c[3].holds then 3
               else if !c[4].holds then 4 else 5;
      assert FirstFailure(c, i);
    }
  }

  /** One slot of each owner, and all of them deposited. */
  predicate OneFundedSlotEach(mask: bv8, slots: Bytes3) {
    forall owner :: 0 <= owner < 3 ==> slots[owner] / 2 == owner && slots[owner] in Members(mask)
  }

  lemma SelectionMeans(core: RoomCore, slots: Bytes3)
    ensures Rules.ValidateSelection(core, slots)
         == if OneFundedSlotEach(core.depositedMask, slots) then Pass else Fail(InvalidSelection)
  {
    hide Has;
    var m := core.depositedMask;
    assert Rules.SlotsInRange(slots) <==> slots[0] / 2 == 0 && slots[1] / 2 == 1 && slots[2] / 2 == 2;
    assert slots[0] < 8 ==> (slots[0] in Members(m) <==> Has(m, slots[0]));
    assert slots[1] < 8 ==> (slots[1] in Members(m) <==> Has(m, slots[1]));
    assert slots[2] < 8 ==> (slots[2] in Members(m) <==> Has(m, slots[2]));
  }

  // ----- What negotiation writes -----

  function Destinations(cycle: Cycle): Bytes3 {
    if cycle == Forward then [1, 2, 0] else [2, 0, 1]
  }

  /** A proposal: the next revision with its hash, and no lock left. */
  function ProposedLive(env: Env, core: RoomCore, live: RoomLive, now: i64, actor: Key, slots: Bytes3,
                        cycle: Cycle): RoomLive
    requires live.revision < U64_MAX
  {
    live.(revision := live.revision + 1, selectedSlots := slots, cycle := cycle, destinations := Destinations(cycle),
          allocationHash := AllocationHash(env, live.revision + 1, core.expiresAt, slots, cycle, Destinations(cycle)),
          lockMask := 0, lockedRevision := [0, 0, 0], lockedHash := [ZERO_HASH, ZERO_HASH, ZERO_HASH],
          lastActor := actor, lastAction := Proposed, updatedAt := now)
  }

  /** The seat of a roster member. */
  function SeatOf(participants: Trio, actor: Key): nat {
    if participants[0] == actor then 0 else if participants[1] == actor then 1 else 2
  }

  /** A lock: the seat's bit with the current revision and hash; the third bit ends the negotiation. */
  function LockedLive(core: RoomCore, live: RoomLive, now: i64, actor: Key): RoomLive {
    var seat := SeatOf(core.participants, actor);
    var mask := With(live.lockMask, seat);
    live.(lockMask := mask, lockedRevision := live.lockedRevision[seat := live.revision],
          lockedHash := live.lockedHash[seat := live.allocationHash],
          phase := if mask == SEATS then Finalizing else Negotiating,
          lastActor := actor, lastAction := Locked, updatedAt := now)
  }

  function RevokedLive(core: RoomCore, live: RoomLive, now: i64, actor: Key): RoomLive {
    var seat := SeatOf(core.participants, actor);
    live.(lockMask := Without(live.lockMask, seat), lockedRevision := live.lockedRevision[seat := 0],
          lockedHash := live.lockedHash[seat := ZERO_HASH], lastActor := actor, lastAction := Revoked, updatedAt := now)
  }

  function FinalizedLive(live: RoomLive, now: i64, actor: Key): RoomLive {
    live.(phase := Finalized, lastActor := actor, lastAction := FinalizedAction, updatedAt := now)
  }

  // ----- What negotiation checks -----

  function ProposalChecks(core: RoomCore, live: RoomLive, expected: u64, slots: Bytes3): seq<Check> {
    [Check(live.phase == Negotiating, DealFrozen),
     Check(expected == live.revision, RevisionMismatch),
     Check(OneFundedSlotEach(core.depositedMask, slots), InvalidSelection),
     Check(expected < 0xFFFF_FFFF_FFFF_FFFF, ArithmeticOverflow)]
  }

  /** The current revision and hash, as a lock or its revocation names them. */
  function TermsChecks(live: RoomLive, revision: u64, hash: Hash): seq<Check> {
    [Check(live.phase == Negotiating, DealFrozen),
     Check(revision == live.revision, RevisionMismatch),
     Check(hash == live.allocationHash, AllocationHashMismatch)]
  }

  /** Seat by seat, its recorded revision and then its recorded hash are the current ones. */
  function LockSetChecks(live: RoomLive): seq<Check> {
    [Check(live.lockedRevision[0] == live.revision, RevisionMismatch),
     Check(live.lockedHash[0] == live.allocationHash, AllocationHashMismatch),
     Check(live.lockedRevision[1] == live.revision, RevisionMismatch),
     Check(live.lockedHash[1] == live.allocationHash, AllocationHashMismatch),
     Check(live.lockedRevision[2] == live.revision, RevisionMismatch),
     Check(live.lockedHash[2] == live.allocationHash, AllocationHashMismatch)]
  }

  /** A lock is refused to a seat that has one; the third is followed by a look at all of them. */
  function LockChecks(core: RoomCore, live: RoomLive, now: i64, actor: Key): seq<Check> {
    var locked := LockedLive(core, live, now, actor);
    [Check(SeatOf(core.participants, actor) !in Members(live.lockMask), AlreadyLocked)]
    + if locked.lockMask == SEATS then LockSetChecks(locked) else []
  }

  lemma ProposeRule(env: Env, core: RoomCore, live: RoomLive, now: i64, actor: Key, expected: u64, slots: Bytes3,
                    cycle: Cycle)
    ensures var r := Rules.Propose(env, core, live, now, actor, expected, slots, cycle);
      && Reports(r, ContextChecks(env, core, live, now, actor) + ProposalChecks(core, live, expected, slots))
      && (r.Ok? ==> live.revision < U64_MAX && r.value == ProposedLive(env, core, live, now, actor, slots, cycle))
  {
    hide Rules.LiveContext, Rules.ValidateSelection, ContextChecks, OneFundedSlotEach, AllocationHash, Answers;
    ContextAnswers(env, core, live, now, actor);
    SelectionMeans(core, slots);
    var c := ProposalChecks(core, live, expected, slots);
    var own := if !c[0].holds then Fail(DealFrozen) else if !c[1].holds then Fail(RevisionMismatch)
               else if !c[2].holds then Fail(InvalidSelection) else Need(c[3].holds, ArithmeticOverflow);
    FourAnswer(c);
    AnswerBoth(Rules.LiveContext(env, core, live, now, actor), own, ContextChecks(env, core, live, now, actor), c);
  }

  lemma FourAnswer(c: seq<Check>)
    requires |c| == 4
    ensures Answers(if !c[0].holds then Fail(c[0].error) else if !c[1].holds then Fail(c[1].error)
                    else if !c[2].holds then Fail(c[2].error) else Need(c[3].holds, c[3].error), c)
  {
    var i := if !c[0].holds then 0 else if !c[1].holds then 1 else if !c[2].holds then 2 else 3;
    assert c[i].holds || FirstFailure(c, i);
  }

  function TermsVerdict(live: RoomLive, revision: u64, hash: Hash): Outcome {
    if live.phase != Negotiating then Fail(DealFrozen) else if revision != live.revision then Fail(RevisionMismatch)
    else Need(hash == live.allocationHash, AllocationHashMismatch)
  }

  lemma TermsAnswer(live: RoomLive, revision: u64, hash: Hash)
    ensures Answers(TermsVerdict(live, revision, hash), TermsChecks(live, revision, hash))
  {
    var c := TermsChecks(live, revision, hash);
    var i := if !c[0].holds then 0 else if !c[1].holds then 1 else 2;
    assert c[i].holds || FirstFailure(c, i);
  }

  lemma LockSetAnswers(live: RoomLive)
    ensures Answers(Rules.ValidateLockSet(live), [Check(live.lockMask == SEATS, NotFinalizable)] + LockSetChecks(live))
    ensures live.lockMask == SEATS ==> Answers(Rules.ValidateLockSet(live), LockSetChecks(live))
  {
    var c := LockSetChecks(live);
    var i := if !c[0].holds then 0 else if !c[1].holds then 1 else if !c[2].holds then 2 else if !c[3].holds then 3
             else if !c[4].holds then 4 else 5;
    assert c[i].holds || FirstFailure(c, i);
    var m := [Check(live.lockMask == SEATS, NotFinalizable)];
    assert m[0].holds || FirstFailure(m, 0);
    if live.lockMask == SEATS {
      AnswerLater(Rules.ValidateLockSet(live), m, c);
    } else {
      AnswerFirst(Fail(NotFinalizable), m, c);
    }
  }

  lemma SeatMeans(participants: Trio, actor: Key)
    ensures Rules.ParticipantIndex(participants, actor).Ok? <==> actor in participants
    ensures actor in participants ==> Rules.ParticipantIndex(participants, actor) == Ok(SeatOf(participants, actor))
    ensures Rules.RequireParticipant(participants, actor)
         == if actor in participants then Pass else Fail(UnauthorizedParticipant)
  {
  }

  lemma ContextSeat(env: Env, core: RoomCore, live: RoomLive, now: i64, actor: Key)
    ensures Rules.LiveContext(env, core, live, now, actor).Pass? ==> actor in core.participants
  {
  }

  lemma OneAnswer(c: seq<Check>)
    requires |c| == 1
    ensures Answers(Need(c[0].holds, c[0].error), c)
  {
    assert c[0].holds || FirstFailure(c, 0);
  }

  function LockVerdict(core: RoomCore, live: RoomLive, now: i64, actor: Key): Outcome {
    var locked := LockedLive(core, live, now, actor);
    if Has(live.lockMask, SeatOf(core.participants, actor)) then Fail(AlreadyLocked)
    else if locked.lockMask == SEATS then Rules.ValidateLockSet(locked) else Pass
  }

  lemma LockAnswers(core: RoomCore, live: RoomLive, now: i64, actor: Key)
    ensures Answers(LockVerdict(core, live, now, actor), LockChecks(core, live, now, actor))
  {
    var seat, locked := SeatOf(core.participants, actor), LockedLive(core, live, now, actor);
    assert seat in Members(live.lockMask) <==> Has(live.lockMask, seat);
    hide Has, With, Answers, Rules.ValidateLockSet, LockSetChecks;
    var c := [Check(seat !in Members(live.lockMask), AlreadyLocked)];
    OneAnswer(c);
    LockSetAnswers(locked);
    if locked.lockMask == SEATS {
      AnswerBoth(Need(c[0].holds, AlreadyLocked), Rules.ValidateLockSet(locked), c, LockSetChecks(locked));
    } else {
      assert c + [] == c;
    }
  }

  lemma LockRule(env: Env, core: RoomCore, live: RoomLive, now: i64, actor: Key, revision: u64, hash: Hash)
    ensures var r := Rules.Lock(env, core, live, now, actor, revision, hash);
      && Reports(r, ContextChecks(env, core, live, now, actor)
                    + (TermsChecks(live, revision, hash) + LockChecks(core, live, now, actor)))
      && (r.Ok? ==> r.value == LockedLive(core, live, now, actor))
  {
    hide Rules.LiveContext, ContextChecks, Answers, Rules.ValidateLockSet, LockSetChecks, Has, With, TermsChecks,
         LockChecks, Rules.ParticipantIndex;
    ContextAnswers(env, core, live, now, actor);
    ContextSeat(env, core, live, now, actor);
    SeatMeans(core.participants, actor);
    TermsAnswer(live, revision, hash);
    LockAnswers(core, live, now, actor);
    var terms, lock := TermsVerdict(live, revision, hash), LockVerdict(core, live, now, actor);
    AnswerBoth(terms, lock, TermsChecks(live, revision, hash), LockChecks(core, live, now, actor));
    AnswerBoth(Rules.LiveContext(env, core, live, now, actor), if terms.Fail? then terms else lock,
               ContextChecks(env, core, live, now, actor),
               TermsChecks(live, revision, hash) + LockChecks(core, live, now, actor));
    SameLocked(env, core, live, now, actor, revision, hash);
  }

  /** The record the rule rechecks differs from the one it leaves in phase and audit fields only. */
  lemma SameLocked(env: Env, core: RoomCore, live: RoomLive, now: i64, actor: Key, revision: u64, hash: Hash)
    ensures var seat, next := SeatOf(core.participants, actor), LockedLive(core, live, now, actor);
      var locked := live.(lockedRevision := live.lockedRevision[seat := live.revision],
                          lockedHash := live.lockedHash[seat := live.allocationHash],
                          lockMask := With(live.lockMask, seat));
      Rules.ValidateLockSet(locked) == Rules.ValidateLockSet(next)
  {
  }

  lemma RevokeRule(env: Env, core: RoomCore, live: RoomLive, now: i64, actor: Key, revision: u64, hash: Hash)
    ensures var r := Rules.RevokeLock(env, core, live, now, actor, revision, hash);
      && Reports(r, ContextChecks(env, core, live, now, actor)
                    + (TermsChecks(live, revision, hash) + HasLockChecks(core, live, actor)))
      && (r.Ok? ==> r.value == RevokedLive(core, live, now, actor))
  {
    var seat := SeatOf(core.participants, actor);
    assert seat in Members(live.lockMask) <==> Has(live.lockMask, seat);
    hide Rules.LiveContext, ContextChecks, Answers, Has, Without, TermsChecks, Rules.ParticipantIndex;
    ContextAnswers(env, core, live, now, actor);
    ContextSeat(env, core, live, now, actor);
    SeatMeans(core.participants, actor);
    TermsAnswer(live, revision, hash);
    var c := HasLockChecks(core, live, actor);
    var terms, lock := TermsVerdict(live, revision, hash), Need(c[0].holds, NotLocked);
    OneAnswer(c);
    AnswerBoth(terms, lock, TermsChecks(live, revision, hash), c);
    AnswerBoth(Rules.LiveContext(env, core, live, now, actor), if terms.Fail? then terms else lock,
               ContextChecks(env, core, live, now, actor), TermsChecks(live, revision, hash) + c);
  }

  function HasLockChecks(core: RoomCore, live: RoomLive, actor: Key): seq<Check> {
    [Check(SeatOf(core.participants, actor) in Members(live.lockMask), NotLocked)]
  }

  function FinalizeChecks(live: RoomLive): seq<Check> {
    ([Check(live.lockMask == SEATS, NotFinalizable)] + LockSetChecks(live))
    + [Check(live.phase == Finalizing, NotFinalizable)]
  }

  lemma FinalizeRule(env: Env, core: RoomCore, live: RoomLive, now: i64, actor: Key)
    ensures var r := Rules.FinalizeLive(env, core, live, now, actor);
      && Reports(r, ContextChecks(env, core, live, now, actor) + FinalizeChecks(live))
      && (r.Ok? ==> r.value == FinalizedLive(live, now, actor))
  {
    hide Rules.LiveContext, ContextChecks, Answers, Rules.ValidateLockSet, LockSetChecks;
    ContextAnswers(env, core, live, now, actor);
    LockSetAnswers(live);
    var locks, phase := Rules.ValidateLockSet(live), Need(live.phase == Finalizing, NotFinalizable);
    OneAnswer([Check(live.phase == Finalizing, NotFinalizable)]);
    AnswerBoth(locks, phase, [Check(live.lockMask == SEATS, NotFinalizable)] + LockSetChecks(live),
               [Check(live.phase == Finalizing, NotFinalizable)]);
    AnswerBoth(Rules.LiveContext(env, core, live, now, actor), if locks.Fail? then locks else phase,
               ContextChecks(env, core, live, now, actor), FinalizeChecks(live));
  }

  // ----- Creation -----

  function CreationChecks(env: Env, creator: Key, nonce: u64, participants: Trio, expiresAt: i64,
                          now: i64): seq<Check> {
    [Check(env.roomPda(creator, nonce) == env.coreKey, ConstraintViolated),
     Check((forall i :: 0 <= i < 3 ==> participants[i] != DEFAULT_KEY)
           && (forall i, j :: 0 <= i < j < 3 ==> participants[i] != participants[j]), InvalidParticipants),
     Check(now + 1200 <= 0x7FFF_FFFF_FFFF_FFFF, ArithmeticOverflow),
     Check(expiresAt >= now + 1200, InvalidExpiry)]
  }

  /** What a room is created with: exactly the roster and the terms asked for, nothing deposited, proposed or locked. */
  ghost predicate Created(env: Env, core: RoomCore, live: RoomLive, creator: Key, nonce: u64, participants: Trio,
                          expiresAt: i64, now: i64, coreBump: byte, liveBump: byte, vaultBump: byte) {
    && core.version == 1 && core.coreBump == coreBump && core.liveBump == liveBump
    && core.vaultAuthorityBump == vaultBump
    && core.creator == creator && core.roomNonce == nonce && core.participants == participants
    && core.liveRoom == env.livePda(env.coreKey)
    && (forall s :: 0 <= s < 6 ==>
          core.assets[s] == AssetRecord(DEFAULT_KEY, DEFAULT_KEY, DEFAULT_KEY, DEFAULT_KEY, DEFAULT_KEY, 0, 0))
    && Members(core.depositedMask) == {} && Members(core.returnedMask) == {} && Members(core.selectedMask) == {}
    && core.status == Funding && core.createdAt == now && core.expiresAt == expiresAt
    && core.settledRevision == 0 && core.allocationHash == ZERO_HASH && core.rentPayer == creator
    && (forall i :: 0 <= i < 64 ==> core.reserved[i] == 0 && live.reserved[i] == 0)
    && live.version == 1 && live.bump == liveBump && live.core == env.coreKey && live.participants == participants
    && live.expiresAt == expiresAt && live.revision == 0 && live.selectedSlots == [0, 2, 4] && live.cycle == Forward
    && live.destinations == [1, 2, 0] && live.allocationHash == ZERO_HASH
    && live.lockedRevision == [0, 0, 0] && live.lockedHash == [ZERO_HASH, ZERO_HASH, ZERO_HASH]
    && Members(live.lockMask) == {} && live.phase == Negotiating
    && live.lastActor == DEFAULT_KEY && live.lastAction == Initialized && live.updatedAt == now
  }

  /** A room is created on an address of its own, for three different wallets and for at least twenty minutes, and only
      so; both records carry exactly what was asked for. */
  lemma CreatedIff(env: Env, creator: Key, nonce: u64, participants: Trio, expiresAt: i64, now: i64,
                   coreBump: byte, liveBump: byte, vaultBump: byte)
    ensures var r := Rules.InitializeRoom(env, creator, nonce, participants, expiresAt, now, coreBump, liveBump,
                                          vaultBump);
      && Reports(r, CreationChecks(env, creator, nonce, participants, expiresAt, now))
      && (r.Ok? ==> Created(env, r.value.0, r.value.1, creator, nonce, participants, expiresAt, now,
                            coreBump, liveBump, vaultBump))
  {
    hide Answers;
    var c := CreationChecks(env, creator, nonce, participants, expiresAt, now);
    RosterMeans(participants);
    FourAnswer(c);
    NoMembers();
  }

  lemma NoMembers()
    ensures Members(0) == {}
  {
    assert forall i: nat :: i < 8 ==> !Has(0, i);
  }

  lemma RosterMeans(participants: Trio)
    ensures Rules.ValidateParticipants(participants)
         == if (forall i :: 0 <= i < 3 ==> participants[i] != DEFAULT_KEY)
               && (forall i, j :: 0 <= i < j < 3 ==> participants[i] != participants[j])
            then Pass else Fail(InvalidParticipants)
  {
    assert Rules.ValidateParticipants(participants).Fail? ==>
        participants[0] == DEFAULT_KEY || participants[1] == DEFAULT_KEY || participants[2] == DEFAULT_KEY
        || participants[0] == participants[1] || participants[0] == participants[2]
        || participants[1] == participants[2];
  }

  // ----- Activation and cancellation -----

  function ActivationChecks(core: RoomCore, liveOwner: Rules.LiveOwner, now: i64, signer: Key): seq<Check> {
    [Check(signer in core.participants, UnauthorizedParticipant),
     Check(core.status == Funding, InvalidCoreStatus),
     Check(Members(core.depositedMask) == {0, 1, 2, 3, 4, 5}, NotFullyFunded),
     Check(now < core.expiresAt, InvalidExpiry),
     Check(liveOwner.ProgramOwned?, CpiFailed)]
  }

  lemma ActivationRule(core: RoomCore, liveOwner: Rules.LiveOwner, now: i64, signer: Key)
    ensures var r := Rules.ActivateAndDelegateLive(core, liveOwner, now, signer);
      Reports(r, ActivationChecks(core, liveOwner, now, signer)) && (r.Ok? ==> r.value == core.(status := Active))
  {
    hide Members;
    SeatMeans(core.participants, signer);
    AllSlots(core.depositedMask);
    var c := ActivationChecks(core, liveOwner, now, signer);
    var i := if !c[0].holds then 0 else if !c[1].holds then 1 else if !c[2].holds then 2 else if !c[3].holds then 3
        else 4;
    assert c[i].holds || FirstFailure(c, i);
  }

  lemma AllSlots(mask: bv8)
    ensures mask == SLOTS <==> Members(mask) == {0, 1, 2, 3, 4, 5}
  {
    SlotBits();
    if Members(mask) == {0, 1, 2, 3, 4, 5} {
      forall i: nat | i < 8
        ensures Has(mask, i) <==> Has(SLOTS, i)
      {
        assert Has(mask, i) <==> i in Members(mask);
        assert Has(SLOTS, i) <==> i in Members(SLOTS);
      }
      MaskExtensional(mask, SLOTS);
    }
  }

  lemma AllSeats(mask: bv8)
    ensures mask == SEATS <==> Members(mask) == {0, 1, 2}
  {
    assert Has(SEATS, 0) && Has(SEATS, 1) && Has(SEATS, 2);
    assert !Has(SEATS, 3) && !Has(SEATS, 4) && !Has(SEATS, 5) && !Has(SEATS, 6) && !Has(SEATS, 7);
    assert Members(SEATS) == {0, 1, 2};
    MembersLaws(mask, SEATS, 0);
  }

  lemma SlotBits()
    ensures Members(SLOTS) == {0, 1, 2, 3, 4, 5}
  {
    assert Has(SLOTS, 0) && Has(SLOTS, 1) && Has(SLOTS, 2) && Has(SLOTS, 3) && Has(SLOTS, 4) && Has(SLOTS, 5);
    assert !Has(SLOTS, 6) && !Has(SLOTS, 7);
  }

  function CancellationChecks(core: RoomCore, signer: Key): seq<Check> {
    [Check(signer in core.participants, UnauthorizedParticipant), Check(core.status == Funding, InvalidCoreStatus)]
  }

  function ExpiryChecks(core: RoomCore, now: i64): seq<Check> {
    [Check(now >= core.expiresAt, NotExpired),
     Check(core.status == Funding || core.status == Active, InvalidCoreStatus)]
  }

  lemma CancellationRules(core: RoomCore, signer: Key, now: i64)
    ensures var r := Rules.CancelByParticipant(core, signer);
      Reports(r, CancellationChecks(core, signer)) && (r.Ok? ==> r.value == core.(status := Cancelled))
    ensures var r := Rules.CancelExpired(core, now);
      Reports(r, ExpiryChecks(core, now)) && (r.Ok? ==> r.value == core.(status := Cancelled))
  {
    SeatMeans(core.participants, signer);
    TwoAnswer(CancellationChecks(core, signer));
    TwoAnswer(ExpiryChecks(core, now));
  }

  lemma TwoAnswer(c: seq<Check>)
    requires |c| == 2
    ensures Answers(if !c[0].holds then Fail(c[0].error) else Need(c[1].holds, c[1].error), c)
  {
    var i := if !c[0].holds then 0 else 1;
    assert c[i].holds || FirstFailure(c, i);
  }

  // ----- Deposits -----

  /** An immutable asset of one token. */
  predicate OneOfAKind(m: Mint) {
    m.decimals == 0 && m.supply == 1 && m.mintAuthority.None? && m.freezeAuthority.None?
  }

  /** The account is absent, or of this mint and this owner. */
  predicate Openable(l: Ledger, account: Key, mint: Key, owner: Key) {
    account in l.accounts ==> l.accounts[account].mint == mint && l.accounts[account].owner == owner
  }

  predicate Thawed(l: Ledger, account: Key) {
    account in l.accounts ==> !l.accounts[account].frozen
  }

  function DepositAccountChecks(env: Env, l: Ledger, signer: Key, mint: Key, source: Key, vault: Key): seq<Check> {
    [Check(mint in l.mints && source == env.ata(signer, mint) && vault == env.ata(env.vaultPda(env.coreKey), mint),
           ConstraintViolated),
     Check(source in l.accounts && Openable(l, source, mint, signer), ConstraintViolated),
     Check(Openable(l, vault, mint, env.vaultPda(env.coreKey)), ConstraintViolated)]
  }

  function DepositRoomChecks(core: RoomCore, signer: Key, slot: byte): seq<Check> {
    [Check(slot < 6, SlotOutOfRange),
     Check(core.status == Funding, InvalidCoreStatus),
     Check(slot < 6 && core.participants[slot / 2] == signer, UnauthorizedParticipant),
     Check(slot !in Members(core.depositedMask), SlotAlreadyDeposited)]
  }

  function DepositTokenChecks(core: RoomCore, l: Ledger, mint: Key, source: Key, vault: Key): seq<Check> {
    [Check(mint in l.mints && OneOfAKind(l.mints[mint]), InvalidMintPolicy),
     Check(forall s :: 0 <= s < 6 && core.assets[s].flags & 1 != 0 ==> core.assets[s].mint != mint, DuplicateMint),
     Check(source in l.accounts && l.accounts[source].amount == 1, InvalidSourceAccount),
     Check(vault in l.accounts ==> l.accounts[vault].amount == 0, InvalidVault),
     Check(Thawed(l, source) && Thawed(l, vault), CpiFailed)]
  }

  /** The slot's record and bit; the rest of the core as it was. */
  function DepositedCore(core: RoomCore, now: i64, signer: Key, slot: nat, mint: Key, source: Key, vault: Key): RoomCore
    requires slot < 6
  {
    core.(assets := core.assets[slot := AssetRecord(mint, vault, signer, source, DEFAULT_KEY, now, 1)],
          depositedMask := With(core.depositedMask, slot))
  }

  /** The one token is in the vault, which was opened for it if need be. */
  function DepositedLedger(env: Env, l: Ledger, mint: Key, source: Key, vault: Key): Ledger
    requires source in l.accounts
  {
    l.(accounts := l.accounts[source := l.accounts[source].(amount := 0)]
                             [vault := TokenAccount(mint, env.vaultPda(env.coreKey), 1, false)])
  }

  function DepositVerdicts(env: Env, core: RoomCore, l: Ledger, signer: Key, slot: byte, mint: Key, source: Key,
                           vault: Key): (v: (Outcome, Outcome, Outcome))
  {
    var a, r, t := DepositAccountChecks(env, l, signer, mint, source, vault), DepositRoomChecks(core, signer, slot),
                   DepositTokenChecks(core, l, mint, source, vault);
    (if a[0].holds && a[1].holds && a[2].holds then Pass else Fail(ConstraintViolated),
     if !r[0].holds then Fail(SlotOutOfRange) else if !r[1].holds then Fail(InvalidCoreStatus)
     else if !r[2].holds then Fail(UnauthorizedParticipant) else Need(r[3].holds, SlotAlreadyDeposited),
     if !t[0].holds then Fail(InvalidMintPolicy) else if !t[1].holds then Fail(DuplicateMint)
     else if !t[2].holds then Fail(InvalidSourceAccount) else if !t[3].holds then Fail(InvalidVault)
     else Need(t[4].holds, CpiFailed))
  }

  lemma DepositVerdictsAnswer(env: Env, core: RoomCore, l: Ledger, signer: Key, slot: byte, mint: Key, source: Key,
                              vault: Key)
    ensures var v := DepositVerdicts(env, core, l, signer, slot, mint, source, vault);
      && Answers(v.0, DepositAccountChecks(env, l, signer, mint, source, vault))
      && Answers(v.1, DepositRoomChecks(core, signer, slot))
      && Answers(v.2, DepositTokenChecks(core, l, mint, source, vault))
  {
    hide Openable, Thawed, OneOfAKind, Members;
    var a, r, t := DepositAccountChecks(env, l, signer, mint, source, vault), DepositRoomChecks(core, signer, slot),
                   DepositTokenChecks(core, l, mint, source, vault);
    var i := if !a[0].holds then 0 else if !a[1].holds then 1 else 2;
    assert a[i].holds || FirstFailure(a, i);
    FourAnswer(r);
    var k := if !t[0].holds then 0 else if !t[1].holds then 1 else if !t[2].holds then 2 else if !t[3].holds then 3
        else 4;
    assert t[k].holds || FirstFailure(t, k);
  }

  function DepositVerdict(env: Env, core: RoomCore, l: Ledger, signer: Key, slot: byte, mint: Key, source: Key,
                          vault: Key): Outcome
  {
    var v := DepositVerdicts(env, core, l, signer, slot, mint, source, vault);
    if v.0.Fail? then v.0 else if v.1.Fail? then v.1 else v.2
  }

  function DepositChecks(env: Env, core: RoomCore, l: Ledger, signer: Key, slot: byte, mint: Key, source: Key,
                         vault: Key): seq<Check>
  {
    DepositAccountChecks(env, l, signer, mint, source, vault)
    + (DepositRoomChecks(core, signer, slot) + DepositTokenChecks(core, l, mint, source, vault))
  }

  lemma DepositRule(env: Env, core: RoomCore, l: Ledger, now: i64, signer: Key, slot: byte, mint: Key, source: Key,
                    vault: Key)
    ensures var r := Rules.DepositAsset(env, core, l, now, signer, slot, mint, source, vault);
      && Reports(r, DepositChecks(env, core, l, signer, slot, mint, source, vault))
      && (r.Ok? ==>
            && slot < 6 && source in l.accounts && source != vault
            && r.value == (DepositedCore(core, now, signer, slot, mint, source, vault),
                           DepositedLedger(env, l, mint, source, vault)))
  {
    DepositSteps(env, core, l, now, signer, slot, mint, source, vault);
    hide Rules.DepositAsset, Answers, DepositVerdicts, DepositAccountChecks, DepositRoomChecks, DepositTokenChecks,
         DepositedCore, DepositedLedger;
    var v := DepositVerdicts(env, core, l, signer, slot, mint, source, vault);
    DepositVerdictsAnswer(env, core, l, signer, slot, mint, source, vault);
    AnswerBoth(v.1, v.2, DepositRoomChecks(core, signer, slot), DepositTokenChecks(core, l, mint, source, vault));
    AnswerBoth(v.0, if v.1.Fail? then v.1 else v.2, DepositAccountChecks(env, l, signer, mint, source, vault),
               DepositRoomChecks(core, signer, slot) + DepositTokenChecks(core, l, mint, source, vault));
  }

  lemma DepositSteps(env: Env, core: RoomCore, l: Ledger, now: i64, signer: Key, slot: byte, mint: Key, source: Key,
                     vault: Key)
    ensures var r := Rules.DepositAsset(env, core, l, now, signer, slot, mint, source, vault);
      && Told(r) == DepositVerdict(env, core, l, signer, slot, mint, source, vault)
      && (r.Ok? ==>
            && slot < 6 && source in l.accounts && source != vault
            && r.value == (DepositedCore(core, now, signer, slot, mint, source, vault),
                           DepositedLedger(env, l, mint, source, vault)))
  {
    hide Rules.DepositAsset, DepositVerdicts, DepositedCore, DepositedLedger;
    var v := DepositVerdicts(env, core, l, signer, slot, mint, source, vault);
    if v.0.Fail? {
      DepositAccountSteps(env, core, l, now, signer, slot, mint, source, vault);
    } else if v.1.Fail? {
      DepositRoomSteps(env, core, l, now, signer, slot, mint, source, vault);
    } else {
      DepositTokenSteps(env, core, l, now, signer, slot, mint, source, vault);
    }
  }

  lemma DepositAccountSteps(env: Env, core: RoomCore, l: Ledger, now: i64, signer: Key, slot: byte, mint: Key,
                            source: Key, vault: Key)
    requires DepositVerdicts(env, core, l, signer, slot, mint, source, vault).0.Fail?
    ensures Told(Rules.DepositAsset(env, core, l, now, signer, slot, mint, source, vault)) == Fail(ConstraintViolated)
    ensures DepositVerdicts(env, core, l, signer, slot, mint, source, vault).0 == Fail(ConstraintViolated)
  {
    hide Members, Has, With, Rules.MintTaken, Rules.OpenAta, Rules.TransferOne, DepositRoomChecks, DepositTokenChecks,
         Rules.MintEligible;
    VaultOpens(env, l, mint, vault);
  }

  lemma DepositRoomSteps(env: Env, core: RoomCore, l: Ledger, now: i64, signer: Key, slot: byte, mint: Key, source: Key,
                         vault: Key)
    requires var v := DepositVerdicts(env, core, l, signer, slot, mint, source, vault); v.0.Pass? && v.1.Fail?
    ensures Told(Rules.DepositAsset(env, core, l, now, signer, slot, mint, source, vault))
         == DepositVerdicts(env, core, l, signer, slot, mint, source, vault).1
  {
    hide Members, Has, With, Rules.MintTaken, Rules.OpenAta, Rules.TransferOne, DepositTokenChecks,
         Rules.MintEligible;
    MemberMeans(core.depositedMask, slot);
    VaultOpens(env, l, mint, vault);
  }

  lemma DepositTokenSteps(env: Env, core: RoomCore, l: Ledger, now: i64, signer: Key, slot: byte, mint: Key,
                          source: Key,
                          vault: Key)
    requires var v := DepositVerdicts(env, core, l, signer, slot, mint, source, vault); v.0.Pass? && v.1.Pass?
    ensures var r := Rules.DepositAsset(env, core, l, now, signer, slot, mint, source, vault);
      && Told(r) == DepositVerdicts(env, core, l, signer, slot, mint, source, vault).2
      && (r.Ok? ==>
            && slot < 6 && source in l.accounts && source != vault
            && r.value == (DepositedCore(core, now, signer, slot, mint, source, vault),
                           DepositedLedger(env, l, mint, source, vault)))
  {
    hide Members, Has, With, Rules.MintTaken, DepositedLedger, Rules.OpenAta, Rules.TransferOne;
    MemberMeans(core.depositedMask, slot);
    TakenMeans(core, mint);
    VaultOpens(env, l, mint, vault);
    if source in l.accounts && l.accounts[source].amount == 1 && source != vault
       && (vault in l.accounts ==> l.accounts[vault].amount == 0) && OneOfAKind(l.mints[mint]) {
      DepositTransfers(env, l, signer, mint, source, vault);
    }
  }

  lemma MemberMeans(mask: bv8, slot: nat)
    ensures slot < 8 ==> (slot in Members(mask) <==> Has(mask, slot))
  {
  }

  lemma VaultOpens(env: Env, l: Ledger, mint: Key, vault: Key)
    ensures mint in l.mints ==>
      var ready := Rules.OpenAta(l, vault, mint, env.VaultAuthority());
      && (ready.Ok? <==> Openable(l, vault, mint, env.vaultPda(env.coreKey)))
      && (ready.Err? ==> ready.error == ConstraintViolated)
      && (ready.Ok? ==>
            && vault in ready.value.accounts && ready.value.mints == l.mints
            && ready.value.accounts[vault].amount == (if vault in l.accounts then l.accounts[vault].amount else 0)
            && forall k :: k in l.accounts ==> k in ready.value.accounts && ready.value.accounts[k] == l.accounts[k])
  {
  }

  lemma DepositTransfers(env: Env, l: Ledger, signer: Key, mint: Key, source: Key, vault: Key)
    requires source in l.accounts && Openable(l, source, mint, signer) && l.accounts[source].amount == 1
    requires source != vault && Openable(l, vault, mint, env.vaultPda(env.coreKey))
    requires vault in l.accounts ==> l.accounts[vault].amount == 0
    requires mint in l.mints && OneOfAKind(l.mints[mint])
    ensures var ready := Rules.OpenAta(l, vault, mint, env.VaultAuthority());
      && ready.Ok? && ready.value.mints == l.mints && vault in ready.value.accounts
      && ready.value.accounts[vault].amount == 0
      && source in ready.value.accounts && ready.value.accounts[source] == l.accounts[source]
      && Rules.TransferOne(ready.value, signer, source, mint, vault)
         == if Thawed(l, source) && Thawed(l, vault) then Ok(DepositedLedger(env, l, mint, source, vault))
            else Err(CpiFailed)
  {
    var ready := Rules.OpenAta(l, vault, mint, env.VaultAuthority()).value;
    var empty, full := l.accounts[source].(amount := 0), TokenAccount(mint, env.vaultPda(env.coreKey), 1, false);
    if Thawed(l, source) && Thawed(l, vault) {
      assert ready.accounts[source := empty][vault := full] == l.accounts[source := empty][vault := full];
    }
  }

  lemma TakenMeans(core: RoomCore, mint: Key)
    ensures Rules.MintTaken(core, mint) <==>
      !(forall s :: 0 <= s < 6 && core.assets[s].flags & 1 != 0 ==> core.assets[s].mint != mint)
  {
  }

  // ----- Returns -----

  function ReturnAccountChecks(env: Env, l: Ledger, mint: Key, vault: Key, owner: Key, account: Key): seq<Check> {
    [Check(mint in l.mints && vault in l.accounts && account == env.ata(owner, mint), ConstraintViolated),
     Check(Openable(l, account, mint, owner), ConstraintViolated)]
  }

  function ReturnRoomChecks(core: RoomCore, slot: byte): seq<Check> {
    [Check(slot < 6, SlotOutOfRange),
     Check(slot in Members(core.depositedMask), NotReturnable),
     Check(slot !in Members(core.returnedMask), AlreadyReturned),
     Check(core.status == Cancelled
           || ((core.status == Settled || core.status == Returning) && slot !in Members(core.selectedMask)),
           NotReturnable)]
  }

  function ReturnRecordChecks(env: Env, core: RoomCore, l: Ledger, slot: byte, mint: Key, vault: Key, owner: Key,
                              account: Key): seq<Check>
  {
    [Check(slot < 6 && core.assets[slot].mint == mint && core.assets[slot].vault == vault, InvalidVault),
     Check(slot < 6 && core.assets[slot].originalAta == account, InvalidDestination),
     Check(slot < 6 && core.assets[slot].originalOwner == owner, InvalidDestination),
     Check(vault in l.accounts && l.accounts[vault].amount == 1
           && l.accounts[vault].owner == env.vaultPda(env.coreKey), VaultNotFunded),
     Check(Thawed(l, vault) && Thawed(l, account) && Openable(l, vault, mint, env.vaultPda(env.coreKey))
           && mint in l.mints && l.mints[mint].decimals == 0, CpiFailed)]
  }

  function ReturnChecks(env: Env, core: RoomCore, l: Ledger, slot: byte, mint: Key, vault: Key, owner: Key,
                        account: Key): seq<Check>
  {
    ReturnAccountChecks(env, l, mint, vault, owner, account)
    + (ReturnRoomChecks(core, slot) + ReturnRecordChecks(env, core, l, slot, mint, vault, owner, account))
  }

  /** One token from the vault to an account that is opened for it if need be. */
  function PaidOut(l: Ledger, mint: Key, vault: Key, account: Key, owner: Key): Ledger
    requires vault in l.accounts && l.accounts[vault].amount == 1
  {
    if vault == account then l
    else
      var held := if account in l.accounts then l.accounts[account].amount else 0;
      l.(accounts := l.accounts[vault := l.accounts[vault].(amount := 0)]
                               [account := TokenAccount(mint, owner, held + 1, false)])
  }

  /** What a decided room still owes once this slot is returned. */
  function Outstanding(core: RoomCore, slot: nat): set<nat> {
    Members(core.depositedMask) - Members(core.returnedMask) - {slot}
    - (if core.status == Cancelled then {} else Members(core.selectedMask))
  }

  /** The slot's flag and bit; the room ends when nothing is outstanding. */
  function ReturnedCore(core: RoomCore, slot: nat): RoomCore
    requires slot < 6
  {
    core.(status := if core.status == Cancelled then (if Outstanding(core, slot) == {} then Closed else Cancelled)
                    else if Outstanding(core, slot) == {} then Complete else Returning,
          assets := core.assets[slot := core.assets[slot].(flags := core.assets[slot].flags | 8)],
          returnedMask := With(core.returnedMask, slot))
  }

  lemma ReturnedMeans(core: RoomCore, slot: nat)
    requires slot < 6 && Rules.ReturnMaskGuard(core, slot).Pass?
    ensures Rules.MarkReturned(core, slot) == ReturnedCore(core, slot)
  {
    hide Members, Has, With, Minus, Covers, Outstanding;
    GuardMembers(core, slot);
    EndMeans(core, slot);
  }

  function OwedBy(core: RoomCore): bv8 {
    if core.status == Cancelled then core.depositedMask else Minus(core.depositedMask, core.selectedMask)
  }

  lemma GuardMembers(core: RoomCore, slot: nat)
    requires slot < 6 && Rules.ReturnMaskGuard(core, slot).Pass?
    ensures slot in Members(core.depositedMask)
    ensures core.status != Cancelled ==> slot !in Members(core.selectedMask)
    ensures core.status == Cancelled || core.status == Settled || core.status == Returning
  {
    assert slot in Members(core.depositedMask) <==> Has(core.depositedMask, slot);
    assert slot in Members(core.selectedMask) <==> Has(core.selectedMask, slot);
    hide Members, Has;
  }

  lemma EndMeans(core: RoomCore, slot: nat)
    requires slot < 6 && slot in Members(core.depositedMask)
    requires core.status != Cancelled ==> slot !in Members(core.selectedMask)
    ensures OwedBy(core) != 0
    ensures Covers(With(core.returnedMask, slot), OwedBy(core)) <==> Outstanding(core, slot) == {}
  {
    hide Members, Has, With, Minus, Covers;
    MembersLaws(core.returnedMask, core.depositedMask, slot);
    MembersLaws(core.depositedMask, core.selectedMask, slot);
    SubsetMask(With(core.returnedMask, slot), OwedBy(core));
    NoMembers();
    assert slot in Members(OwedBy(core));
  }

  lemma ReturnGuardMeans(core: RoomCore, slot: byte)
    requires slot < 6
    ensures Answers(Rules.ReturnMaskGuard(core, slot), ReturnRoomChecks(core, slot))
  {
    var c := ReturnRoomChecks(core, slot);
    assert slot in Members(core.depositedMask) <==> Has(core.depositedMask, slot);
    assert slot in Members(core.returnedMask) <==> Has(core.returnedMask, slot);
    assert slot in Members(core.selectedMask) <==> Has(core.selectedMask, slot);
    hide Members, Has, Answers;
    FourAnswer(c);
  }

  function ReturnRecordVerdict(env: Env, core: RoomCore, l: Ledger, slot: byte, mint: Key, vault: Key, owner: Key,
                               account: Key): Outcome
  {
    var c := ReturnRecordChecks(env, core, l, slot, mint, vault, owner, account);
    if !c[0].holds then Fail(InvalidVault) else if !c[1].holds || !c[2].holds then Fail(InvalidDestination)
    else if !c[3].holds then Fail(VaultNotFunded) else Need(c[4].holds, CpiFailed)
  }

  lemma ReturnRecordAnswers(env: Env, core: RoomCore, l: Ledger, slot: byte, mint: Key, vault: Key, owner: Key,
                            account: Key)
    ensures Answers(ReturnRecordVerdict(env, core, l, slot, mint, vault, owner, account),
                    ReturnRecordChecks(env, core, l, slot, mint, vault, owner, account))
  {
    hide Openable, Thawed;
    var c := ReturnRecordChecks(env, core, l, slot, mint, vault, owner, account);
    var i := if !c[0].holds then 0 else if !c[1].holds then 1 else if !c[2].holds then 2 else if !c[3].holds then 3
        else 4;
    assert c[i].holds || FirstFailure(c, i);
  }

  lemma ReturnTransfers(env: Env, l: Ledger, mint: Key, vault: Key, owner: Key, account: Key)
    requires mint in l.mints && vault in l.accounts && Openable(l, account, mint, owner)
    ensures var ready := Rules.OpenAta(l, account, mint, owner);
      && ready.Ok? && account in ready.value.accounts && vault in ready.value.accounts
      && ready.value.accounts[vault] == l.accounts[vault]
      && ready.value.accounts[account].mint == mint && ready.value.accounts[account].owner == owner
      && (l.accounts[vault].amount == 1 && l.accounts[vault].owner == env.VaultAuthority() ==>
            Rules.TransferOne(ready.value, env.VaultAuthority(), vault, mint, account)
            == if Thawed(l, vault) && Thawed(l, account) && l.accounts[vault].mint == mint
              && l.mints[mint].decimals == 0
               then Ok(PaidOut(l, mint, vault, account, owner)) else Err(CpiFailed))
  {
    var ready := Rules.OpenAta(l, account, mint, owner).value;
    if vault != account && l.accounts[vault].amount == 1 {
      var held := if account in l.accounts then l.accounts[account].amount else 0;
      var empty, paid := l.accounts[vault].(amount := 0), TokenAccount(mint, owner, held + 1, false);
      assert ready.accounts[vault := empty][account := paid] == l.accounts[vault := empty][account := paid];
    }
  }

  function ReturnVerdict(env: Env, core: RoomCore, l: Ledger, slot: byte, mint: Key, vault: Key, owner: Key,
                         account: Key): Outcome
  {
    var a := ReturnAccountChecks(env, l, mint, vault, owner, account);
    if !a[0].holds || !a[1].holds then Fail(ConstraintViolated)
    else if slot >= 6 then Fail(SlotOutOfRange)
    else if Rules.ReturnMaskGuard(core, slot).Fail? then Rules.ReturnMaskGuard(core, slot)
    else ReturnRecordVerdict(env, core, l, slot, mint, vault, owner, account)
  }

  lemma ReturnSteps(env: Env, core: RoomCore, l: Ledger, slot: byte, mint: Key, vault: Key, owner: Key, account: Key)
    ensures var r := Rules.ReturnAsset(env, core, l, slot, mint, vault, owner, account);
      && Told(r) == ReturnVerdict(env, core, l, slot, mint, vault, owner, account)
      && (r.Ok? ==>
            && slot < 6 && vault in l.accounts && l.accounts[vault].amount == 1
            && r.value == (Rules.MarkReturned(core, slot), PaidOut(l, mint, vault, account, owner))
            && Rules.ReturnMaskGuard(core, slot).Pass?)
  {
    hide Rules.ReturnMaskGuard, Rules.MarkReturned, PaidOut;
    if mint in l.mints && vault in l.accounts && Openable(l, account, mint, owner) {
      ReturnTransfers(env, l, mint, vault, owner, account);
      hide Rules.OpenAta, Rules.TransferOne;
    }
  }

  lemma ReturnRule(env: Env, core: RoomCore, l: Ledger, slot: byte, mint: Key, vault: Key, owner: Key, account: Key)
    ensures var r := Rules.ReturnAsset(env, core, l, slot, mint, vault, owner, account);
      && Reports(r, ReturnChecks(env, core, l, slot, mint, vault, owner, account))
      && (r.Ok? ==>
            && slot < 6 && vault in l.accounts && l.accounts[vault].amount == 1
            && r.value == (ReturnedCore(core, slot), PaidOut(l, mint, vault, account, owner)))
  {
    hide Rules.ReturnAsset, Answers, ReturnRecordVerdict, Rules.ReturnMaskGuard, Openable, ReturnRecordChecks,
         Members, Rules.MarkReturned, ReturnedCore, PaidOut;
    ReturnSteps(env, core, l, slot, mint, vault, owner, account);
    var a, m := ReturnAccountChecks(env, l, mint, vault, owner, account), ReturnRoomChecks(core, slot);
    var t := ReturnRecordChecks(env, core, l, slot, mint, vault, owner, account);
    var first := if !a[0].holds then Fail(ConstraintViolated) else Need(a[1].holds, ConstraintViolated);
    var room := if slot >= 6 then Fail(SlotOutOfRange) else Rules.ReturnMaskGuard(core, slot);
    var record := ReturnRecordVerdict(env, core, l, slot, mint, vault, owner, account);
    TwoAnswer(a);
    if slot >= 6 {
      OutOfRange(core, slot);
    } else {
      ReturnGuardMeans(core, slot);
      if Rules.ReturnMaskGuard(core, slot).Pass? { ReturnedMeans(core, slot); }
    }
    ReturnRecordAnswers(env, core, l, slot, mint, vault, owner, account);
    AnswerBoth(room, record, m, t);
    AnswerBoth(first, if room.Fail? then room else record, a, m + t);
  }

  lemma OutOfRange(core: RoomCore, slot: byte)
    requires slot >= 6
    ensures Answers(Fail(SlotOutOfRange), ReturnRoomChecks(core, slot))
  {
    assert FirstFailure(ReturnRoomChecks(core, slot), 0);
  }

  // ----- Settlement -----

  function LinkChecks(env: Env, core: RoomCore, live: RoomLive, liveOwner: Rules.LiveOwner, required: Rules.LiveOwner,
                      now: i64): seq<Check>
  {
    [Check(core.status == Active, AlreadySettled),
     Check(liveOwner == required, InvalidAccountOwner),
     Check(env.livePda(live.core) == env.livePda(env.coreKey), InvalidAccountPda),
     Check(live.core == env.coreKey && core.liveRoom == env.livePda(env.coreKey), CoreLiveMismatch),
     Check(live.participants == core.participants && live.expiresAt == core.expiresAt, CoreLiveMismatch),
     Check(now < core.expiresAt, InvalidExpiry),
     Check(live.phase == Finalized, NotFinalizable)]
  }

  function DealChecks(env: Env, core: RoomCore, live: RoomLive): seq<Check> {
    [Check(OneFundedSlotEach(core.depositedMask, live.selectedSlots), InvalidSelection),
     Check(live.destinations == Destinations(live.cycle), InvalidCycle),
     Check(AllocationHash(env, live.revision, live.expiresAt, live.selectedSlots, live.cycle, live.destinations)
           == live.allocationHash, AllocationHashMismatch)]
  }

  function GuardChecks(env: Env, core: RoomCore, live: RoomLive, liveOwner: Rules.LiveOwner, required: Rules.LiveOwner,
                       now: i64): seq<Check>
  {
    LinkChecks(env, core, live, liveOwner, required, now)
    + (([Check(live.lockMask == SEATS, NotFinalizable)] + LockSetChecks(live)) + DealChecks(env, core, live))
  }

  function LinkVerdict(env: Env, core: RoomCore, live: RoomLive, liveOwner: Rules.LiveOwner, required: Rules.LiveOwner,
                       now: i64): Outcome
  {
    var c := LinkChecks(env, core, live, liveOwner, required, now);
    if !c[0].holds then Fail(AlreadySettled) else if !c[1].holds then Fail(InvalidAccountOwner)
    else if !c[2].holds then Fail(InvalidAccountPda) else if !c[3].holds || !c[4].holds then Fail(CoreLiveMismatch)
    else if !c[5].holds then Fail(InvalidExpiry) else Need(c[6].holds, NotFinalizable)
  }

  lemma LinkAnswers(env: Env, core: RoomCore, live: RoomLive, liveOwner: Rules.LiveOwner, required: Rules.LiveOwner,
                    now: i64)
    ensures Answers(LinkVerdict(env, core, live, liveOwner, required, now),
                    LinkChecks(env, core, live, liveOwner, required, now))
  {
    var c := LinkChecks(env, core, live, liveOwner, required, now);
    var i := if !c[0].holds then 0 else if !c[1].holds then 1 else if !c[2].holds then 2 else if !c[3].holds then 3
             else if !c[4].holds then 4 else if !c[5].holds then 5 else 6;
    assert c[i].holds || FirstFailure(c, i);
  }

  function DealVerdict(env: Env, core: RoomCore, live: RoomLive): Outcome {
    var c := DealChecks(env, core, live);
    if !c[0].holds then Fail(InvalidSelection) else if !c[1].holds then Fail(InvalidCycle)
    else Need(c[2].holds, AllocationHashMismatch)
  }

  lemma DealAnswers(env: Env, core: RoomCore, live: RoomLive)
    ensures Answers(DealVerdict(env, core, live), DealChecks(env, core, live))
  {
    hide OneFundedSlotEach, AllocationHash;
    var c := DealChecks(env, core, live);
    var i := if !c[0].holds then 0 else if !c[1].holds then 1 else 2;
    assert c[i].holds || FirstFailure(c, i);
  }

  lemma GuardRule(env: Env, core: RoomCore, live: RoomLive, liveOwner: Rules.LiveOwner, required: Rules.LiveOwner,
                  now: i64)
    ensures var r := Rules.SettlementGuard(env, core, live, liveOwner, required, now);
      && Answers(r, GuardChecks(env, core, live, liveOwner, required, now))
      && (r.Pass? ==> LegsInRange(live))
  {
    hide Answers, LockSetChecks, Rules.ValidateLockSet, Rules.ValidateSelection, OneFundedSlotEach, AllocationHash;
    SelectionMeans(core, live.selectedSlots);
    LinkAnswers(env, core, live, liveOwner, required, now);
    LockSetAnswers(live);
    DealAnswers(env, core, live);
    var link, locks, deal := LinkVerdict(env, core, live, liveOwner, required, now), Rules.ValidateLockSet(live),
                             DealVerdict(env, core, live);
    var lockSet := [Check(live.lockMask == SEATS, NotFinalizable)] + LockSetChecks(live);
    AnswerBoth(locks, deal, lockSet, DealChecks(env, core, live));
    AnswerBoth(link, if locks.Fail? then locks else deal, LinkChecks(env, core, live, liveOwner, required, now),
               lockSet + DealChecks(env, core, live));
    if Rules.SettlementGuard(env, core, live, liveOwner, required, now).Pass? {
      FundedInRange(core, live);
    }
  }

  lemma FundedInRange(core: RoomCore, live: RoomLive)
    requires OneFundedSlotEach(core.depositedMask, live.selectedSlots) && live.destinations == Destinations(live.cycle)
    ensures LegsInRange(live)
  {
  }

  /** One slot of each owner, and the destinations of the cycle. */
  predicate LegsInRange(live: RoomLive) {
    && live.selectedSlots[0] / 2 == 0 && live.selectedSlots[1] / 2 == 1 && live.selectedSlots[2] / 2 == 2
    && live.destinations == Destinations(live.cycle)
  }

  function LegChecks(env: Env, core: RoomCore, l: Ledger, live: RoomLive, accounts: Rules.LegAccounts,
                     leg: nat): seq<Check>
    requires leg < 3 && LegsInRange(live)
  {
    var asset := core.assets[live.selectedSlots[leg]];
    var recipient := core.participants[live.destinations[leg]];
    var authority := env.vaultPda(env.coreKey);
    [Check(accounts.mint in l.mints, InvalidMintPolicy),
     Check(accounts.vault in l.accounts, InvalidVault),
     Check(accounts.destination in l.accounts, InvalidDestination),
     Check(accounts.mint in l.mints && OneOfAKind(l.mints[accounts.mint]), InvalidMintPolicy),
     Check(asset.mint == accounts.mint && asset.vault == accounts.vault, InvalidSettlementAccounts),
     Check(accounts.vault in l.accounts && l.accounts[accounts.vault].owner == authority
           && l.accounts[accounts.vault].amount == 1, VaultNotFunded),
     Check(accounts.destination == env.ata(recipient, accounts.mint)
           && Openable(l, accounts.destination, accounts.mint, recipient), InvalidDestination),
     Check(Thawed(l, accounts.vault) && Thawed(l, accounts.destination)
           && Openable(l, accounts.vault, accounts.mint, authority), CpiFailed)]
  }

  /** The record of the leg's slot: three flags and the recipient's account. */
  function LegCore(core: RoomCore, live: RoomLive, accounts: Rules.LegAccounts, leg: nat): RoomCore
    requires leg < 3 && LegsInRange(live)
  {
    var slot := live.selectedSlots[leg] as int;
    core.(assets := core.assets[slot := core.assets[slot].(flags := core.assets[slot].flags | 6,
                                                           finalAta := accounts.destination)])
  }

  /** One token from the vault to the recipient. */
  function LegLedger(l: Ledger, accounts: Rules.LegAccounts): Ledger {
    if accounts.vault !in l.accounts || accounts.destination !in l.accounts || accounts.vault == accounts.destination
       || l.accounts[accounts.vault].amount == 0 then l
    else
      var from, to := l.accounts[accounts.vault], l.accounts[accounts.destination];
      l.(accounts := l.accounts[accounts.vault := from.(amount := from.amount - 1)]
                               [accounts.destination := to.(amount := to.amount + 1)])
  }

  lemma LegRule(env: Env, core: RoomCore, l: Ledger, live: RoomLive, accounts: Rules.LegAccounts, leg: nat)
    requires leg < 3 && LegsInRange(live) && Rules.LegIndicesInRange(live)
    ensures var r := Rules.SettleLeg(env, core, l, live, accounts, leg);
      && Reports(r, LegChecks(env, core, l, live, accounts, leg))
      && (r.Ok? ==> r.value == (LegCore(core, live, accounts, leg), LegLedger(l, accounts)))
  {
    hide Answers;
    LegSteps(env, core, l, live, accounts, leg);
    hide Rules.SettleLeg;
    LegAnswers(env, core, l, live, accounts, leg);
  }

  function LegVerdict(env: Env, core: RoomCore, l: Ledger, live: RoomLive, accounts: Rules.LegAccounts,
                      leg: nat): Outcome
    requires leg < 3 && LegsInRange(live)
  {
    var c := LegChecks(env, core, l, live, accounts, leg);
    if !c[0].holds then Fail(InvalidMintPolicy) else if !c[1].holds then Fail(InvalidVault)
    else if !c[2].holds then Fail(InvalidDestination) else if !c[3].holds then Fail(InvalidMintPolicy)
    else if !c[4].holds then Fail(InvalidSettlementAccounts) else if !c[5].holds then Fail(VaultNotFunded)
    else if !c[6].holds then Fail(InvalidDestination) else Need(c[7].holds, CpiFailed)
  }

  lemma LegAnswers(env: Env, core: RoomCore, l: Ledger, live: RoomLive, accounts: Rules.LegAccounts, leg: nat)
    requires leg < 3 && LegsInRange(live)
    ensures Answers(LegVerdict(env, core, l, live, accounts, leg), LegChecks(env, core, l, live, accounts, leg))
  {
    hide Openable, Thawed, OneOfAKind;
    var c := LegChecks(env, core, l, live, accounts, leg);
    var i := if !c[0].holds then 0 else if !c[1].holds then 1 else if !c[2].holds then 2 else if !c[3].holds then 3
             else if !c[4].holds then 4 else if !c[5].holds then 5 else if !c[6].holds then 6 else 7;
    assert c[i].holds || FirstFailure(c, i);
  }

  lemma LegSteps(env: Env, core: RoomCore, l: Ledger, live: RoomLive, accounts: Rules.LegAccounts, leg: nat)
    requires leg < 3 && LegsInRange(live) && Rules.LegIndicesInRange(live)
    ensures var r := Rules.SettleLeg(env, core, l, live, accounts, leg);
      && Told(r) == LegVerdict(env, core, l, live, accounts, leg)
      && (r.Ok? ==> r.value == (LegCore(core, live, accounts, leg), LegLedger(l, accounts)))
  {
    var asset := core.assets[live.selectedSlots[leg]];
    assert asset.flags | SELECTED | TRANSFERRED == asset.flags | 6;
  }

  function AllLegChecks(env: Env, core: RoomCore, l: Ledger, live: RoomLive, legs: Rules.Legs): seq<Check>
    requires LegsInRange(live)
  {
    var core1, l1 := LegCore(core, live, legs[0], 0), LegLedger(l, legs[0]);
    var core2, l2 := LegCore(core1, live, legs[1], 1), LegLedger(l1, legs[1]);
    LegChecks(env, core, l, live, legs[0], 0)
    + (LegChecks(env, core1, l1, live, legs[1], 1) + LegChecks(env, core2, l2, live, legs[2], 2))
  }

  /** The three records, the mask of their slots, and the deal. */
  function SettledRecord(core: RoomCore, live: RoomLive, legs: Rules.Legs): RoomCore
    requires LegsInRange(live)
  {
    var s := live.selectedSlots;
    LegCore(LegCore(LegCore(core, live, legs[0], 0), live, legs[1], 1), live, legs[2], 2)
      .(selectedMask := With(With(With(0, s[0]), s[1]), s[2]), settledRevision := live.revision,
        allocationHash := live.allocationHash, status := Settled)
  }

  function SettledLedger(l: Ledger, legs: Rules.Legs): Ledger {
    LegLedger(LegLedger(LegLedger(l, legs[0]), legs[1]), legs[2])
  }

  function SettlementChecks(env: Env, core: RoomCore, live: RoomLive, liveOwner: Rules.LiveOwner,
                            required: Rules.LiveOwner, l: Ledger, now: i64, legs: Rules.Legs): seq<Check>
  {
    GuardChecks(env, core, live, liveOwner, required, now)
    + if LegsInRange(live) then AllLegChecks(env, core, l, live, legs) else []
  }

  lemma LegsRule(env: Env, core: RoomCore, l: Ledger, live: RoomLive, legs: Rules.Legs)
    requires LegsInRange(live) && Rules.LegIndicesInRange(live)
    ensures var r := Rules.SettleLegs(env, core, l, live, legs, 3);
      && Reports(r, AllLegChecks(env, core, l, live, legs))
      && (r.Ok? ==> r.value == (LegCore(LegCore(LegCore(core, live, legs[0], 0), live, legs[1], 1), live, legs[2], 2),
                                SettledLedger(l, legs),
                                With(With(With(0, live.selectedSlots[0]), live.selectedSlots[1]),
                                     live.selectedSlots[2])))
  {
    hide Answers, Rules.SettleLeg, LegChecks, LegCore, LegLedger, With;
    var core1, l1 := LegCore(core, live, legs[0], 0), LegLedger(l, legs[0]);
    var core2, l2 := LegCore(core1, live, legs[1], 1), LegLedger(l1, legs[1]);
    LegRule(env, core, l, live, legs[0], 0);
    LegRule(env, core1, l1, live, legs[1], 1);
    LegRule(env, core2, l2, live, legs[2], 2);
    LegsUnfold(env, core, l, live, legs);
    var r0, r1, r2 := Told(Rules.SettleLeg(env, core, l, live, legs[0], 0)),
                      Told(Rules.SettleLeg(env, core1, l1, live, legs[1], 1)),
                      Told(Rules.SettleLeg(env, core2, l2, live, legs[2], 2));
    AnswerBoth(r1, r2, LegChecks(env, core1, l1, live, legs[1], 1), LegChecks(env, core2, l2, live, legs[2], 2));
    AnswerBoth(r0, if r1.Fail? then r1 else r2, LegChecks(env, core, l, live, legs[0], 0),
               LegChecks(env, core1, l1, live, legs[1], 1) + LegChecks(env, core2, l2, live, legs[2], 2));
  }

  /** The recursion over the legs, written out. */
  lemma LegsUnfold(env: Env, core: RoomCore, l: Ledger, live: RoomLive, legs: Rules.Legs)
    requires Rules.LegIndicesInRange(live)
    ensures var r0 := Rules.SettleLeg(env, core, l, live, legs[0], 0);
      var r := Rules.SettleLegs(env, core, l, live, legs, 3);
      && (r0.Err? ==> r.Err? && r.error == r0.error)
      && (r0.Ok? ==>
            var r1 := Rules.SettleLeg(env, r0.value.0, r0.value.1, live, legs[1], 1);
            && (r1.Err? ==> r.Err? && r.error == r1.error)
            && (r1.Ok? ==>
                  var r2 := Rules.SettleLeg(env, r1.value.0, r1.value.1, live, legs[2], 2);
                  && (r2.Err? ==> r.Err? && r.error == r2.error)
                  && (r2.Ok? ==> r == Ok((r2.value.0, r2.value.1, With(With(With(0, live.selectedSlots[0]),
                                                                       live.selectedSlots[1]),
                                                                       live.selectedSlots[2]))))))
  {
    hide Rules.SettleLeg, With;
    assert Rules.SettleLegs(env, core, l, live, legs, 0) == Ok((core, l, 0));
    var one := Rules.SettleLegs(env, core, l, live, legs, 1);
    var two := Rules.SettleLegs(env, core, l, live, legs, 2);
  }

  lemma SettlementRule(env: Env, core: RoomCore, live: RoomLive, liveOwner: Rules.LiveOwner, required: Rules.LiveOwner,
                       l: Ledger, now: i64, legs: Rules.Legs)
    ensures var r := Rules.Settle(env, core, live, liveOwner, required, l, now, legs);
      && Reports(r, SettlementChecks(env, core, live, liveOwner, required, l, now, legs))
      && (r.Ok? ==> LegsInRange(live) && r.value == (SettledRecord(core, live, legs), SettledLedger(l, legs)))
  {
    hide Answers, Rules.SettlementGuard, Rules.SettleLegs, GuardChecks, AllLegChecks, LegCore, SettledLedger, With;
    var guard := Rules.SettlementGuard(env, core, live, liveOwner, required, now);
    GuardRule(env, core, live, liveOwner, required, now);
    var first := GuardChecks(env, core, live, liveOwner, required, now);
    if guard.Fail? {
      AnswerFirst(guard, first, if LegsInRange(live) then AllLegChecks(env, core, l, live, legs) else []);
    } else {
      InRange(live);
      LegsRule(env, core, l, live, legs);
      AnswerLater(Told(Rules.SettleLegs(env, core, l, live, legs, 3)), first, AllLegChecks(env, core, l, live, legs));
    }
  }

  lemma InRange(live: RoomLive)
    requires LegsInRange(live)
    ensures Rules.LegIndicesInRange(live)
  {
  }
}
