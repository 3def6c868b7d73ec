/** Every instruction of the transition system: the list of checks it answers, and the whole world it leaves. */
module Effects {
  import opened Wire
  import opened Masks
  import opened Records
  import opened Tokens
  import opened Allocation
  import opened Machine
  import opened Instructions
  import Rules

  // ----- The two ledgers of a negotiation instruction -----

  /** The core that the ledger shows; of no meaning when there is none. */
  function CoreThere(w: World, venue: Venue): RoomCore {
    if venue.OnEr? && venue.snapshot < |w.coreLog| then w.coreLog[venue.snapshot] else w.core
  }

  function LiveThere(w: World, venue: Venue): RoomLive {
    if venue.OnEr? && w.er.Delegated? then w.er.live else w.live
  }

  function ClockThere(w: World, venue: Venue): i64 {
    if venue.OnEr? then venue.erNow else w.now
  }

  /** The ledger has the core, and lets the program write the live account. */
  function VenueChecks(w: World, venue: Venue): seq<Check> {
    [Check(venue.OnEr? ==> venue.snapshot < |w.coreLog|, InvalidAccountOwner),
     Check(if venue.OnEr? then w.er.Delegated? else w.liveOwner.ProgramOwned?, ConstraintViolated)]
  }

  function TableChecks(env: Env, w: World, signer: Key, venue: Venue): seq<Check> {
    VenueChecks(w, venue)
    + ContextChecks(env, CoreThere(w, venue), LiveThere(w, venue), ClockThere(w, venue), signer)
  }

  /** Everything an instruction checks, in order. */
  function Checks(env: Env, w: World, signer: Key, action: Action): seq<Check> {
    match action
    case Deposit(slot, mint, source, vault) => DepositChecks(env, w.core, w.ledger, signer, slot, mint, source, vault)
    case Activate => ActivationChecks(w.core, w.liveOwner, w.now, signer)
    case MakeProposal(venue, revision, slots, cycle) =>
      TableChecks(env, w, signer, venue) + ProposalChecks(CoreThere(w, venue), LiveThere(w, venue), revision, slots)
    case TakeLock(venue, revision, hash) =>
      TableChecks(env, w, signer, venue)
      + (TermsChecks(LiveThere(w, venue), revision, hash)
         + LockChecks(CoreThere(w, venue), LiveThere(w, venue), ClockThere(w, venue), signer))
    case DropLock(venue, revision, hash) =>
      TableChecks(env, w, signer, venue)
      + (TermsChecks(LiveThere(w, venue), revision, hash)
         + HasLockChecks(CoreThere(w, venue), LiveThere(w, venue), signer))
    case Finalize(venue) =>
      TableChecks(env, w, signer, venue) + (FinalizeChecks(LiveThere(w, venue)) + [Check(venue.OnEr?, CpiFailed)])
    case SettleDeal(required, legs) =>
      SettlementChecks(env, w.core, w.live, w.liveOwner, required, w.ledger, w.now, legs)
    case CancelAsParticipant => CancellationChecks(w.core, signer)
    case CancelAfterExpiry => ExpiryChecks(w.core, w.now)
    case Return(slot, mint, vault, owner, account) =>
      ReturnChecks(env, w.core, w.ledger, slot, mint, vault, owner, account)
  }

  // ----- What is left behind -----

  /** Base with a new core, a new ledger and one more event; nothing else moved. */
  function Written(w: World, core: RoomCore, ledger: Ledger, event: Event): World {
    w.(core := core, coreLog := w.coreLog + [core], ledger := ledger, events := w.events + [event])
  }

  /** The ledger of the negotiation with a new live record and one more event; nothing else moved. */
  function Negotiated(w: World, venue: Venue, live: RoomLive, event: Event): World {
    if venue.OnEr? then w.(er := Delegated(live), events := w.events + [event])
    else w.(live := live, events := w.events + [event])
  }

  predicate Leaves(env: Env, w: World, signer: Key, action: Action, w': World) {
    match action
    case Deposit(slot, mint, source, vault) =>
      && slot < 6 && source in w.ledger.accounts
      && w' == Written(w, DepositedCore(w.core, w.now, signer, slot, mint, source, vault),
                       DepositedLedger(env, w.ledger, mint, source, vault), AssetDeposited(slot, mint, vault))
    case Activate =>
      w' == Written(w, w.core.(status := Active), w.ledger, LiveDelegated)
              .(liveOwner := Rules.DelegationOwned, er := Delegated(w.live))
    case MakeProposal(venue, _, slots, cycle) =>
      var core, live, now := CoreThere(w, venue), LiveThere(w, venue), ClockThere(w, venue);
      && live.revision < U64_MAX
      && var next := ProposedLive(env, core, live, now, signer, slots, cycle);
         w' == Negotiated(w, venue, next,
                          ProposalChanged(signer, live.revision + 1, slots, cycle, next.allocationHash))
    case TakeLock(venue, revision, hash) =>
      var core, live, now := CoreThere(w, venue), LiveThere(w, venue), ClockThere(w, venue);
      w' == Negotiated(w, venue, LockedLive(core, live, now, signer),
                       LockChanged(SeatOf(core.participants, signer), revision, hash, true))
    case DropLock(venue, revision, hash) =>
      var core, live, now := CoreThere(w, venue), LiveThere(w, venue), ClockThere(w, venue);
      w' == Negotiated(w, venue, RevokedLive(core, live, now, signer),
                       LockChanged(SeatOf(core.participants, signer), revision, hash, false))
    case Finalize(venue) =>
      var live := LiveThere(w, venue);
      w' == w.(er := Scheduled(FinalizedLive(live, ClockThere(w, venue), signer)),
               events := w.events + [FinalizationScheduled(live.revision, live.allocationHash)])
    case SettleDeal(_, legs) =>
      && LegsInRange(w.live)
      && var core := SettledRecord(w.core, w.live, legs);
         w' == Written(w, core, SettledLedger(w.ledger, legs),
                       RoomSettled(w.live.revision, w.live.allocationHash, core.selectedMask))
    case CancelAsParticipant => w' == Written(w, w.core.(status := Cancelled), w.ledger, RoomCancelled(signer, false))
    case CancelAfterExpiry => w' == Written(w, w.core.(status := Cancelled), w.ledger, RoomCancelled(signer, true))
    case Return(slot, mint, vault, owner, account) =>
      && slot < 6 && vault in w.ledger.accounts && w.ledger.accounts[vault].amount == 1
      && w' == Written(w, ReturnedCore(w.core, slot), PaidOut(w.ledger, mint, vault, account, owner),
                       AssetReturned(slot, mint, account))
  }

  /** The instruction answers its checks, and leaves exactly this. */
  ghost predicate Executes(env: Env, w: World, signer: Key, action: Action) {
    var r := Perform(env, w, signer, action);
    Reports(r, Checks(env, w, signer, action)) && (r.Ok? ==> Leaves(env, w, signer, action, r.value))
  }

  lemma BaseExecutes(env: Env, w: World, signer: Key, action: Action)
    requires action.Deposit? || action.Activate? || action.CancelAsParticipant? || action.CancelAfterExpiry?
    ensures Executes(env, w, signer, action)
  {
    hide Answers, Rules.DepositAsset, DepositChecks, DepositedCore, DepositedLedger, Rules.ActivateAndDelegateLive,
         ActivationChecks, CancellationChecks, ExpiryChecks, Rules.CancelByParticipant, Rules.CancelExpired;
    match action
    case Deposit(slot, mint, source, vault) =>
      DepositRule(env, w.core, w.ledger, w.now, signer, slot, mint, source, vault);
    case Activate => ActivationRule(w.core, w.liveOwner, w.now, signer);
    case _ => CancellationRules(w.core, signer, w.now);
  }

  lemma CustodyExecutes(env: Env, w: World, signer: Key, action: Action)
    requires action.SettleDeal? || action.Return?
    ensures Executes(env, w, signer, action)
  {
    hide Answers, Rules.Settle, SettlementChecks, SettledRecord, SettledLedger, Rules.ReturnAsset, ReturnChecks,
         ReturnedCore, PaidOut;
    match action
    case SettleDeal(required, legs) =>
      SettlementRule(env, w.core, w.live, w.liveOwner, required, w.ledger, w.now, legs);
      if LegsInRange(w.live) { RecordedDeal(w.core, w.live, legs); }
    case Return(slot, mint, vault, owner, account) =>
      ReturnRule(env, w.core, w.ledger, slot, mint, vault, owner, account);
  }

  lemma RecordedDeal(core: RoomCore, live: RoomLive, legs: Rules.Legs)
    requires LegsInRange(live)
    ensures var c := SettledRecord(core, live, legs);
      c.settledRevision == live.revision && c.allocationHash == live.allocationHash
  {
    hide LegCore, With;
  }

  lemma VenueAnswers(w: World, venue: Venue)
    ensures var core, live := CoreSeen(w, venue), LiveSeen(w, venue);
      && Answers(if core.Err? then Fail(core.error) else if live.Err? then Fail(live.error) else Pass,
                 VenueChecks(w, venue))
      && (core.Ok? && live.Ok? ==> core.value == CoreThere(w, venue) && live.value == LiveThere(w, venue))
      && ClockSeen(w, venue) == ClockThere(w, venue)
  {
    var c := VenueChecks(w, venue);
    var i := if !c[0].holds then 0 else 1;
    assert c[i].holds || FirstFailure(c, i);
  }

  function VenueVerdict(w: World, venue: Venue): Outcome {
    var core, live := CoreSeen(w, venue), LiveSeen(w, venue);
    if core.Err? then Fail(core.error) else if live.Err? then Fail(live.error) else Pass
  }

  /** The checks of the ledger come first, whatever follows. */
  lemma TableAnswers(w: World, venue: Venue, rest: Outcome, context: seq<Check>, own: seq<Check>)
    requires VenueVerdict(w, venue).Pass? ==> Answers(rest, context + own)
    ensures Answers(if VenueVerdict(w, venue).Fail? then VenueVerdict(w, venue) else rest,
                    (VenueChecks(w, venue) + context) + own)
  {
    VenueAnswers(w, venue);
    hide Answers, VenueChecks, CoreSeen, LiveSeen;
    AnswerBoth(VenueVerdict(w, venue), rest, VenueChecks(w, venue), context + own);
    assert (VenueChecks(w, venue) + context) + own == VenueChecks(w, venue) + (context + own);
  }

  lemma ProposalExecutes(env: Env, w: World, signer: Key, venue: Venue, revision: u64, slots: Bytes3, cycle: Cycle)
    ensures Executes(env, w, signer, MakeProposal(venue, revision, slots, cycle))
  {
    hide Answers, VenueChecks, ContextChecks, ProposalChecks, ProposedLive, Rules.Propose, CoreSeen, LiveSeen,
         ClockSeen, CoreThere, LiveThere, ClockThere;
    VenueAnswers(w, venue);
    ProposedHash(env, w, venue, signer, slots, cycle);
    var core, live, now := CoreThere(w, venue), LiveThere(w, venue), ClockThere(w, venue);
    ProposeRule(env, core, live, now, signer, revision, slots, cycle);
    TableAnswers(w, venue, Told(Rules.Propose(env, core, live, now, signer, revision, slots, cycle)),
                 ContextChecks(env, core, live, now, signer), ProposalChecks(core, live, revision, slots));
  }

  lemma ProposedHash(env: Env, w: World, venue: Venue, signer: Key, slots: Bytes3, cycle: Cycle)
    ensures var core, live, now := CoreThere(w, venue), LiveThere(w, venue), ClockThere(w, venue);
      live.revision < U64_MAX ==> ProposedLive(env, core, live, now, signer, slots, cycle).revision == live.revision + 1
  {
    hide AllocationHash;
  }

  lemma LockExecutes(env: Env, w: World, signer: Key, venue: Venue, revision: u64, hash: Hash)
    ensures Executes(env, w, signer, TakeLock(venue, revision, hash))
  {
    hide Answers, VenueChecks, ContextChecks, TermsChecks, LockChecks, LockedLive, Rules.Lock, CoreSeen, LiveSeen,
         ClockSeen, CoreThere, LiveThere, ClockThere, SeatOf;
    VenueAnswers(w, venue);
    var core, live, now := CoreThere(w, venue), LiveThere(w, venue), ClockThere(w, venue);
    LockRule(env, core, live, now, signer, revision, hash);
    TableAnswers(w, venue, Told(Rules.Lock(env, core, live, now, signer, revision, hash)),
                 ContextChecks(env, core, live, now, signer),
                 TermsChecks(live, revision, hash) + LockChecks(core, live, now, signer));
    SeatIsSeat(env, core, live, now, signer, revision, hash);
  }

  /** The seat in the event is the signer's. */
  lemma SeatIsSeat(env: Env, core: RoomCore, live: RoomLive, now: i64, signer: Key, revision: u64, hash: Hash)
    ensures Rules.Lock(env, core, live, now, signer, revision, hash).Ok?
            || Rules.RevokeLock(env, core, live, now, signer, revision, hash).Ok? ==>
      Seat(core.participants, signer) == SeatOf(core.participants, signer)
  {
    ContextSeat(env, core, live, now, signer);
    SeatMeans(core.participants, signer);
    hide Rules.LiveContext, Rules.ParticipantIndex, Rules.ValidateLockSet, Has, With, Without, SeatOf;
  }

  lemma RevokeExecutes(env: Env, w: World, signer: Key, venue: Venue, revision: u64, hash: Hash)
    ensures Executes(env, w, signer, DropLock(venue, revision, hash))
  {
    hide Answers, VenueChecks, ContextChecks, TermsChecks, HasLockChecks, RevokedLive, Rules.RevokeLock, CoreSeen,
         LiveSeen, ClockSeen, CoreThere, LiveThere, ClockThere, SeatOf;
    VenueAnswers(w, venue);
    var core, live, now := CoreThere(w, venue), LiveThere(w, venue), ClockThere(w, venue);
    RevokeRule(env, core, live, now, signer, revision, hash);
    TableAnswers(w, venue, Told(Rules.RevokeLock(env, core, live, now, signer, revision, hash)),
                 ContextChecks(env, core, live, now, signer),
                 TermsChecks(live, revision, hash) + HasLockChecks(core, live, signer));
    SeatIsSeat(env, core, live, now, signer, revision, hash);
  }

  lemma FinalizeExecutes(env: Env, w: World, signer: Key, venue: Venue)
    ensures Executes(env, w, signer, Finalize(venue))
  {
    hide Answers, VenueChecks, ContextChecks, FinalizeChecks, Rules.FinalizeLive, CoreSeen, LiveSeen,
         ClockSeen, CoreThere, LiveThere, ClockThere;
    VenueAnswers(w, venue);
    var core, live, now := CoreThere(w, venue), LiveThere(w, venue), ClockThere(w, venue);
    FinalizeRule(env, core, live, now, signer);
    var context, own := ContextChecks(env, core, live, now, signer), FinalizeChecks(live);
    var r := Told(Rules.FinalizeLive(env, core, live, now, signer));
    var commit := [Check(venue.OnEr?, CpiFailed)];
    OneAnswer(commit);
    AnswerBoth(r, Need(venue.OnEr?, CpiFailed), context + own, commit);
    assert (context + own) + commit == context + (own + commit);
    TableAnswers(w, venue, if r.Fail? then r else Need(venue.OnEr?, CpiFailed), context, own + commit);
  }

  /** Every instruction of anyone, on any world: the first failing check is the error, and with none failing the world
      changes exactly so. */
  lemma EveryInstruction(env: Env, w: World, signer: Key, action: Action)
    ensures Executes(env, w, signer, action)
  {
    hide Executes;
    match action
    case MakeProposal(venue, revision, slots, cycle) => ProposalExecutes(env, w, signer, venue, revision, slots, cycle);
    case TakeLock(venue, revision, hash) => LockExecutes(env, w, signer, venue, revision, hash);
    case DropLock(venue, revision, hash) => RevokeExecutes(env, w, signer, venue, revision, hash);
    case Finalize(venue) => FinalizeExecutes(env, w, signer, venue);
    case SettleDeal(_, _) => CustodyExecutes(env, w, signer, action);
    case Return(_, _, _, _, _) => CustodyExecutes(env, w, signer, action);
    case _ => BaseExecutes(env, w, signer, action);
  }
}
