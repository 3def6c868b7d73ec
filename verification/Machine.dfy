/** A room as a transition system: both ledgers, the two live copies, the tokens, the clock and the emitted events. */
module Machine {
  import opened Wire
  import opened Records
  import opened Tokens
  import Allocation
  import opened Rules

  /** The rollup's copy of the live account: not there, delegated and mutable, or frozen with its commit scheduled. */
  datatype ErCopy = Absent | Delegated(live: RoomLive) | Scheduled(live: RoomLive)

  datatype Event =
    | AssetDeposited(slot: nat, mint: Key, vault: Key)
    | LiveDelegated
    | ProposalChanged(proposer: Key, revision: u64, slots: Bytes3, cycle: Cycle, hash: Hash)
    | LockChanged(seat: nat, revision: u64, hash: Hash, locked: bool)
    | FinalizationScheduled(revision: u64, hash: Hash)
    | RoomSettled(revision: u64, hash: Hash, selectedMask: bv8)
    | RoomCancelled(actor: Key, expired: bool)
    | AssetReturned(slot: nat, mint: Key, destination: Key)

  /** `coreLog` holds every value the base core ever had: the rollup may read any of them. */
  datatype World = World(
    core: RoomCore, coreLog: seq<RoomCore>, live: RoomLive, liveOwner: LiveOwner, er: ErCopy,
    ledger: Ledger, now: i64, events: seq<Event>)

  /** Where a negotiation instruction runs, with the core snapshot and clock that ledger shows it. */
  datatype Venue = OnBase | OnEr(snapshot: nat, erNow: i64)

  datatype Action =
    | Deposit(slot: byte, mint: Key, source: Key, vault: Key)
    | Activate
    | MakeProposal(venue: Venue, expectedRevision: u64, slots: Bytes3, cycle: Cycle)
    | TakeLock(venue: Venue, expectedRevision: u64, expectedHash: Hash)
    | DropLock(venue: Venue, expectedRevision: u64, expectedHash: Hash)
    | Finalize(venue: Venue)
    | SettleDeal(required: LiveOwner, legs: Legs)
    | CancelAsParticipant
    | CancelAfterExpiry
    | Return(slot: byte, mint: Key, vault: Key, originalOwner: Key, originalAta: Key)

  datatype Step =
    | Call(signer: Key, action: Action)
    | Token(signer: Key, op: TokenOp)  // anyone else's use of the token program
    | Tick(seconds: nat)               // the base clock
    | Commit                           // the rollup seals its copy to base
    | Undelegate                       // base ownership returns after a scheduled commit

  function CoreSeen(w: World, venue: Venue): Result<RoomCore> {
    match venue
    case OnBase => Ok(w.core)
    case OnEr(snapshot, _) => if snapshot < |w.coreLog| then Ok(w.coreLog[snapshot]) else Err(InvalidAccountOwner)
  }

  /** The copy a ledger lets the program write: only a program-owned account can be mutated. */
  function LiveSeen(w: World, venue: Venue): Result<RoomLive> {
    match venue
    case OnBase => if w.liveOwner.ProgramOwned? then Ok(w.live) else Err(ConstraintViolated)
    case OnEr(_, _) => if w.er.Delegated? then Ok(w.er.live) else Err(ConstraintViolated)
  }

  function ClockSeen(w: World, venue: Venue): i64 {
    if venue.OnBase? then w.now else venue.erNow
  }

  function PutLive(w: World, venue: Venue, live: RoomLive, event: Event): World {
    if venue.OnBase? then w.(live := live, events := w.events + [event])
    else w.(er := Delegated(live), events := w.events + [event])
  }

  function PutCore(w: World, core: RoomCore, event: Event): World {
    w.(core := core, coreLog := w.coreLog + [core], events := w.events + [event])
  }

  function Seat(participants: Trio, actor: Key): nat {
    if ParticipantIndex(participants, actor).Ok? then ParticipantIndex(participants, actor).value else 3
  }

  function Perform(env: Allocation.Env, w: World, signer: Key, action: Action): Result<World> {
    match action
    case Deposit(slot, mint, source, vault) =>
      var r :- DepositAsset(env, w.core, w.ledger, w.now, signer, slot, mint, source, vault);
      Ok(PutCore(w, r.0, AssetDeposited(slot, mint, vault)).(ledger := r.1))
    case Activate =>
      var core :- ActivateAndDelegateLive(w.core, w.liveOwner, w.now, signer);
      Ok(PutCore(w, core, LiveDelegated).(liveOwner := DelegationOwned, er := Delegated(w.live)))
    case MakeProposal(venue, revision, slots, cycle) =>
      var core :- CoreSeen(w, venue);
      var live :- LiveSeen(w, venue);
      var next :- Propose(env, core, live, ClockSeen(w, venue), signer, revision, slots, cycle);
      Ok(PutLive(w, venue, next, ProposalChanged(signer, next.revision, slots, cycle, next.allocationHash)))
    case TakeLock(venue, revision, hash) =>
      var core :- CoreSeen(w, venue);
      var live :- LiveSeen(w, venue);
      var next :- Lock(env, core, live, ClockSeen(w, venue), signer, revision, hash);
      Ok(PutLive(w, venue, next, LockChanged(Seat(core.participants, signer), revision, hash, true)))
    case DropLock(venue, revision, hash) =>
      var core :- CoreSeen(w, venue);
      var live :- LiveSeen(w, venue);
      var next :- RevokeLock(env, core, live, ClockSeen(w, venue), signer, revision, hash);
      Ok(PutLive(w, venue, next, LockChanged(Seat(core.participants, signer), revision, hash, false)))
    case Finalize(venue) =>
      var core :- CoreSeen(w, venue);
      var live :- LiveSeen(w, venue);
      var next :- FinalizeLive(env, core, live, ClockSeen(w, venue), signer);
      :- Need(venue.OnEr?, CpiFailed);  // the commit intent exists on the rollup only
      Ok(w.(er := Scheduled(next), events := w.events + [FinalizationScheduled(next.revision, next.allocationHash)]))
    case SettleDeal(required, legs) =>
      var r :- Settle(env, w.core, w.live, w.liveOwner, required, w.ledger, w.now, legs);
      Ok(PutCore(w, r.0, RoomSettled(r.0.settledRevision, r.0.allocationHash, r.0.selectedMask)).(ledger := r.1))
    case CancelAsParticipant =>
      var core :- CancelByParticipant(w.core, signer);
      Ok(PutCore(w, core, RoomCancelled(signer, false)))
    case CancelAfterExpiry =>
      var core :- CancelExpired(w.core, w.now);
      Ok(PutCore(w, core, RoomCancelled(signer, true)))
    case Return(slot, mint, vault, originalOwner, originalAta) =>
      var r :- ReturnAsset(env, w.core, w.ledger, slot, mint, vault, originalOwner, originalAta);
      Ok(PutCore(w, r.0, AssetReturned(slot, mint, originalAta)).(ledger := r.1))
  }

  /** One atomic step. The vault authority has no private key, so no transaction carries its signature. */
  function Next(env: Allocation.Env, w: World, step: Step): Result<World> {
    match step
    case Call(signer, action) =>
      if signer == env.VaultAuthority() then Err(ConstraintViolated) else Perform(env, w, signer, action)
    case Token(signer, op) =>
      if signer == env.VaultAuthority() then Err(ConstraintViolated) else
      (match Apply(w.ledger, signer, op)
       case None => Err(CpiFailed)
       case Some(ledger) => Ok(w.(ledger := ledger)))
    case Tick(seconds) =>
      if w.now + seconds <= I64_MAX then Ok(w.(now := w.now + seconds)) else Err(ArithmeticOverflow)
    case Commit =>
      if w.er.Absent? then Err(CpiFailed) else Ok(w.(live := w.er.live))
    case Undelegate =>
      if w.er.Scheduled? && w.live == w.er.live then Ok(w.(liveOwner := ProgramOwned, er := Absent)) else Err(CpiFailed)
  }

  /** A failing step changes nothing. */
  function After(env: Allocation.Env, w: World, step: Step): World {
    var r := Next(env, w, step);
    if r.Ok? then r.value else w
  }

  function Exec(env: Allocation.Env, w: World, steps: seq<Step>): World {
    if steps == [] then w else After(env, Exec(env, w, steps[..|steps| - 1]), steps[|steps| - 1])
  }

  function Opened(core: RoomCore, live: RoomLive, ledger: Ledger, now: i64): World {
    World(core, [core], live, ProgramOwned, Absent, ledger, now, [])
  }

  /** `w` is a state right after a successful `initialize_room` over some balanced token ledger. */
  ghost predicate Initial(env: Allocation.Env, w: World) {
    && Conserved(w.ledger)
    && exists creator, roomNonce, participants, expiresAt, coreBump, liveBump, vaultBump ::
         var r := InitializeRoom(env, creator, roomNonce, participants, expiresAt, w.now, coreBump, liveBump,
                                 vaultBump);
         r.Ok? && w == Opened(r.value.0, r.value.1, w.ledger, w.now)
  }

  /** `w` can come about: some room, some run of anyone's steps in any order. */
  ghost predicate Reachable(env: Allocation.Env, w: World) {
    exists start, steps :: Initial(env, start) && w == Exec(env, start, steps)
  }

  /** Reachability is closed under one more step. */
  lemma ReachableNext(env: Allocation.Env, w: World, step: Step)
    requires Reachable(env, w)
    ensures Reachable(env, After(env, w, step))
  {
    var start, steps :| Initial(env, start) && w == Exec(env, start, steps);
    var longer := steps + [step];
    assert longer[..|longer| - 1] == steps;
    assert After(env, w, step) == Exec(env, start, longer);
  }

  lemma {:induction false} ReachableExec(env: Allocation.Env, w: World, steps: seq<Step>)
    requires Reachable(env, w)
    ensures Reachable(env, Exec(env, w, steps))
  {
    if steps != [] {
      ReachableExec(env, w, steps[..|steps| - 1]);
      ReachableNext(env, Exec(env, w, steps[..|steps| - 1]), steps[|steps| - 1]);
    }
  }

  lemma {:induction false} ExecConcat(env: Allocation.Env, w: World, first: seq<Step>, second: seq<Step>)
    ensures Exec(env, w, first + second) == Exec(env, Exec(env, w, first), second)
  {
    if second == [] {
      assert first + second == first;
    } else {
      var all := first + second;
      assert all[..|all| - 1] == first + second[..|second| - 1];
      ExecConcat(env, w, first, second[..|second| - 1]);
    }
  }
}
