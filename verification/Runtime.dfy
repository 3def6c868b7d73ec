/** Running instructions: accounts are loaded, the instruction writes them in place, and only a success is stored. */
module Runtime {
  import opened Wire
  import opened Records
  import Allocation
  import Accounts
  import CoreAccounts
  import Rules
  import Instructions
  import opened Machine

  /** `initialize_room`: both fresh accounts are written, or neither is. */
  method InitializeRoom(env: Allocation.Env, creator: Key, roomNonce: u64, participants: Trio, expiresAt: i64, now: i64,
                        coreBump: byte, liveBump: byte, vaultBump: byte) returns (r: Result<(RoomCore, RoomLive)>)
    ensures r == Rules.InitializeRoom(env, creator, roomNonce, participants, expiresAt, now, coreBump, liveBump,
                                      vaultBump)
    ensures Instructions.Reports(r, Instructions.CreationChecks(env, creator, roomNonce, participants, expiresAt, now))
    ensures r.Ok? ==> Instructions.Created(env, r.value.0, r.value.1, creator, roomNonce, participants, expiresAt, now,
                                           coreBump, liveBump, vaultBump)
  {
    Instructions.CreatedIff(env, creator, roomNonce, participants, expiresAt, now, coreBump, liveBump, vaultBump);
    hide Instructions.Reports, Instructions.Created;
    if env.roomPda(creator, roomNonce) != env.coreKey { return Err(ConstraintViolated); }
    var roster := Rules.ValidateParticipants(participants);
    if roster.Fail? { return Err(roster.error); }
    if now + Rules.MIN_ROOM_SECONDS > I64_MAX { return Err(ArithmeticOverflow); }
    if expiresAt < now + Rules.MIN_ROOM_SECONDS { return Err(InvalidExpiry); }
    var core := new CoreAccounts.CoreAccount.Opened(env, creator, roomNonce, participants, expiresAt, now, coreBump,
                                                    liveBump, vaultBump);
    var live := new Accounts.LiveAccount.Opened(env, core.Value(), liveBump);
    r := Ok((core.Value(), live.Value()));
  }

  class Chain {
    var world: World

    constructor (opening: World)
      ensures world == opening
    {
      world := opening;
    }

    method Deposit(env: Allocation.Env, signer: Key, slot: byte, mint: Key, source: Key, vault: Key)
        returns (r: Outcome)
      modifies this
      ensures var spec := Perform(env, old(world), signer, Action.Deposit(slot, mint, source, vault));
        r == Told(spec) && world == if spec.Ok? then spec.value else old(world)
    {
      hide Rules.DepositAsset;
      var core := new CoreAccounts.CoreAccount(world.core);
      var tokens := new Accounts.TokenStore(world.ledger);
      r := core.DepositAsset(env, tokens, world.now, signer, slot, mint, source, vault);
      if r.Pass? { world := PutCore(world, core.Value(),
                                    AssetDeposited(slot, mint, vault)).(ledger := tokens.Value()); }
    }

    method Activate(signer: Key, ghost env: Allocation.Env) returns (r: Outcome)
      modifies this
      ensures var spec := Perform(env, old(world), signer, Action.Activate);
        r == Told(spec) && world == if spec.Ok? then spec.value else old(world)
    {
      hide Rules.ActivateAndDelegateLive;
      var core := new CoreAccounts.CoreAccount(world.core);
      r := core.Activate(world.liveOwner, world.now, signer);
      if r.Pass? { world := PutCore(world, core.Value(), LiveDelegated).(liveOwner := Rules.DelegationOwned,
                                                                         er := Delegated(world.live)); }
    }

    method Propose(env: Allocation.Env, signer: Key, venue: Venue, revision: u64, slots: Bytes3, cycle: Cycle)
        returns (r: Outcome)
      modifies this
      ensures var spec := Perform(env, old(world), signer, MakeProposal(venue, revision, slots, cycle));
        r == Told(spec) && world == if spec.Ok? then spec.value else old(world)
    {
      hide Rules.Propose;
      var core, copy := CoreSeen(world, venue), LiveSeen(world, venue);
      if core.Err? { return Fail(core.error); }
      if copy.Err? { return Fail(copy.error); }
      var live := new Accounts.LiveAccount(copy.value);
      r := live.Propose(env, core.value, ClockSeen(world, venue), signer, revision, slots, cycle);
      if r.Pass? {
        world := PutLive(world, venue, live.Value(),
                         ProposalChanged(signer, live.revision, slots, cycle, live.allocationHash));
      }
    }

    method Lock(env: Allocation.Env, signer: Key, venue: Venue, revision: u64, hash: Hash) returns (r: Outcome)
      modifies this
      ensures var spec := Perform(env, old(world), signer, TakeLock(venue, revision, hash));
        r == Told(spec) && world == if spec.Ok? then spec.value else old(world)
    {
      hide Rules.Lock;
      var core, copy := CoreSeen(world, venue), LiveSeen(world, venue);
      if core.Err? { return Fail(core.error); }
      if copy.Err? { return Fail(copy.error); }
      var live := new Accounts.LiveAccount(copy.value);
      r := live.Lock(env, core.value, ClockSeen(world, venue), signer, revision, hash);
      if r.Pass? {
        world := PutLive(world, venue, live.Value(),
                         LockChanged(Seat(core.value.participants, signer), revision, hash, true));
      }
    }

    method RevokeLock(env: Allocation.Env, signer: Key, venue: Venue, revision: u64, hash: Hash) returns (r: Outcome)
      modifies this
      ensures var spec := Perform(env, old(world), signer, DropLock(venue, revision, hash));
        r == Told(spec) && world == if spec.Ok? then spec.value else old(world)
    {
      hide Rules.RevokeLock;
      var core, copy := CoreSeen(world, venue), LiveSeen(world, venue);
      if core.Err? { return Fail(core.error); }
      if copy.Err? { return Fail(copy.error); }
      var live := new Accounts.LiveAccount(copy.value);
      r := live.RevokeLock(env, core.value, ClockSeen(world, venue), signer, revision, hash);
      if r.Pass? {
        world := PutLive(world, venue, live.Value(),
                         LockChanged(Seat(core.value.participants, signer), revision, hash, false));
      }
    }

    method Finalize(env: Allocation.Env, signer: Key, venue: Venue) returns (r: Outcome)
      modifies this
      ensures var spec := Perform(env, old(world), signer, Action.Finalize(venue));
        r == Told(spec) && world == if spec.Ok? then spec.value else old(world)
    {
      hide Rules.FinalizeLive;
      var core, copy := CoreSeen(world, venue), LiveSeen(world, venue);
      if core.Err? { return Fail(core.error); }
      if copy.Err? { return Fail(copy.error); }
      var live := new Accounts.LiveAccount(copy.value);
      r := live.MarkFinalized(env, core.value, ClockSeen(world, venue), signer);
      if r.Fail? { return; }
      if !venue.OnEr? { return Fail(CpiFailed); }
      world := world.(er := Scheduled(live.Value()),
                      events := world.events + [FinalizationScheduled(live.revision, live.allocationHash)]);
    }

    method Settle(env: Allocation.Env, signer: Key, required: Rules.LiveOwner, legs: Rules.Legs) returns (r: Outcome)
      modifies this
      ensures var spec := Perform(env, old(world), signer, SettleDeal(required, legs));
        r == Told(spec) && world == if spec.Ok? then spec.value else old(world)
    {
      hide Rules.Settle;
      var core := new CoreAccounts.CoreAccount(world.core);
      var tokens := new Accounts.TokenStore(world.ledger);
      r := core.SettleFromAccounts(env, tokens, world.live, world.liveOwner, required, world.now, legs);
      if r.Pass? {
        world := PutCore(world, core.Value(), RoomSettled(core.settledRevision, core.allocationHash, core.selectedMask))
                   .(ledger := tokens.Value());
      }
    }

    method Cancel(signer: Key, action: Action, ghost env: Allocation.Env) returns (r: Outcome)
      requires action.CancelAsParticipant? || action.CancelAfterExpiry?
      modifies this
      ensures var spec := Perform(env, old(world), signer, action);
        r == Told(spec) && world == if spec.Ok? then spec.value else old(world)
    {
      hide Rules.CancelByParticipant, Rules.CancelExpired;
      var core := new CoreAccounts.CoreAccount(world.core);
      if action.CancelAsParticipant? {
        r := core.CancelByParticipant(signer);
      } else {
        r := core.CancelExpired(world.now);
      }
      if r.Pass? { world := PutCore(world, core.Value(), RoomCancelled(signer, action.CancelAfterExpiry?)); }
    }

    method Return(env: Allocation.Env, signer: Key, slot: byte, mint: Key, vault: Key, originalOwner: Key,
                  originalAta: Key)
      returns (r: Outcome)
      modifies this
      ensures var spec := Perform(env, old(world), signer,
                                  Action.Return(slot, mint, vault, originalOwner, originalAta));
        r == Told(spec) && world == if spec.Ok? then spec.value else old(world)
    {
      hide Rules.ReturnAsset;
      var core := new CoreAccounts.CoreAccount(world.core);
      var tokens := new Accounts.TokenStore(world.ledger);
      r := core.ReturnAsset(env, tokens, slot, mint, vault, originalOwner, originalAta);
      if r.Pass? { world := PutCore(world, core.Value(),
                                    AssetReturned(slot, mint, originalAta)).(ledger := tokens.Value()); }
    }

    method Call(env: Allocation.Env, signer: Key, action: Action) returns (r: Outcome)
      modifies this
      ensures var spec := Perform(env, old(world), signer, action);
        r == Told(spec) && world == if spec.Ok? then spec.value else old(world)
    {
      hide Perform;
      match action {
        case Deposit(slot, mint, source, vault) => r := Deposit(env, signer, slot, mint, source, vault);
        case Activate => r := Activate(signer, env);
        case MakeProposal(venue, revision, slots, cycle) => r := Propose(env, signer, venue, revision, slots, cycle);
        case TakeLock(venue, revision, hash) => r := Lock(env, signer, venue, revision, hash);
        case DropLock(venue, revision, hash) => r := RevokeLock(env, signer, venue, revision, hash);
        case Finalize(venue) => r := Finalize(env, signer, venue);
        case SettleDeal(required, legs) => r := Settle(env, signer, required, legs);
        case CancelAsParticipant => r := Cancel(signer, action, env);
        case CancelAfterExpiry => r := Cancel(signer, action, env);
        case Return(slot, mint, vault, originalOwner, originalAta) =>
          r := Return(env, signer, slot, mint, vault, originalOwner, originalAta);
      }
    }

    /** The in-place instructions, with rollback, take exactly the steps of the transition system. */
    method Execute(env: Allocation.Env, step: Step)
      modifies this
      ensures world == After(env, old(world), step)
    {
      hide Perform;
      if step.Call? {
        if step.signer != env.VaultAuthority() {
          var _ := Call(env, step.signer, step.action);
        }
      } else {
        var next := Next(env, world, step);
        if next.Ok? { world := next.value; }
      }
    }

    /** So whatever is proved of reachable worlds is true of what the instructions write. */
    method ExecuteAll(env: Allocation.Env, steps: seq<Step>)
      modifies this
      ensures world == Exec(env, old(world), steps)
      ensures old(Reachable(env, world)) ==> Reachable(env, world)
    {
      hide After, Reachable;
      ghost var start := world;
      for i := 0 to |steps|
        invariant world == Exec(env, start, steps[..i])
      {
        assert steps[..i + 1][..i] == steps[..i];
        Execute(env, steps[i]);
      }
      assert steps[..|steps|] == steps;
      if Reachable(env, start) {
        ReachableExec(env, start, steps);
      }
    }
  }
}
