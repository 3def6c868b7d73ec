/** The mutable accounts the instructions write, and the instructions as they write them. */
module Accounts {
  import opened Wire
  import opened Masks
  import opened Records
  import Tokens
  import opened Allocation
  import Rules

  // ----- The token program's accounts -----

  class TokenStore {
    var mints: map<Key, Tokens.Mint>
    var accounts: map<Key, Tokens.TokenAccount>

    constructor (ledger: Tokens.Ledger)
      ensures Value() == ledger
    {
      mints, accounts := ledger.mints, ledger.accounts;
    }

    function Value(): Tokens.Ledger
      reads this
    {
      Tokens.Ledger(mints, accounts)
    }

    /** `transfer_checked` of one token of a mint without decimals. */
    method TransferOne(authority: Key, from: Key, mint: Key, to: Key) returns (r: Outcome)
      modifies this`accounts
      ensures var spec := Rules.TransferOne(old(Value()), authority, from, mint, to);
        && r == (if spec.Ok? then Pass else Fail(spec.error))
        && Value() == if spec.Ok? then spec.value else old(Value())
    {
      if from !in accounts || to !in accounts || mint !in mints { return Fail(CpiFailed); }
      var source, target := accounts[from], accounts[to];
      if source.frozen || target.frozen || source.amount < 1 || source.mint != mint || target.mint != mint
         || mints[mint].decimals != 0 || source.owner != authority {
        return Fail(CpiFailed);
      }
      if from != to {
        accounts := accounts[from := source.(amount := source.amount - 1)];
        accounts := accounts[to := target.(amount := target.amount + 1)];
      }
      r := Pass;
    }

    /** An associated token account, created when it is missing. */
    method OpenAta(account: Key, mint: Key, owner: Key) returns (r: Outcome)
      modifies this`accounts
      ensures var spec := Rules.OpenAta(old(Value()), account, mint, owner);
        && r == (if spec.Ok? then Pass else Fail(spec.error))
        && Value() == if spec.Ok? then spec.value else old(Value())
    {
      if account in accounts {
        if accounts[account].mint != mint || accounts[account].owner != owner { return Fail(ConstraintViolated); }
        return Pass;
      }
      if mint !in mints { return Fail(ConstraintViolated); }
      accounts := accounts[account := Tokens.TokenAccount(mint, owner, 0, false)];
      r := Pass;
    }
  }

  // ----- Guards that only read -----

  /** `participant_index`: the first seat that is the actor's. */
  method ParticipantIndex(participants: Trio, actor: Key) returns (r: Result<nat>)
    ensures r == Rules.ParticipantIndex(participants, actor)
  {
    for i := 0 to 3
      invariant forall j :: 0 <= j < i ==> participants[j] != actor
    {
      if participants[i] == actor { return Ok(i); }
    }
    r := Err(UnauthorizedParticipant);
  }

  method RequireParticipant(participants: Trio, actor: Key) returns (r: Outcome)
    ensures r == Rules.RequireParticipant(participants, actor)
  {
    var index := ParticipantIndex(participants, actor);
    r := if index.Ok? then Pass else Fail(index.error);
  }

  /** One slot of each owner, then every one of them funded. */
  method ValidateSelection(core: RoomCore, slots: Bytes3) returns (r: Outcome)
    ensures r == Rules.ValidateSelection(core, slots)
  {
    hide Has;
    if slots[0] > 1 || slots[1] < 2 || slots[1] > 3 || slots[2] < 4 || slots[2] > 5 { return Fail(InvalidSelection); }
    for leg := 0 to 3
      invariant forall j :: 0 <= j < leg ==> slots[j] < 8 && Has(core.depositedMask, slots[j])
    {
      if !Has(core.depositedMask, slots[leg]) { return Fail(InvalidSelection); }
    }
    r := Pass;
  }

  /** The mask, then for each seat in turn its revision and its hash. */
  method ValidateLockSet(live: RoomLive) returns (r: Outcome)
    ensures r == Rules.ValidateLockSet(live)
  {
    if live.lockMask != SEATS { return Fail(NotFinalizable); }
    for i := 0 to 3
      invariant forall j :: 0 <= j < i ==>
        live.lockedRevision[j] == live.revision && live.lockedHash[j] == live.allocationHash
    {
      if live.lockedRevision[i] != live.revision { return Fail(RevisionMismatch); }
      if live.lockedHash[i] != live.allocationHash { return Fail(AllocationHashMismatch); }
    }
    r := Pass;
  }

  // ----- RoomLive -----

  class LiveAccount {
    var version: byte
    var bump: byte
    var core: Key
    var participants: Trio
    var expiresAt: i64
    var revision: u64
    var selectedSlots: Bytes3
    var cycle: Cycle
    var destinations: Bytes3
    var allocationHash: Hash
    const lockedRevision: array<u64>
    const lockedHash: array<Hash>
    var lockMask: bv8
    var phase: LivePhase
    var lastActor: Key
    var lastAction: LiveAction
    var updatedAt: i64
    var reserved: Bytes64

    ghost predicate Valid() {
      lockedRevision.Length == 3 && lockedHash.Length == 3
    }

    function Value(): RoomLive
      requires lockedRevision.Length == 3 && lockedHash.Length == 3
      reads this, lockedRevision, lockedHash
    {
      RoomLive(version, bump, core, participants, expiresAt, revision, selectedSlots, cycle, destinations,
               allocationHash, lockedRevision[..], lockedHash[..], lockMask, phase, lastActor, lastAction,
               updatedAt, reserved)
    }

    constructor (v: RoomLive)
      ensures Valid() && Value() == v && fresh(lockedRevision) && fresh(lockedHash)
    {
      version, bump, core, participants, expiresAt := v.version, v.bump, v.core, v.participants, v.expiresAt;
      revision, selectedSlots, cycle, destinations, allocationHash :=
        v.revision, v.selectedSlots, v.cycle, v.destinations, v.allocationHash;
      lockedRevision := new u64[3](i requires 0 <= i < 3 => v.lockedRevision[i]);
      lockedHash := new Hash[3](i requires 0 <= i < 3 => v.lockedHash[i]);
      lockMask, phase, lastActor, lastAction, updatedAt, reserved :=
        v.lockMask, v.phase, v.lastActor, v.lastAction, v.updatedAt, v.reserved;
      new;
      assert lockedRevision[..] == v.lockedRevision && lockedHash[..] == v.lockedHash;
    }

    /** What `initialize_live` writes into the fresh account. */
    constructor Opened(env: Env, base: RoomCore, liveBump: byte)
      ensures Valid() && fresh(lockedRevision) && fresh(lockedHash)
      ensures Value() == Rules.InitialLive(env, base, liveBump)
    {
      version, bump, core, participants, expiresAt := 1, liveBump, env.coreKey, base.participants, base.expiresAt;
      revision, selectedSlots, cycle, destinations, allocationHash := 0, [0, 2, 4], Forward, [1, 2, 0], ZERO_HASH;
      lockedRevision := new u64[3](_ => 0);
      lockedHash := new Hash[3](_ => ZERO_HASH);
      lockMask, phase, lastActor, lastAction, updatedAt, reserved :=
        0, Negotiating, DEFAULT_KEY, Initialized, base.createdAt, Zeros(64);
    }

    method ClearLocks()
      requires Valid()
      modifies this`lockMask, lockedRevision, lockedHash
      ensures lockMask == 0 && lockedRevision[..] == [0, 0, 0] && lockedHash[..] == [ZERO_HASH, ZERO_HASH, ZERO_HASH]
    {
      for i := 0 to 3
        modifies lockedRevision, lockedHash
        invariant forall j :: 0 <= j < i ==> lockedRevision[j] == 0 && lockedHash[j] == ZERO_HASH
      {
        lockedRevision[i], lockedHash[i] := 0, ZERO_HASH;
      }
      lockMask := 0;
    }

    method SetAudit(actor: Key, action: LiveAction, now: i64)
      modifies this`lastActor, this`lastAction, this`updatedAt
      ensures lastActor == actor && lastAction == action && updatedAt == now
    {
      lastActor := actor;
      lastAction := action;
      updatedAt := now;
    }

    /** `read_core` and `validate_live_context`. */
    method ValidateContext(env: Env, base: RoomCore, now: i64, actor: Key) returns (r: Outcome)
      requires Valid()
      ensures r == Rules.LiveContext(env, base, Value(), now, actor)
    {
      hide Rules.RequireParticipant;
      if env.roomPda(base.creator, base.roomNonce) != env.coreKey { return Fail(InvalidAccountPda); }
      if base.status != Active { return Fail(InvalidCoreStatus); }
      if base.liveRoom != env.LiveKey() || core != env.coreKey { return Fail(CoreLiveMismatch); }
      if base.participants != participants || base.expiresAt != expiresAt { return Fail(CoreLiveMismatch); }
      if now >= base.expiresAt { return Fail(InvalidExpiry); }
      r := RequireParticipant(base.participants, actor);
    }

    /** A new proposal takes the place of the old one and of every lock on it. */
    method Replace(nextRevision: u64, slots: Bytes3, next: Cycle, hash: Hash)
      requires Valid()
      modifies this`revision, this`selectedSlots, this`cycle, this`destinations, this`allocationHash, this`lockMask,
               lockedRevision, lockedHash
      ensures Value() == old(Value()).(revision := nextRevision, selectedSlots := slots, cycle := next,
                                       destinations := DestinationsFor(next), allocationHash := hash,
                                       lockedRevision := [0, 0, 0], lockedHash := [ZERO_HASH, ZERO_HASH, ZERO_HASH],
                                       lockMask := 0)
    {
      hide DestinationsFor;
      ClearLocks();
      revision := nextRevision;
      selectedSlots := slots;
      cycle := next;
      destinations := DestinationsFor(next);
      allocationHash := hash;
    }

    method Propose(env: Env, base: RoomCore, now: i64, actor: Key, expectedRevision: u64, slots: Bytes3, next: Cycle)
      returns (r: Outcome)
      requires Valid()
      modifies this, lockedRevision, lockedHash
      ensures var spec := Rules.Propose(env, base, old(Value()), now, actor, expectedRevision, slots, next);
        && r == (if spec.Ok? then Pass else Fail(spec.error))
        && Value() == if spec.Ok? then spec.value else old(Value())
    {
      hide Rules.LiveContext, Rules.ValidateSelection, AllocationHash, Has, With, Without, DestinationsFor;
      var context := ValidateContext(env, base, now, actor);
      if context.Fail? { return context; }
      if phase != Negotiating { return Fail(DealFrozen); }
      if revision != expectedRevision { return Fail(RevisionMismatch); }
      var selection := ValidateSelection(base, slots);
      if selection.Fail? { return selection; }
      if expectedRevision >= U64_MAX { return Fail(ArithmeticOverflow); }
      var nextRevision: u64 := expectedRevision + 1;
      var hash := AllocationHash(env, nextRevision, base.expiresAt, slots, next, DestinationsFor(next));
      Replace(nextRevision, slots, next, hash);
      SetAudit(actor, Proposed, now);
      r := Pass;
    }

    method Lock(env: Env, base: RoomCore, now: i64, actor: Key, expectedRevision: u64, expectedHash: Hash)
        returns (r: Outcome)
      requires Valid()
      modifies this, lockedRevision, lockedHash
      ensures var spec := Rules.Lock(env, base, old(Value()), now, actor, expectedRevision, expectedHash);
        && r == (if spec.Ok? then Pass else Fail(spec.error))
        && (spec.Ok? ==> Value() == spec.value)
    {
      hide Rules.LiveContext, Rules.ValidateSelection, AllocationHash, Has, With, Without;
      var context := ValidateContext(env, base, now, actor);
      if context.Fail? { return context; }
      if phase != Negotiating { return Fail(DealFrozen); }
      if revision != expectedRevision { return Fail(RevisionMismatch); }
      if allocationHash != expectedHash { return Fail(AllocationHashMismatch); }
      var seat := ParticipantIndex(base.participants, actor);
      if seat.Err? { return Fail(seat.error); }
      var index := seat.value;
      if Has(lockMask, index) { return Fail(AlreadyLocked); }
      ghost var before := Value();
      lockedRevision[index] := expectedRevision;
      lockedHash[index] := expectedHash;
      lockMask := With(lockMask, index);
      assert Value() == before.(lockedRevision := before.lockedRevision[index := expectedRevision],
                                lockedHash := before.lockedHash[index := expectedHash],
                                lockMask := With(before.lockMask, index));
      if lockMask == SEATS {
        var exact := ValidateLockSet(Value());
        if exact.Fail? { return exact; }
        phase := Finalizing;
      }
      SetAudit(actor, Locked, now);
      r := Pass;
    }

    method RevokeLock(env: Env, base: RoomCore, now: i64, actor: Key, expectedRevision: u64, expectedHash: Hash)
      returns (r: Outcome)
      requires Valid()
      modifies this, lockedRevision, lockedHash
      ensures var spec := Rules.RevokeLock(env, base, old(Value()), now, actor, expectedRevision, expectedHash);
        && r == (if spec.Ok? then Pass else Fail(spec.error))
        && Value() == if spec.Ok? then spec.value else old(Value())
    {
      hide Rules.LiveContext, Rules.ValidateSelection, AllocationHash, Has, With, Without;
      var context := ValidateContext(env, base, now, actor);
      if context.Fail? { return context; }
      if phase != Negotiating { return Fail(DealFrozen); }
      if revision != expectedRevision { return Fail(RevisionMismatch); }
      if allocationHash != expectedHash { return Fail(AllocationHashMismatch); }
      var seat := ParticipantIndex(base.participants, actor);
      if seat.Err? { return Fail(seat.error); }
      var index := seat.value;
      if !Has(lockMask, index) { return Fail(NotLocked); }
      ghost var before := Value();
      lockedRevision[index] := 0;
      lockedHash[index] := ZERO_HASH;
      lockMask := Without(lockMask, index);
      assert lockedRevision[..] == before.lockedRevision[index := 0]
          && lockedHash[..] == before.lockedHash[index := ZERO_HASH];
      SetAudit(actor, Revoked, now);
      r := Pass;
    }

    method MarkFinalized(env: Env, base: RoomCore, now: i64, actor: Key) returns (r: Outcome)
      requires Valid()
      modifies this
      ensures var spec := Rules.FinalizeLive(env, base, old(Value()), now, actor);
        && r == (if spec.Ok? then Pass else Fail(spec.error))
        && Value() == if spec.Ok? then spec.value else old(Value())
    {
      hide Rules.LiveContext, Rules.ValidateSelection, AllocationHash, Has, With, Without;
      var context := ValidateContext(env, base, now, actor);
      if context.Fail? { return context; }
      var exact := ValidateLockSet(Value());
      if exact.Fail? { return exact; }
      if phase != Finalizing { return Fail(NotFinalizable); }
      phase := Finalized;
      SetAudit(actor, FinalizedAction, now);
      r := Pass;
    }
  }
}
