/** What every reachable room satisfies. */
module Invariant {
  import Wire
  import opened Masks
  import opened Records
  import opened Tokens
  import opened Allocation
  import Rules
  import opened Machine
  import opened History

  // ----- The base core -----

  /** Exactly one of each seat's two slots. */
  predicate OnePerSeat(mask: bv8) {
    && (Has(mask, 0) != Has(mask, 1)) && (Has(mask, 2) != Has(mask, 3)) && (Has(mask, 4) != Has(mask, 5))
    && Within(mask, SLOTS)
  }

  /** Which masks each status allows. */
  predicate MasksFit(core: RoomCore) {
    var dep, ret, sel := core.depositedMask, core.returnedMask, core.selectedMask;
    && Within(dep, SLOTS) && Within(ret, dep) && Within(sel, dep) && Apart(ret, sel)
    && match core.status
       case Funding => sel == 0 && ret == 0
       case Active => dep == SLOTS && sel == 0 && ret == 0
       case Settled => dep == SLOTS && OnePerSeat(sel) && ret == 0
       case Returning => dep == SLOTS && OnePerSeat(sel) && ret != 0 && ret != Minus(dep, sel)
       case Complete => dep == SLOTS && OnePerSeat(sel) && ret == Minus(dep, sel)
       case Cancelled => sel == 0 && (dep == 0 || ret != dep)
       case Closed => sel == 0 && dep != 0 && ret == dep
  }

  function FlagsFor(core: RoomCore, slot: nat): bv8
    requires slot < 6
  {
    if !Has(core.depositedMask, slot) then 0
    else DEPOSITED | (if Has(core.selectedMask, slot) then SELECTED | TRANSFERRED else 0)
                   | (if Has(core.returnedMask, slot) then RETURNED else 0)
  }

  predicate AssetFits(env: Env, core: RoomCore, slot: nat)
    requires slot < 6
  {
    var a := core.assets[slot];
    var owner := core.participants[slot / 2];
    && a.flags == FlagsFor(core, slot)
    && (!Has(core.depositedMask, slot) ==> a == EMPTY_ASSET)
    && (Has(core.depositedMask, slot) ==>
          && a.vault == env.VaultOf(a.mint)
          && a.originalOwner == owner
          && a.originalAta == env.ata(owner, a.mint)
          && owner != env.VaultAuthority())
    && (!Has(core.selectedMask, slot) ==> a.finalAta == Wire.DEFAULT_KEY)
  }

  ghost predicate DistinctMints(core: RoomCore) {
    forall s, t :: 0 <= s < 6 && 0 <= t < 6 && s != t && Has(core.depositedMask, s) && Has(core.depositedMask, t) ==>
      core.assets[s].mint != core.assets[t].mint
  }

  ghost predicate CoreFits(env: Env, core: RoomCore) {
    && core.version == 1
    && core.expiresAt >= core.createdAt + Rules.MIN_ROOM_SECONDS
    && env.roomPda(core.creator, core.roomNonce) == env.coreKey
    && core.liveRoom == env.LiveKey()
    && Rules.ValidateParticipants(core.participants).Pass?
    && MasksFit(core)
    && (forall s :: 0 <= s < 6 ==> AssetFits(env, core, s))
    && DistinctMints(core)
  }

  /** The terms fixed at creation. */
  predicate SameTerms(a: RoomCore, b: RoomCore) {
    && a.creator == b.creator && a.roomNonce == b.roomNonce && a.participants == b.participants
    && a.liveRoom == b.liveRoom && a.expiresAt == b.expiresAt && a.createdAt == b.createdAt
       && a.rentPayer == b.rentPayer
  }

  ghost predicate LogFits(env: Env, w: World) {
    && w.core in w.coreLog
    && forall i :: 0 <= i < |w.coreLog| ==> SameTerms(w.coreLog[i], w.core) && CoreFits(env, w.coreLog[i])
  }

  // ----- Custody -----

  /** Deposited, and neither transferred by settlement nor returned. */
  predicate Held(core: RoomCore, slot: nat)
    requires slot < 6
  {
    Has(core.depositedMask, slot) && !Has(core.selectedMask, slot) && !Has(core.returnedMask, slot)
  }

  predicate VaultHolds(env: Env, a: AssetRecord, l: Ledger) {
    && a.vault in l.accounts
    && l.accounts[a.vault] == TokenAccount(a.mint, env.VaultAuthority(), 1, false)
  }

  predicate SlotInCustody(env: Env, core: RoomCore, l: Ledger, slot: nat)
    requires slot < 6
  {
    var a := core.assets[slot];
    && (Has(core.depositedMask, slot) ==>
        a.mint in l.mints && FixedPolicy(l.mints[a.mint]) && l.mints[a.mint].supply <= 1)
    && (Held(core, slot) ==> VaultHolds(env, a, l) && l.mints[a.mint].supply == 1)
  }

  ghost predicate Custody(env: Env, core: RoomCore, l: Ledger) {
    && Conserved(l)
    && forall s :: 0 <= s < 6 ==> SlotInCustody(env, core, l, s)
  }

  // ----- The live copies -----

  predicate SeatFits(live: RoomLive, seat: nat)
    requires seat < 3
  {
    if Has(live.lockMask, seat)
    then live.lockedRevision[seat] == live.revision && live.lockedHash[seat] == live.allocationHash
    else live.lockedRevision[seat] == 0 && live.lockedHash[seat] == Wire.ZERO_HASH
  }

  /** Bit i of the lock mask says that seat i's recorded revision and hash are the current ones; all three bits are set
      exactly when the deal is frozen. */
  predicate LocksFit(live: RoomLive) {
    && SeatFits(live, 0) && SeatFits(live, 1) && SeatFits(live, 2)
    && Within(live.lockMask, SEATS)
    && (live.lockMask == SEATS <==> live.phase != Negotiating)
  }

  predicate ProposalFits(env: Env, live: RoomLive) {
    && Rules.SlotsInRange(live.selectedSlots)
    && live.destinations == DestinationsFor(live.cycle)
    && if live.revision == 0 then live.allocationHash == Wire.ZERO_HASH && live.selectedSlots == [0, 2, 4]
       && live.cycle == Forward
       else live.allocationHash
            == AllocationHash(env, live.revision, live.expiresAt, live.selectedSlots, live.cycle, live.destinations)
  }

  predicate LiveFits(env: Env, core: RoomCore, live: RoomLive) {
    && live.version == 1
    && live.core == env.coreKey && live.participants == core.participants && live.expiresAt == core.expiresAt
    && LocksFit(live)
    && ProposalFits(env, live)
  }

  /** The one copy that carries the negotiation. */
  function Current(w: World): RoomLive {
    if w.er.Absent? then w.live else w.er.live
  }

  predicate NeverDelegated(w: World) {
    w.er.Absent? && w.live.phase != Finalized
  }

  /** At most one copy is ever mutable, and a finalized base copy is the final word. */
  predicate CopiesFit(w: World) {
    match w.er
    case Absent =>
      && w.liveOwner.ProgramOwned?
      && (w.live.phase != Finalized ==>
            && w.live.phase == Negotiating && w.live.revision == 0 && w.live.lockMask == 0
            && (w.core.status == Funding || w.core.status == Cancelled || w.core.status == Closed))
      && (w.live.phase == Finalized ==> w.core.status != Funding)
    case Delegated(live) =>
      w.liveOwner.DelegationOwned? && live.phase != Finalized && w.live.phase != Finalized && w.core.status != Funding
    case Scheduled(live) =>
      w.liveOwner.DelegationOwned? && live.phase == Finalized && (w.live.phase == Finalized ==> w.live == live)
        && w.core.status != Funding
  }

  // ----- Consent -----

  /** The seat's bit is set exactly when its latest word on the current revision is a lock with the current hash. */
  predicate SeatSpoke(events: seq<Event>, live: RoomLive, seat: nat)
    requires seat < 3
  {
    Has(live.lockMask, seat) <==> Stands(LockChanges(events, live.revision, seat), live.allocationHash)
  }

  predicate IsProposalOf(p: Event, live: RoomLive) {
    p.ProposalChanged? && p.revision == live.revision && p.slots == live.selectedSlots && p.cycle == live.cycle
    && p.hash == live.allocationHash
  }

  /** The log shows one proposal for each revision so far and none beyond, and the newest is the current one. */
  ghost predicate OneProposalEach(events: seq<Event>, live: RoomLive) {
    && (forall r: int :: |Proposals(events, r)| == if 1 <= r <= live.revision then 1 else 0)
    && (live.revision > 0 ==> IsProposalOf(Proposals(events, live.revision)[0], live))
  }

  ghost predicate NoEarlyLocks(events: seq<Event>, live: RoomLive) {
    forall r: int, seat: nat :: r > live.revision ==> LockChanges(events, r, seat) == []
  }

  ghost predicate Consent(events: seq<Event>, live: RoomLive) {
    && OneProposalEach(events, live) && NoEarlyLocks(events, live)
    && SeatSpoke(events, live, 0) && SeatSpoke(events, live, 1) && SeatSpoke(events, live, 2)
  }

  function MaskOf(slots: Bytes3): bv8
    requires Rules.SlotsInRange(slots)
  {
    With(With(With(0, slots[0]), slots[1]), slots[2])
  }

  predicate LegRecorded(env: Env, core: RoomCore, live: RoomLive, leg: nat)
    requires leg < 3 && Rules.SlotsInRange(live.selectedSlots) && live.destinations == DestinationsFor(live.cycle)
  {
    var asset := core.assets[live.selectedSlots[leg]];
    asset.finalAta == env.ata(core.participants[live.destinations[leg]], asset.mint)
  }

  predicate WasSettled(core: RoomCore) {
    core.status == Settled || core.status == Returning || core.status == Complete
  }

  /** A settled core records the frozen deal and nothing else. */
  predicate SettlementFits(env: Env, core: RoomCore, live: RoomLive) {
    WasSettled(core) ==>
      && live.phase == Finalized
      && Rules.SlotsInRange(live.selectedSlots) && live.destinations == DestinationsFor(live.cycle)
      && core.settledRevision == live.revision && core.allocationHash == live.allocationHash
      && core.allocationHash
         == AllocationHash(env, live.revision, core.expiresAt, live.selectedSlots, live.cycle, live.destinations)
      && core.selectedMask == MaskOf(live.selectedSlots)
      && LegRecorded(env, core, live, 0) && LegRecorded(env, core, live, 1) && LegRecorded(env, core, live, 2)
  }

  // ----- Outcomes and progress -----

  /** How many more core writes a room can still make. */
  function Rank(core: RoomCore): int {
    match core.status
    case Funding => 14 - Count(core.depositedMask)
    case Active => 7
    case Settled => 3
    case Returning => 3 - Count(core.returnedMask)
    case Cancelled => Count(core.depositedMask) - Count(core.returnedMask)
    case Complete => 0
    case Closed => 0
  }

  predicate Undecided(core: RoomCore) {
    core.status == Funding || core.status == Active
  }

  ghost predicate ProgressFits(w: World) {
    && Tally(w.events, IsOutcome) == (if Undecided(w.core) then 0 else 1)
    && Tally(w.events, IsDelegation) == (if NeverDelegated(w) then 0 else 1)
    && Tally(w.events, IsCoreWrite) + Rank(w.core) <= 14
    && Rank(w.core) >= 0
  }

  /** Every return is logged with the asset's own original account, and only returns are. */
  ghost predicate ReturnsFit(core: RoomCore, events: seq<Event>) {
    && (forall s :: 0 <= s < 6 && Has(core.returnedMask, s) ==>
          AssetReturned(s, core.assets[s].mint, core.assets[s].originalAta) in events)
    && (forall e :: e in events && e.AssetReturned? ==>
          e.slot < 6 && Has(core.returnedMask, e.slot) && e.mint == core.assets[e.slot].mint
          && e.destination == core.assets[e.slot].originalAta)
  }

  ghost predicate Inv(env: Env, w: World) {
    && CoreFits(env, w.core)
    && LogFits(env, w)
    && Custody(env, w.core, w.ledger)
    && LiveFits(env, w.core, w.live)
    && LiveFits(env, w.core, Current(w))
    && CopiesFit(w)
    && Consent(w.events, Current(w))
    && SettlementFits(env, w.core, Current(w))
    && ProgressFits(w)
    && ReturnsFit(w.core, w.events)
  }
}
