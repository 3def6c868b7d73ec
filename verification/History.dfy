/** Reading the event log: who proposed, who locked, and how often anything happened. */
module History {
  import Wire
  import Machine

  predicate IsProposal(e: Machine.Event, revision: int) {
    e.ProposalChanged? && e.revision == revision
  }

  predicate IsLockChange(e: Machine.Event, revision: int, seat: nat) {
    e.LockChanged? && e.revision == revision && e.seat == seat
  }

  /** The proposals made at one revision, in order. */
  function Proposals(events: seq<Machine.Event>, revision: int): seq<Machine.Event> {
    if events == [] then []
    else
      var last := events[|events| - 1];
      Proposals(events[..|events| - 1], revision) + (if IsProposal(last, revision) then [last] else [])
  }

  /** One seat's locks and revocations at one revision, in order. */
  function LockChanges(events: seq<Machine.Event>, revision: int, seat: nat): seq<Machine.Event> {
    if events == [] then []
    else
      var last := events[|events| - 1];
      LockChanges(events[..|events| - 1], revision, seat) + (if IsLockChange(last, revision, seat) then [last] else [])
  }

  /** The seat's latest word on a revision is a lock carrying this hash. */
  predicate Stands(changes: seq<Machine.Event>, hash: Wire.Hash) {
    && changes != []
    && changes[|changes| - 1].LockChanged?
    && changes[|changes| - 1].locked
    && changes[|changes| - 1].hash == hash
  }

  lemma HistoryAppend(events: seq<Machine.Event>, e: Machine.Event)
    ensures forall r: int {:trigger Proposals(events + [e], r)} ::
      Proposals(events + [e], r) == Proposals(events, r) + (if IsProposal(e, r) then [e] else [])
    ensures forall r: int, seat: nat {:trigger LockChanges(events + [e], r, seat)} ::
      LockChanges(events + [e], r, seat) == LockChanges(events, r, seat)
        + (if IsLockChange(e, r, seat) then [e] else [])
  {
    assert (events + [e])[..|events + [e]| - 1] == events;
  }

  function Tally(events: seq<Machine.Event>, what: Machine.Event -> bool): nat {
    if events == [] then 0
    else Tally(events[..|events| - 1], what) + (if what(events[|events| - 1]) then 1 else 0)
  }

  lemma TallyAppend(events: seq<Machine.Event>, e: Machine.Event, what: Machine.Event -> bool)
    ensures Tally(events + [e], what) == Tally(events, what) + (if what(e) then 1 else 0)
  {
    assert (events + [e])[..|events + [e]| - 1] == events;
  }

  /** The room's consequence: a settlement or a cancellation. */
  predicate IsOutcome(e: Machine.Event) {
    e.RoomSettled? || e.RoomCancelled?
  }

  predicate IsDelegation(e: Machine.Event) {
    e.LiveDelegated?
  }

  /** Events of the instructions that write the base core. */
  predicate IsCoreWrite(e: Machine.Event) {
    e.AssetDeposited? || e.LiveDelegated? || e.RoomSettled? || e.RoomCancelled? || e.AssetReturned?
  }
}
