# TradeTable, verified

TradeTable is a barter among three people. Each of them puts two supply-one tokens into vaults that only the program can
open; together they choose one asset from each and a direction around the table; each locks the exact revision they agree
to; the third lock freezes the deal; the three chosen assets move in one transaction and the other three go home. The base
ledger keeps the room's `RoomCore` record and the vaults. The negotiation happens on a faster second ledger, the rollup, in
a delegated copy of the `RoomLive` record, which is then committed back. A web client re-derives all of the program's rules
to decide what to offer, predicts the state each write leads to, and waits until it sees exactly that.

This project models the program and the client's second implementation of it, and proves what they promise.

## How the model is laid out

- `Wire`, `Masks`, `Records`: machine integers, bit masks and the account records, in the program's field order.
- `Tokens`: the classic token program as anyone may use it, and conservation of every mint.
- `Allocation`: address derivation, the two cycles and the hashed fingerprint of a deal. Derivations and the hash are
  arbitrary functions: nothing is assumed about injectivity or collisions.
- `Rules`: each instruction as a function from the accounts it is given to the accounts it leaves, or an error.
- `Instructions`, `Effects`, `Rights`: each instruction against an ordered list of checks written without the rules, on any
  accounts whatever; the whole world it leaves; and which of the checks remain in a room that can come about, so who may do
  what.
- `Accounts`, `CoreAccounts`, `Runtime`: the same instructions as they are written, assigning fields and array elements in
  place and looping over the three legs; accounts are loaded, written, and stored only on success.
- `Machine`: the room as a transition system. A state holds the base core and every value it ever had, the base copy of the
  live record and its owner, the rollup's copy, all token accounts, the base clock and the event log. A step is any
  instruction by any signer, any token operation by any signer, a clock tick, a commit or an undelegation. Instructions on
  the rollup may read any past core and any clock. The vault authority is a derived address without a private key, so no
  transaction carries its signature.
- `History`, `Invariant`, `Preservation`, `Settlement`: what every reachable room satisfies, and that every step keeps it.
- `Agreement`, `CustodyLaws`, `Deliveries`, `Progress`, `Recovery`: the theorems about consent, the freeze, the single
  outcome, custody, the steps at which each token changed hands, the final allocation, the runs that fund and settle a
  room (so that the theorems about settled rooms speak of rooms that come about), and getting every asset out.
- `RoomState`, `RoomActions`, `ClientLaws`, `Refusals`: the client's rules, its transactions and expectations, that they
  are faithful to the program up to named obstacles, and a run to a room with each obstacle.
- `Offers`, `Builders`, `Expectations`: exactly when each write is offered, exactly which records the builders accept, what
  each expectation says of the room's log and how long the client waits for it.
- `Codec`, `Layout`, `Base58`, `Watermarks`: the account bytes, the signature text, and the filter on incoming updates.

## What turned out not to hold

- `lock` accepts the untouched revision zero with the all-zero hash. Three such locks freeze and finalize a room that
  settlement then refuses for its hash, from every funded room (`Progress.UnproposedRoomFreezes`), and such a room never
  settles in any later state (`Agreement.UnproposedNeverSettles`); its assets come out by cancellation after the expiry. A
  finalized record settles exactly when its revision is not zero (`Agreement.SettlesIffProposed`). The domain guide says
  that a lock binds a participant to the current revision and hash, and does not exclude the state before the first
  proposal.
- One such lock makes the interface distrust the room: until the expiry it permits no write to any participant although
  the program would still take a proposal from each of them (`ClientLaws.EarlyLockStallsInterface`).
  `ClientLaws.DistrustIff` gives the exact condition, by which a revoked early lock has the same effect.
- The client's deposit preflight does not look at frozen accounts, so a permitted deposit succeeds exactly when the source
  and vault are not frozen (`ClientLaws.DepositSound`, `Refusals.FrozenDepositRefused`). Settlement and returns depend in
  the same way on the recipients' and depositors' accounts, and proposals on the revision counter; `ClientLaws.Clear` lists
  all of these obstacles.
- The client reads its own clock, and reads it again when it builds a settlement. When base's clock is on the other side of
  the expiry, the program refuses an activation, a settlement or a cancellation that the client permits
  (`Refusals.SlowClockActivates`, `Refusals.SlowClockSettles`, `Refusals.FastClockCancels`).
- The client reads base's core; a rollup that lags behind, or whose clock has passed the expiry, refuses a negotiation write
  that the client permits (`ClientLaws.BlindRollup`, `Refusals.LaggingRollupRefuses`).
- The client takes the owner of the live account to be the program and the delegation flag from the feed. Between commit
  and undelegation it can therefore offer a settlement that the program refuses for the account's owner
  (`ClientLaws.WrongOwner`, `Refusals.SettledTooSoon`); nothing about that flag is assumed of a fresh view.
- A room cancelled before its first deposit stays cancelled for good (`Recovery.EmptyCancelledStays`); only rooms that held
  something close (`Recovery.CancelledClosesIff`).
- The domain guide grants returns of unselected assets in the returning state; the code also grants the first one in the
  settled state, and the model follows the code (`ClientLaws.ReturnGuardsAgree` covers every status).

## Model

| member | source | states |
|---|---|---|
| Runtime.InitializeRoom | programs/tradetable/src/lib.rs:32-60 | Both fresh accounts are written, or neither is: creation reports the first of four checks that fails, and otherwise the two records carry exactly the given creator, roster, terms and bumps, with nothing deposited, proposed or locked |
| Accounts.LiveAccount.Opened | programs/tradetable/src/lib.rs:262-281 | The negotiation record is born at revision zero with the canonical selection, no hash and no lock |
| Accounts.TokenStore.TransferOne | programs/tradetable/src/lib.rs:402-415 | Moves one token of a mint without decimals between two accounts in place, or refuses and changes nothing |
| Accounts.TokenStore.OpenAta | programs/tradetable/src/lib.rs:762-763 | Opens the associated account when it is missing, accepts it when mint and owner match, refuses it otherwise |
| Accounts.LiveAccount.ClearLocks | programs/tradetable/src/lib.rs:334-338 | All three recorded revisions and hashes and the mask are zero afterwards, and nothing else moves |
| Accounts.ValidateLockSet | programs/tradetable/src/lib.rs:340-347 | The loop over the seats reports the first deviation, mask first, then revision before hash seat by seat |
| Accounts.ParticipantIndex | programs/tradetable/src/lib.rs:291-293 | The scan of the roster finds the first seat of a wallet, or refuses a stranger |
| Accounts.ValidateSelection | programs/tradetable/src/lib.rs:309-313 | Range checks first, then the loop over the slots: only deposited ones pass |
| Accounts.LiveAccount.ValidateContext | programs/tradetable/src/lib.rs:387-393 | The guards common to the negotiation handlers report the first one that fails |
| Accounts.LiveAccount.Propose | programs/tradetable/src/lib.rs:118-137 | The account after the handler is the proposal rule's outcome on the account before it, which `Instructions.ProposeRule` and `Rights.ProposeIff` state; on failure it is untouched |
| Accounts.LiveAccount.Lock | programs/tradetable/src/lib.rs:139-158 | The in-place lock, including the freeze on the third bit, is the lock rule's outcome |
| Accounts.LiveAccount.RevokeLock | programs/tradetable/src/lib.rs:160-175 | The in-place revocation is the revocation rule's outcome; on failure the account is untouched |
| Accounts.LiveAccount.MarkFinalized | programs/tradetable/src/lib.rs:203-217 | The in-place finalization is the finalization rule's outcome; on failure the account is untouched |
| CoreAccounts.CoreAccount.ValidateNewMint | programs/tradetable/src/lib.rs:303-307 | The scan of the six records refuses exactly the mints that some deposited record already holds |
| CoreAccounts.CoreAccount.DepositAsset | programs/tradetable/src/lib.rs:62-96 | The handler's writes to core and ledger together are the deposit rule's outcome, with its error otherwise |
| CoreAccounts.CoreAccount.Activate | programs/tradetable/src/lib.rs:98-116 | Marks a fully funded, unexpired room active, and fails when delegation cannot take the live account |
| CoreAccounts.CoreAccount.CancelByParticipant | programs/tradetable/src/lib.rs:227-231 | The in-place cancellation is the cancellation rule's outcome: by `Rights.CancelIff` exactly a roster member cancels, and only a room that is still funding |
| CoreAccounts.CoreAccount.CancelExpired | programs/tradetable/src/lib.rs:233-236 | Anyone cancels an undecided room from its expiry on, and never before |
| CoreAccounts.CoreAccount.SettleLeg | programs/tradetable/src/lib.rs:537-553 | One leg rechecks mint, vault, custody and recipient, moves the token and marks the record, or reports the first failed check |
| CoreAccounts.CoreAccount.SettleFromAccounts | programs/tradetable/src/lib.rs:509-535 | The loop over three legs, each reading what the previous one wrote, gives the settlement rule's core and ledger; a failing leg fails the settlement with its own error |
| CoreAccounts.CoreAccount.FinishReturnsIfEmpty | programs/tradetable/src/lib.rs:417-426 | A returning room completes and a cancelled one closes when nothing owed is left; a cancelled room that never held a deposit stays cancelled |
| CoreAccounts.CoreAccount.ValidateSettlement | programs/tradetable/src/lib.rs:509-521 | The eleven checks before the first transfer report the first one that fails, on the live account as it is read |
| CoreAccounts.CoreAccount.ValidateReturnable | programs/tradetable/src/lib.rs:428-433 | The mask and status checks of a return, bit by bit, report the first one that fails |
| CoreAccounts.CoreAccount.ReturnAsset | programs/tradetable/src/lib.rs:238-259 | The handler's transfer and its three core writes together are the return rule's outcome, with its error otherwise |
| CoreAccounts.LegFailure | programs/tradetable/src/lib.rs:526-529 | A failed leg decides the outcome of the whole settlement, whichever leg it is |
| Runtime.Chain.Settle | DOMAIN-GUIDE.md:23-23 | Settlement is atomic: world, core and ledger after a failed settlement are those before it, even when earlier legs had moved tokens in place |
| Runtime.Chain.Execute | programs/tradetable/src/lib.rs:28-260 | One in-place instruction with rollback takes exactly the corresponding step of the transition system |
| Runtime.Chain.ExecuteAll | programs/tradetable/src/lib.rs:28-260 | A run of in-place instructions ends where the transition system ends, so every theorem about reachable worlds holds of what the handlers write |
| Instructions.AnswersOnce | programs/tradetable/src/lib.rs:822-856 | A list of checks has one answer: success when all hold, and otherwise the error of the first that fails |
| Instructions.CreatedIff | programs/tradetable/src/lib.rs:32-60 | A room is created exactly on its own address, for three different non-default wallets and at least 1200 seconds ahead; both records then carry exactly the given creator, roster, terms and bumps, with nothing deposited, proposed or locked |
| Instructions.ProposeRule | programs/tradetable/src/lib.rs:118-137 | On any two records a proposal reports the first of its ten checks that fails, the expected revision among them, and otherwise leaves the next revision, its hash and no lock |
| Instructions.LockRule | programs/tradetable/src/lib.rs:139-158 | On any two records a lock reports the first check that fails, the recheck of a completed lock set seat by seat included, and otherwise writes one seat's bit, revision and hash |
| Instructions.DepositRule | programs/tradetable/src/lib.rs:62-96 | On any room and ledger a deposit reports the first of its twelve checks that fails, and otherwise writes one record and one bit and puts the one token into its vault |
| Instructions.ReturnRule | programs/tradetable/src/lib.rs:238-259 | On any room and ledger a return reports the first of its eleven checks that fails (the program's twelfth, on the account just opened, never does), and otherwise flags the slot, pays the token out and ends the room exactly when nothing is outstanding |
| Instructions.SettlementRule | programs/tradetable/src/lib.rs:509-553 | On any room and ledger a settlement reports the first failure among the guard's checks and those of the three legs, each on the ledger the one before it left, and otherwise records the deal, its mask and the three recipients |
| Effects.EveryInstruction | programs/tradetable/src/lib.rs:28-260 | Every instruction of anyone, on any world, reachable or not: the first failing check of its list is the error, and with none failing the whole world changes exactly so, event included |
| Rights.ProposeIff | DOMAIN-GUIDE.md:11-11 | In every reachable room a proposal goes through exactly for a roster member at the table, in negotiation, on the copy's own revision below the last, with one slot of each owner; the revision is then one higher and nobody is locked on it |
| Rights.StaleTermsRefused | programs/tradetable/src/lib.rs:122-122 | A proposal, lock or revocation on another revision than the copy's, or a lock or revocation on another hash, changes nothing |
| Rights.LockIff | programs/tradetable/src/lib.rs:139-158 | In every reachable room a lock goes through exactly for a roster member at the table who has none, on the current revision and hash |
| Rights.RevokeIff | programs/tradetable/src/lib.rs:160-175 | In every reachable room a lock is taken back exactly by the roster member who has it, on the current revision and hash |
| Rights.FinalizeIff | programs/tradetable/src/lib.rs:203-217 | In every reachable room a deal is finalized exactly by a roster member at the table, once all three seats are locked |
| Rights.ActivateIff | programs/tradetable/src/lib.rs:98-116 | In every reachable room exactly a roster member activates, in funding, with all six slots deposited and before the expiry |
| Rights.CancelIff | programs/tradetable/src/lib.rs:227-236 | Exactly a roster member cancels a room in funding, and exactly from the expiry on anybody an undecided one |
| Rights.DepositorOwnsSlot | programs/tradetable/src/lib.rs:62-96 | Only the owner of an empty slot deposits into it, and only in funding |
| Rights.StrangersMayOnly | programs/tradetable/src/lib.rs:28-260 | In every reachable room a stranger's call that changes anything is a cancellation after expiry, a settlement or a return |
| Rights.ConsentIsPersonal | programs/tradetable/src/lib.rs:118-175 | Over any step, a seat's lock comes and goes by that participant's own call on the very revision and hash on the table; only a roster member's proposal on that revision clears the others |
| Tokens.ApplyConserves | programs/tradetable/src/lib.rs:402-415 | No token-program instruction by anyone changes the tokens of a mint over all accounts except together with that mint's supply |
| Tokens.SupplyOneHasSoleHolder | programs/tradetable/src/lib.rs:565-571 | Under the mint policy an account that holds a token is the only one that does |
| Tokens.SupplyOneIsSomewhere | programs/tradetable/src/lib.rs:565-571 | A mint of supply one has exactly one holder among all accounts |
| Tokens.OthersCannotTake | programs/tradetable/src/lib.rs:565-571 | An account of a policy-conforming mint keeps its mint, owner, thawed state and tokens through any instruction its owner did not sign |
| Tokens.PolicyIsForever | programs/tradetable/src/lib.rs:565-571 | A mint without authorities never regains them and its supply never grows |
| Masks.MembersLaws | programs/tradetable/src/lib.rs:417-433 | The bit operations on the eight-bit masks are union, difference and inclusion of sets of slots |
| Preservation.InitialInv | programs/tradetable/src/lib.rs:32-60 | Every room that `initialize_room` creates satisfies the invariant |
| Preservation.DepositInv | programs/tradetable/src/lib.rs:62-96 | A deposit keeps the invariant: masks and flags agree, mints stay distinct, the new vault holds exactly its token and no other vault moves |
| Preservation.ActivateInv | programs/tradetable/src/lib.rs:98-116 | Activation keeps the invariant and hands the only mutable copy to the rollup |
| Preservation.CancelInv | programs/tradetable/src/lib.rs:395-400 | Cancellation keeps the invariant and is the room's one outcome |
| Preservation.NegotiationInv | programs/tradetable/src/lib.rs:118-217 | Proposals, locks, revocations and finalization keep the invariant under any core snapshot and any rollup clock |
| Preservation.TokenInv | programs/tradetable/src/lib.rs:565-571 | Nobody else's use of the token program disturbs an asset in custody |
| Settlement.SettleInv | programs/tradetable/src/lib.rs:509-553 | A settlement by either path keeps the invariant: the core records the frozen deal and the unselected vaults are untouched |
| Settlement.ReturnInv | programs/tradetable/src/lib.rs:238-259 | A return keeps the invariant and every other asset in custody stays there |
| Settlement.StepInv | programs/tradetable/src/lib.rs:28-260 | Every step of anyone keeps the invariant |
| Settlement.ReachableInv | programs/tradetable/src/lib.rs:28-260 | Every reachable room satisfies the invariant, over all runs of instructions, token operations, clock ticks, commits and undelegations |
| Settlement.ReturnStatus | programs/tradetable/src/lib.rs:417-426 | A return ends the room exactly when it returns the last asset owed |
| Agreement.UnanimousExactConsent | programs/tradetable/src/lib.rs:139-158 | Whenever a room has settled, the log holds exactly one proposal for the settled revision, its slots and cycle are the ones transferred, and each seat's last word at that revision is a lock carrying the settled hash |
| Agreement.LockIff | programs/tradetable/src/lib.rs:139-158 | On a reachable copy `lock` succeeds exactly for a roster seat not yet locked, in negotiation, at the current revision and hash: the recheck of the completed lock set never fails |
| Agreement.FullLockSet | programs/tradetable/src/lib.rs:340-347 | In every reachable copy the lock set is valid exactly when all three bits are set, which is exactly when the deal is frozen |
| Agreement.FrozenForever | DOMAIN-GUIDE.md:14-14 | After the third lock revision, selection, cycle, destinations, hash and all locks are the same for the rest of any run |
| Agreement.ProposedDealPasses | programs/tradetable/src/lib.rs:509-521 | A finalized live record on base with a proposal behind it passes every check before the first transfer |
| Agreement.SettlesIffProposed | programs/tradetable/src/lib.rs:519-521 | A finalized live record on base passes those checks if and only if its revision is not zero |
| Agreement.UnproposedNeverSettles | programs/tradetable/src/lib.rs:509-521 | A reachable room whose three seats are locked at revision zero settles in no later state of any run |
| Progress.UnproposedRoomFreezes | programs/tradetable/src/lib.rs:139-158 | From every funded, unexpired room a seven-step run with three locks on the untouched revision zero freezes, finalizes and hands back a record that settlement refuses for its hash, whatever accounts it is given; no later state is settled |
| Agreement.SingleWriter | programs/tradetable/src/lib.rs:98-116 | Only the rollup's delegated copy can ever be written, and only while base has it delegated away |
| Agreement.SingleOutcome | programs/tradetable/src/lib.rs:395-400 | Over any run: at most one delegation, exactly one settlement or cancellation once decided and none before, at most fourteen core writes |
| Agreement.OutcomesExclude | DOMAIN-GUIDE.md:38-38 | Settlement and either cancellation are never enabled together |
| Agreement.RankFalls | programs/tradetable/src/lib.rs:62-259 | Every instruction that writes the core strictly lowers a rank between 0 and 14 |
| Agreement.ReturnsInProgress | programs/tradetable/src/lib.rs:417-441 | A returning room has returned one or two of its three assets, and a cancelled room with deposits still owes one |
| Agreement.TermsForever | programs/tradetable/src/lib.rs:32-60 | Creator, roster, addresses, creation and expiry never change in any run, and at least twenty minutes lie between creation and expiry |
| Agreement.DecidedForever | programs/tradetable/src/lib.rs:395-441 | A decided room stays decided the same way in every later state, with its deal fixed and its returned assets returned |
| CustodyLaws.CustodyHolds | DOMAIN-GUIDE.md:15-15 | In every reachable room each deposited asset is in exactly one of held, transferred or returned, its flags say which, and a held asset's own vault is the sole holder of its mint's one token |
| CustodyLaws.OneHolder | DOMAIN-GUIDE.md:15-15 | In every reachable room each deposited mint that still has its token has exactly one holder somewhere, wherever the token has gone |
| CustodyLaws.RecordForever | DOMAIN-GUIDE.md:24-24 | A deposit's mint, vault, original owner, return account and time never change again in any run |
| CustodyLaws.VaultsDistinct | programs/tradetable/src/lib.rs:303-307 | Two assets in custody never share a vault, although address derivation is not assumed injective |
| CustodyLaws.LegIff | programs/tradetable/src/lib.rs:537-553 | A funded leg succeeds exactly on its canonical accounts with a ready recipient, and then moves exactly one token |
| CustodyLaws.OtherLegUnmoved | programs/tradetable/src/lib.rs:537-553 | One leg's transfer leaves every other leg as ready, or as unready, as it was |
| CustodyLaws.LegsIff | programs/tradetable/src/lib.rs:526-529 | The three legs succeed exactly when all three are canonical with ready recipients at the start, and then move exactly three tokens |
| CustodyLaws.HonestDealSettles | programs/tradetable/src/lib.rs:509-549 | In any reachable, active, unexpired room with a finalized live record under the expected owner, settlement succeeds if and only if somebody proposed, the accounts are canonical and the recipients' accounts are open |
| CustodyLaws.SettlementMovesThree | programs/tradetable/src/lib.rs:509-553 | A successful settlement found three recipients ready, hands each token from its vault, the sole holder before, to its recipient, the sole holder after, and touches no other account |
| Deliveries.CompleteRoom | programs/tradetable/src/lib.rs:509-553 | In whatever run led to a complete room, there is one proposal that all settled on; by it each seat's chosen asset was handed, at some step, from its vault to the next seat on the cycle as sole holder, never to its owner, and its other asset was handed from its vault back to it |
| Deliveries.ClosedRoom | programs/tradetable/src/lib.rs:417-441 | In whatever run led to a closed room, every deposited asset was handed, at some step, from its vault to its depositor's own canonical account, whose owner then was its sole holder |
| Deliveries.ReturnDelivers | programs/tradetable/src/lib.rs:238-259 | A successful return of an asset in custody hands over the token: the vault was its sole holder before, is empty after, and the depositor's account is its sole holder after |
| Deliveries.ReturnedInRun | programs/tradetable/src/lib.rs:255-256 | In every run, each bit of the returned mask stands for such a hand-over at some step |
| Deliveries.LoggedReturn | programs/tradetable/src/lib.rs:257-258 | In every run, each `AssetReturned` event stands for such a hand-over, of the mint and to the account it names |
| Deliveries.TradedInRun | programs/tradetable/src/lib.rs:526-553 | In every run to a settled room, each leg of the frozen deal was handed, at some step, from its vault to its recipient |
| Progress.FreshRoomCanBeFunded | programs/tradetable/src/lib.rs:62-96 | From every empty room in funding, six deposits of six eligible assets by their owners fund it |
| Progress.FundedRoomCanSettle | programs/tradetable/src/lib.rs:98-225 | From every funded, unexpired room, for every selection and either cycle, nine steps of the participants and the rollup settle exactly that deal, given open recipient accounts |
| Recovery.ReturnIff | programs/tradetable/src/lib.rs:428-441 | Anyone's return of a held asset of a decided room succeeds exactly when the depositor's account can take it |
| Recovery.NoAssetTrapped | DOMAIN-GUIDE.md:24-24 | From every reachable room that is decided or expired, any caller alone ends the room in at most seven instructions, whether or not the rollup ever commits; afterwards the vault of every asset that was in custody is empty and its depositor's account is the sole holder |
| Recovery.EmptyCancelledStays | programs/tradetable/src/lib.rs:417-426 | A room cancelled before its first deposit stays cancelled in every later state of any run |
| Recovery.CancelledClosesIff | programs/tradetable/src/lib.rs:417-426 | With depositors' accounts that can take their assets, some run closes a cancelled room exactly when it holds deposits, and then any caller alone can |
| Allocation.Derangement | programs/tradetable/src/lib.rs:315-320 | Both cycles give every seat a different recipient and give nobody their own asset |
| Layout.CycleRoutes | programs/tradetable/src/lib.rs:315-320 | Forward hands each asset to the next seat and reverse to the one before |
| Allocation.PreimageLayout | programs/tradetable/src/lib.rs:322-332 | Where each of the 79 bytes of the hashed preimage comes from, the 24 bytes of the tag included |
| Allocation.PreimageInjective | programs/tradetable/src/lib.rs:322-332 | Equal preimages are the same room, revision, expiry, slots, cycle and destinations |
| Allocation.BuildersAgree | src/lib/room-state.ts:245-261 | The program's and the client's preimages of a live record agree exactly when its destinations are those of its cycle |
| Allocation.HashesAgree | src/lib/tradetable.ts:145-160 | For a canonical proposal the program's hash, the transaction builder's and the interface's are one |
| RoomState.SlotsOf | src/lib/room-state.ts:214-221 | The filtered list holds exactly the slots whose bit is set |
| ClientLaws.ReturnGuardsAgree | src/lib/room-actions.ts:226-237 | On every core a room can have, the slots offered, the slots the builder accepts, the slots the program's guard accepts and the assets still in custody after the outcome are the same |
| ClientLaws.UniquenessAgrees | src/lib/workspace-state.ts:151-154 | For an empty slot the client's duplicate-mint check refuses exactly what the program's does |
| ClientLaws.DepositSound | src/app/room-client.tsx:89-103 | A preflighted deposit of an offered slot succeeds exactly when neither account is frozen, and its success is the first state to show the predicted mask |
| ClientLaws.ActivateSound | programs/tradetable/src/lib.rs:98-116 | An offered activation succeeds exactly when base's clock is before the expiry, whatever the client's clock says, and is the first state to show an active room |
| ClientLaws.CancelSound | programs/tradetable/src/lib.rs:227-236 | An offered cancellation by a participant always succeeds, an offered cancellation after expiry exactly when base's clock has reached it, and either is the first state to show a cancelled room |
| ClientLaws.ProposeSound | src/app/room-client.tsx:80-87 | An offered proposal succeeds exactly when the rollup shows an active core and a clock before the expiry and the revision is below the last, and the predicted revision, selection and hash are those stored |
| ClientLaws.LockSound | programs/tradetable/src/lib.rs:139-158 | An offered lock succeeds exactly when the rollup shows an active core and a clock before the expiry, whichever such core it shows, and is the first state to show it |
| ClientLaws.RevokeSound | programs/tradetable/src/lib.rs:160-175 | An offered revocation succeeds exactly when the rollup shows an active core and a clock before the expiry, and is the first state to show it |
| ClientLaws.BlindRollup | programs/tradetable/src/lib.rs:387-393 | A rollup that shows no active core, or a clock past the expiry, refuses every negotiation instruction |
| ClientLaws.FinalizeSound | programs/tradetable/src/lib.rs:203-217 | An offered finalization succeeds exactly when the rollup shows an active core and a clock before the expiry, and is the first state to show it |
| ClientLaws.ReturnSound | src/lib/room-actions.ts:213-237 | An offered return is never refused by its builder, succeeds exactly when the depositor's account can take it, and is the first state to show it |
| ClientLaws.SettleBuilds | src/lib/room-actions.ts:144-211 | Of the builder's own checks only the client's clock can refuse a settlement the interface offers, and its legs are the program's canonical ones |
| ClientLaws.PreparationIff | src/lib/room-actions.ts:199-211 | The account creations ahead of a settlement succeed and leave no frozen recipient exactly when, before them, each destination is absent or of its mint, its recipient's and thawed, and the three are distinct |
| ClientLaws.WrongOwner | programs/tradetable/src/lib.rs:376-377 | A settlement sent while base still counts the live account as delegated is refused |
| ClientLaws.LateSettlement | programs/tradetable/src/lib.rs:514-514 | From the expiry on base refuses every settlement transaction |
| ClientLaws.SettleSound | src/lib/room-actions.ts:199-211 | The settlement transaction, account creations included, succeeds exactly when base's clock is before the expiry, the live account has been handed back and, on the ledger before it, every destination is absent or its recipient's and thawed, each its own; and it is the first state to show the settlement |
| ClientLaws.ClientIsFaithful | src/app/room-client.tsx:316-319 | Every write the client permits on a fresh view of any reachable room, by any clock of its own, is built (a settlement: unless that clock has reached the expiry by then), is accepted by the program exactly when none of the outside obstacles named in `ClientLaws.Clear` holds on the ledgers before it, and leads to the first state that meets its expectation |
| ClientLaws.ConfirmationsLast | src/lib/room-actions.ts:270-284 | A settlement or return expectation, once met, is met in every later state |
| ClientLaws.PendingIsHonest | src/lib/room-actions.ts:239-295 | Over any run of a pending write: no blind retry, an unchanged expectation, and belief only after a fresh look that showed exactly it; that the wait ends is `Expectations.WaitEnds` |
| Expectations.LookDecides | src/lib/room-actions.ts:286-290 | A look no older than five seconds that shows the expectation settles the write; any other leaves it untouched before its timeout, and from then on gives it up and asks for a refresh |
| Expectations.WaitEnds | src/lib/room-actions.ts:286-290 | Whatever came before, a look at or after the timeout ends the wait: reconciled exactly if it freshly shows the expectation, timed out with a refresh otherwise |
| Expectations.RefusalAsksIfSigned | src/lib/room-actions.ts:251-295 | Over any run, a refused write has failed and asks for a look at the authority exactly if it was signed before |
| Expectations.ProposalExpected | src/lib/room-actions.ts:262-284 | A proposal expectation is met exactly when the log's proposal of the current revision has those slots, that cycle and that hash |
| Expectations.LockExpected | src/lib/room-actions.ts:262-284 | A lock expectation is met exactly when the seat's last word on the current revision is a lock on that hash, and a revocation's exactly when it is not |
| Expectations.SnapshotExpected | src/lib/room-actions.ts:262-284 | On any snapshot, reachable or not, an expectation about the negotiation compares every field it names |
| Expectations.ReturnExpected | src/lib/room-actions.ts:262-284 | A return expectation is met exactly when the log has the return of that slot's mint to its original account |
| ClientLaws.PermittedWriteReconciles | src/lib/workspace-state.ts:141-144 | A permitted write that is built stays pending on the state it was built from and reconciles on the state it leads to |
| ClientLaws.LockOfferedIff | src/lib/room-state.ts:278-328 | The consent view allows a lock exactly when a lock is the interface's primary action; what both require is `Offers.LockOfferedIff` and `Offers.ConsentMeans` |
| Offers.DepositOfferedIff | src/lib/room-state.ts:299-312 | A deposit is offered exactly for an empty slot of one's own, in funding and before the expiry |
| Offers.ActivateOfferedIff | src/lib/room-state.ts:299-312 | An activation is offered exactly to a participant of a fully funded room before the expiry |
| Offers.ExpiryOfferedIff | src/lib/room-state.ts:299-382 | A cancellation after expiry is offered exactly for an undecided room past it, to anybody with a wallet |
| Offers.ReturnOfferedIff | src/lib/room-state.ts:214-221 | A return is offered exactly for a deposited slot of a decided room that was neither returned nor settled away, to anybody with a wallet |
| Offers.ProposeOfferedIff | src/lib/room-state.ts:314-345 | A proposal is offered exactly to a participant at the table with a funded draft, on an untouched record or on a genuine proposal not already locked by them in these very terms |
| Offers.LockOfferedIff | src/lib/room-state.ts:278-345 | A lock is offered exactly on a genuine proposal, not yet locked by the participant, whose slots and cycle are both those of the participant's own draft; it is then the primary action |
| Offers.DivergentDraftProposes | src/lib/room-state.ts:314-345 | On a genuine proposal a funded draft with other slots or another cycle makes a new proposal the primary action |
| Offers.RevokeOfferedIff | src/lib/room-state.ts:314-345 | A revocation is offered exactly to a participant with a lock on a genuine proposal and a funded draft |
| Offers.FinalizeOfferedIff | src/lib/room-state.ts:347-382 | A finalization is offered exactly to a participant, on a genuine proposal that all three have locked |
| Offers.SettleOfferedIff | src/lib/room-state.ts:347-382 | A settlement is offered exactly on a genuine, fully locked, finalized proposal that base shows as handed back, to anybody with a wallet |
| Offers.ConsentMeans | src/lib/room-state.ts:278-297 | What each field of the consent view says of draft, record and seat |
| Offers.ConnectsWhoCouldAct | src/lib/room-state.ts:299-407 | Whatever write any role would be offered, a visitor without a wallet is asked to connect |
| Offers.CancelOfferedIff | src/lib/room-state.ts:299-312 | A cancellation before activation is offered exactly to the participants of a room in funding, before and after its expiry |
| Offers.WaitShownIff | src/lib/room-state.ts:299-312 | A participant is asked to wait exactly with both own slots deposited and others missing, an observer throughout the funding |
| Offers.InspectShownIff | src/lib/room-state.ts:314-382 | A proposal is shown for inspection exactly where base shows it in negotiation, or the rollup shows it to an observer or to a participant without a funded draft |
| Offers.CommitShownIff | src/lib/room-state.ts:352-382 | A commit is shown for inspection exactly while it is under way, where base shows a finalized record not handed back or not sealed, or to an observer of a sealed deal |
| Offers.RefreshShownIff | src/lib/room-state.ts:366-407 | A refresh is asked for exactly without a core, on a stale view of an unfinished room, on a live record that is missing, foreign or not genuine, and in a settled room that owes nothing |
| Offers.ReceiptShownIff | src/lib/room-state.ts:384-407 | A receipt is shown exactly for a room at its end |
| Offers.EvidenceShown | src/lib/room-state.ts:299-407 | What is shown for inspection names the ledger it was read from, and a receipt both ledgers exactly after a settlement |
| Builders.SettlementBuiltIff | src/lib/room-actions.ts:144-211 | From any two records, however wrong, the builder makes a settlement exactly when the program's own guard would pass on them, the core is at its own address and the three assets are canonical |
| Builders.ReturnBuiltIff | src/lib/room-actions.ts:213-237 | From any record the builder makes a return exactly when the program's checks of room and slot would pass, the flags agree with the masks and the record is the depositor's own |
| Builders.PreflightIff | src/app/room-client.tsx:89-103 | For an empty slot of the signer's the deposit that would be sent goes through if and only if the preflight passes and neither account is frozen |
| Builders.OnlyWritesAreBuilt | src/app/room-client.tsx:108-122 | Transactions and expectations are made for the writes only, and for deposits and returns only with a slot |
| ClientLaws.EvidenceIsTransport | src/lib/workspace-state.ts:129-132 | The evidence named for a permitted write is the ledger that the write is sent to |
| ClientLaws.RoleIsSeat | src/lib/room-state.ts:205-212 | A wallet's role is a seat exactly when the program's roster lookup finds it there |
| ClientLaws.DistrustIff | src/lib/room-state.ts:314-382 | On a fresh view of a room that is open by the client's clock the interface distrusts the rollup's copy exactly when the client takes the account for undelegated, or the copy was touched before the first proposal, or its proposal hashes to zero |
| ClientLaws.EarlyLockStallsInterface | src/lib/room-state.ts:314-315 | One lock on revision zero makes the interface permit a participant no write at all until the expiry by the client's clock, although the program would still take that participant's proposal |
| Refusals.SlowClockActivates | src/app/room-client.tsx:248-250 | In every funded room, after the expiry a client whose clock is behind still permits an activation, and the program refuses it |
| Refusals.FastClockCancels | src/app/room-client.tsx:248-250 | In every funded, unexpired room a client whose clock is past the expiry permits a cancellation, and the program refuses it |
| Refusals.SlowClockSettles | src/app/room-client.tsx:118-118 | Every deal that a funded room can make leads, by a run through hand-back and past the expiry, to a settlement that a client with a slow clock permits and the program refuses |
| Refusals.SettledTooSoon | src/app/room-client.tsx:215-215 | Every deal that a funded room can make leads, by a run that stops between commit and hand-back, to a settlement that the client permits and the program refuses |
| Refusals.LaggingRollupRefuses | programs/tradetable/src/lib.rs:387-393 | After a proposal in any funded room the client permits a lock to every seat, and every rollup that shows no active core or a clock past the expiry refuses it |
| Refusals.FrozenDepositRefused | src/app/room-client.tsx:89-103 | From any room with an asset eligible but for its mint's freeze authority, freezing its source or its vault and then dropping that authority leads to a deposit that the client permits and the program refuses |
| ClientLaws.StoredAccountsDecode | src/lib/room-state.ts:165-199 | Every account a reachable room stores is read back exactly by the client's decoders |
| Codec.CoreCuts | programs/tradetable/src/lib.rs:772-777 | Where each field of the program's core record lies in its 1350 bytes |
| Codec.LiveCuts | programs/tradetable/src/lib.rs:782-788 | Where each field of the program's live record lies in its 420 bytes |
| Codec.DecodeEncodeAsset | src/lib/room-state.ts:149-159 | An asset record decodes to itself from its 169 encoded bytes |
| Codec.DecodeEncodeCore | src/lib/room-state.ts:165-180 | Decoding an encoded core gives the same record when its version is one and is refused otherwise |
| Codec.EncodeDecodeCore | src/lib/room-state.ts:165-180 | Encoding what was decoded gives back the first 1350 bytes of any accepted buffer |
| Codec.DecodeEncodeLive | src/lib/room-state.ts:182-199 | Decoding an encoded live record gives the same record when its version is one and is refused otherwise |
| Codec.EncodeDecodeLive | src/lib/room-state.ts:182-199 | Encoding what was decoded gives back the first 420 bytes of any accepted buffer |
| Codec.AcceptedBuffers | src/lib/room-state.ts:115-147 | Exactly which buffers the two decoders accept |
| Wire.U64RoundTrip | src/lib/room-state.ts:135-137 | Eight little-endian bytes read back as the unsigned integer written |
| Wire.I64RoundTrip | src/lib/room-state.ts:139-141 | Eight two's-complement bytes read back as the signed integer written |
| Layout.IntegersLittleEndian | src/lib/room-state.ts:135-141 | Stored integers are the weighted sums of their bytes, least significant first, negative ones in two's complement |
| Layout.MaskByteSums | programs/tradetable/src/lib.rs:772-777 | A stored mask is the sum of its bits |
| Layout.InSeatOrder | programs/tradetable/src/lib.rs:782-788 | Keys, revisions and hashes lie in the order of the seats |
| Layout.VariantsByPlace | src/lib/room-state.ts:115-147 | Each variant is stored as its place in its declaration |
| Layout.TextDenotesBytes | src/lib/tradetable.ts:236-250 | Read as a base-58 number, a signature's text denotes what its bytes denote in base 256 |
| Base58.AppendByte | src/lib/tradetable.ts:241-248 | The in-place carry loops multiply the digits' value by 256 and add the byte, and leave a canonical notation: every digit below 58 and no zero on top |
| Base58.Encode | src/lib/tradetable.ts:236-250 | The nested loops compute the base-58 text: one '1' for each leading zero byte and the canonical digits of the rest |
| Base58.DecodeEncode | src/lib/tradetable.ts:236-250 | The standard decoder undoes the encoder on every byte string |
| Base58.EncodeDecode | src/lib/tradetable.ts:236-250 | Every text the standard decoder accepts is the encoding of what it decodes to |
| Base58.EncodedInjective | src/lib/tradetable.ts:236-250 | Different byte strings never share a text |
| Watermarks.SourceWatermarks.AcceptSourceSlot | src/lib/tradetable.ts:75-81 | The table of seven watermarks accepts and moves exactly as two independent last-accepted counters, one for each ledger |
| Watermarks.SourceWatermarks.PublishAll | src/lib/tradetable.ts:346-348 | The same for any run of deliveries behind the authority filter |
| Watermarks.NeverBackwards | src/lib/tradetable.ts:75-81 | Over any interleaving of the feeds, published slots never go backwards within a ledger |
| Watermarks.PublishedIff | src/lib/tradetable.ts:83-87 | An update is published exactly when it comes from the ledger that owns the account, through an admissible feed, and is no older than the last |

## Left out

- Agreement.UnanimousExactConsent: assumes that the hash of the revision-zero preimage is not 32 zero bytes, which is all that `settled revision > 0` needs of SHA-256.
- CustodyLaws.HonestDealSettles: assumes the same about that one preimage; `CustodyLaws.GuardedDealSettles` does not need it.
- Deliveries.CompleteRoom: rests on the consent theorem and so on the same assumption; it states that each token was handed over at some step of the run, and not where it is at the end, since recipients may move their tokens afterwards.
- Agreement.UnproposedNeverSettles: assumes the same about that one preimage, as does `Progress.UnproposedRoomFreezes`.
- Recovery.NoAssetTrapped: the accounts of depositors whose assets are still in custody must be absent or still theirs and thawed, and the return accounts distinct; nothing the program does can restore an account its owner gave away.
- ClientLaws.ClientIsFaithful: holds of a fresh view and of the step taken on it; what other people do in between is not part of the expectation, which for deposits is exact equality of the mask.
- ClientLaws.SettleBuilds: the client library also refuses to derive an associated account for a recipient that is not on the curve; keys carry no such property here.
- ClientLaws.ReturnSound: the same holds of a return to a depositor that is not on the curve.
- Refusals.SettledTooSoon: assumes that the hash of the proposed deal is not 32 zero bytes, as do `Refusals.SlowClockSettles` and `Refusals.LaggingRollupRefuses`; the interface takes the zero hash for no proposal.
- Runtime.Chain.Execute: the token program's own instructions, ticks, commits and undelegations are taken as single steps and not written in place, because they are not the repository's code.
- Base58.Encode: the body of the outer loop is a method of its own, `Base58.AppendByte`.
- The account list that `finalize` checks and hands on to the scheduled settlement: settlement checks the same accounts again, and the scheduled settlement may fail at any time, as any call may.
- Anchor's account macros, serialization errors, bumps, rent, compute limits and the inner-call mechanics: library behaviour, reduced to the guards that can fail and one error for a refused inner call.
- SHA-256, program-derived and associated addresses, and signatures: arbitrary functions and a signer argument.
- Token delegates, native tokens, multisignature owners and the close authority of token accounts: a vault's owner never signs a token instruction that would set one.
- Token amounts are unbounded naturals: every mint in a room has a supply of one.
- Networks, subscriptions, polling, fallback endpoints and timeouts: only the slot and authority filters remain.
- The write mutex and the resolution of signed transactions of unknown fate: they depend on scheduling and on separate network reads.
- Texts shown to people (reasons, recoveries, labels, humanized errors), drafts and wallet events: presentation.
- JavaScript numbers and big integers: slots, times and revisions are integers, and the wrap-around of the 64-bit encoder at the last revision is written out.
- The delegation record's validator and status: one flag each in `Watermarks.Delivery`.
- `scripts/ops.ts`, fixtures, evidence pages and the room-creation form: operator tooling and user interface.
