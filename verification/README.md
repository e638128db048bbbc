# Rotating savings circles: pallet and indexer

This project models two parts of DOTCIRCLES and proves what holds after every sequence of calls.

- The pallet (`generic-template/pallets/rosca/src/lib.rs`) keeps savings circles. A circle is pending while invited
  members take slots, active while one member per round is paid by all the others, and completed afterwards. Money
  moves between members and one account per circle that holds security deposits.
- The indexer (`indexer/src/mappings/mappingHandlers.ts`) rebuilds circles and rounds from the pallet's events.

## Layers

- `Storage`, `Rules`, `Journal`: one circle's slice of storage, the assets ledger and the event log. `Rules` gives each
  extrinsic and helper of the pallet as a function on that slice and the ledger; an `Err` is a dispatch that FRAME
  rolls back. `Journal` counts over the log who paid whom, who was covered by a deposit and who defaulted.
- `Schedule`, `Settlement`, `Rota`, `Accounts`, `Circles`, `Deadlines`, `Payments`, `Membership`, `Launch`, `Deposits`,
  `Ledgers`: closed forms of the loops, exact conditions for each call, and the invariant that each call keeps.
- `Runs`, `Chronicle`, `Accounting`, `Agreement`, `Theorems`: the pallet with all its circles as a state machine. A move
  is a call by any account, the passing of time, or a transfer that is none of the pallet's.
- `Statements`, `Balances`, `Payouts`: what the events say about money, what the circles' accounts hold, and what members
  pay and receive.
- `Verdicts`: the outcome of each call in every reachable state, accepted or with which error. `Shuffles`: what the
  shuffle yields.
- `Projection`, `Mirror`, `IndexerTheorems`, `Drift`, `Entities`: the indexer as a fold over one circle's events.
- `Endings`: how rounds and circles end, and which calls fail where they should not.
- `Stores`, `Pallet`: the class `RoscaPallet` with one map per storage item, its loops, and roll-back. Every extrinsic is
  proved to make exactly the corresponding move, so that the theorems about runs hold of it.
- `Indexer`, `Ends`: the class `EventIndexer` with its handlers, and pallet and indexer together.
- `Freeloader`, `Cases`: concrete runs and calls.

## Findings

- Paying oneself. Whether the signer is the claimant is checked before missed rounds are closed (lib.rs:569), but the
  payment goes to the claimant after that (lib.rs:595-601). A member who contributes late can therefore pay themself.
  That payment counts towards the n - 1 that end the round, so one other member is left out of it without paying,
  being covered or defaulting. `Freeloader.SomebodyEscapes` is such a run, `Accounting.SelfPaymentIff` and
  `Endings.EverybodyAccountedIff` say exactly when it happens, and the accounting theorems are stated for both cases.
- Refused debtors. By the same checks (lib.rs:569-570) a member who owes the round running now, and can pay it, is
  refused when they received or contributed in the stored round. `Endings.DebtorAcceptedIff` is the exact condition,
  `Cases.DebtorRefused` a call.
- Position. A creation whose position is below the maximum but not below the number of slots (lib.rs:348, 358-359)
  indexes out of bounds; the model has it fail with `Panic`. `Endings.CreatePanicsIff` is the exact condition,
  `Cases.PositionTwoOfTwo` a call, and `Endings.NothingElsePanics` says that this is the only way to panic.
- Shuffle. The seed is shadowed inside the loop (lib.rs:764), so every draw uses the same byte. With bytes of
  their own for the draws every order could come out (`Shuffles.EveryOrder`); with one byte for all of them some order of
  four participants never does (`Shuffles.OneByteIsNotEnough`).
- Asset of a claim. A deposit may be claimed in the other asset (lib.rs:689, 701) if the circle's account happens to hold
  it, as in the run `Cases.ClaimedInTheOtherAsset`. What then stays behind stays for good (`Balances.LeftBehindForGood`).
- Round number. Closing the last round at its deadline announces one more round before the circle is completed
  (lib.rs:585, 664-665), so pallet and indexer end with round n + 1 and the first recipient again. This is so exactly when
  the circle is completed at or after the final deadline (`Endings.CompletedInTimeIff`, `Endings.HowItEnded`);
  `Cases.RoundThreeOfTwo` is a run.
- Current cutoff and deposits in the indexer. A new round adds its absolute cutoff to the current one
  (mappingHandlers.ts:358), deductions do not lower a deposit (mappingHandlers.ts:180-196), and a claim of a deposit that
  no longer agrees is ignored (mappingHandlers.ts:327). `Drift` says exactly when these fields agree with the pallet;
  `Cases.RoundThreeOfTwo` and `Cases.DepositNotLowered` are runs after which they do not.
- Id counter. It wraps after 2^32 creations, since the release profile does not check overflow, and a creation does not
  look at what its id holds (`Theorems.CreationOnUsedId`). The theorems about runs are for runs of at most 2^32 accepted
  creations, which are exactly those that use no id twice (`Runs.IdsInOrder`); `Cases.ActiveAndPending` goes beyond.
- The repository's README says that a circle starts once its start block has been reached; the code requires the time
  to be before it (lib.rs:510). It says that a manual end is possible when all contributions have been made; the code
  requires the final deadline to have passed (lib.rs:658). The model follows the code.

## Premises

- Transfers are exact and all-or-nothing. The account of a circle differs from that of every other circle, and nobody
  can sign for it.
- Time never goes back. Blocks have a timestamp when the indexer handles them, except that a joining without one is
  modelled.
- The byte that the shuffle draws is any number.

## Model

| member | source | states |
|---|---|---|
| `Theorems.ScheduleIsProphecy` | generic-template/pallets/rosca/src/lib.rs:869-961 | In every reachable state an active circle is in some round r of the schedule published at its start: claimant, next and final deadline are those of round r, fewer than n - 1 contributors are stored unless there are none, the counter is their number, cutoffs lie on the lattice first + k * frequency, the stored order is the start order rotated right r times with the claimant in front, and a clear of limit n - 1 empties the contributors |
| `Theorems.RunAccounting` | generic-template/pallets/rosca/src/lib.rs:581-643 | At the completion of every circle to which no accepted contribution was made by its recipient of the moment, whatever happened in other circles: payments + rounds covered in full by the deposit + default count = n - 1 for every member, and each member was recipient exactly once |
| `Theorems.RunAccountsAddUp` | generic-template/pallets/rosca/src/lib.rs:561-647 | The same for every run without exception: the three counts plus the rounds in which nothing was recorded for the member make n - 1, plus the payments to oneself |
| `Theorems.SelfPaymentsOverRun` | generic-template/pallets/rosca/src/lib.rs:569-601 | A circle's log holds no payment to oneself if and only if no accepted contribution to it was made by the member whom its schedule paid at that time |
| `Theorems.AlwaysSolvent` | generic-template/pallets/rosca/src/lib.rs:475-491 | In every reachable state the circle account covers the sum of all recorded deposits; per member added = returned + taken + held; only members hold a positive deposit |
| `Balances.SurplusOverRun` | generic-template/pallets/rosca/src/lib.rs:700-735 | Over any run, the creation of the circle included: what the circle account holds of either asset beyond the deposits recorded in it changes by exactly the gifts from outside and the claims made in the other asset |
| `Balances.ExactlySolventIff` | generic-template/pallets/rosca/src/lib.rs:475-491 | In every reachable state the circle account holds exactly the recorded deposits if and only if it held nothing at first, got no gift of that asset and no deposit was claimed in the other one |
| `Balances.LeftBehindForGood` | generic-template/pallets/rosca/src/lib.rs:689-707 | After a claim in the other asset the deposit stays in the circle account whatever follows, and its owner can claim nothing again |
| `Balances.OtherAsset` | generic-template/pallets/rosca/src/lib.rs:700-707 | The asset a circle does not use moves on its account only when a deposit is claimed in it |
| `Statements.CallBooked` | generic-template/pallets/rosca/src/lib.rs:407-864 | Every accepted call on any stored state moves one asset only, and in it every account gains exactly what the new events say |
| `Statements.LedgerExplained` | generic-template/pallets/rosca/src/lib.rs:407-864 | Over every run each balance is the opening balance plus what the events of the circles and the transfers from outside say |
| `Payouts.EveryoneGetsTheirShare` | generic-template/pallets/rosca/src/lib.rs:561-864 | When a circle is completed without a default and nobody paid into their own round, every member has paid in and received (n - 1) times the amount, and is short of nothing but the deposit still held |
| `Payouts.RoundPays` | generic-template/pallets/rosca/src/lib.rs:601-862 | For every round that is over in a reachable state: the recipient received what the members paid in, which is the amount for each who contributed or was covered, and less for each deposit that fell short |
| `Payouts.NetOfMember` | generic-template/pallets/rosca/src/lib.rs:561-742 | In every reachable state what a circle's events moved to and from an account holder is what they received minus what they paid in, minus the deposit they hold |
| `Payouts.RunFair` | generic-template/pallets/rosca/src/lib.rs:601-862 | Over any run every contribution and full deduction is of the agreed amount, every other deduction is of less and comes with a default |
| `Theorems.SupplyConserved` | generic-template/pallets/rosca/src/lib.rs:808-849 | No run changes the total supply of any asset |
| `Theorems.OnePhase` | generic-template/pallets/rosca/src/lib.rs:619-682 | With k creations accepted, each id below k is in exactly one of pending, active and completed, and every other id is unused |
| `Theorems.RunOnward` | generic-template/pallets/rosca/src/lib.rs:544-545 | Over any run phases only move forward, the terms of a circle never change and a published schedule is never replaced |
| `Theorems.CallsAreIsolated` | generic-template/pallets/rosca/src/lib.rs:407-742 | A call on one id leaves every other circle's storage and account as they were and conserves every asset |
| `Theorems.CreationOnUsedId` | generic-template/pallets/rosca/src/lib.rs:386 | A created circle is in exactly one phase if and only if its id held no started circle |
| `Theorems.PendingIsBijection` | generic-template/pallets/rosca/src/lib.rs:407-473 | In every reachable pending circle slots and members are inverse to each other within the invited, the count is the number of filled slots, and joining without a position succeeds exactly for the invited who have not joined, in time |
| `Theorems.StartWorksIff` | generic-template/pallets/rosca/src/lib.rs:502-557 | A reachable pending circle starts exactly when the membership, time, threshold and clock conditions of MayStart hold; then every member is recipient exactly once, in slot order unless shuffled, when shuffled as drawn one by one from the slots in reverse, the first cutoff is one frequency after the start and the final deadline n frequencies |
| `Theorems.ContributeWorksIff` | generic-template/pallets/rosca/src/lib.rs:561-647 | In every reachable active circle a contribution is accepted exactly when the signer may contribute and, unless all deadlines have passed, has the funds after the missed rounds are settled |
| `Theorems.ManualEndWorks` | generic-template/pallets/rosca/src/lib.rs:650-684 | In every reachable active state past the final deadline the manual end succeeds, and leads to the same storage and balances as the catch-up of a contribution |
| `Theorems.ClaimedExactlyOnce` | generic-template/pallets/rosca/src/lib.rs:689-715 | In a completed circle past its final deadline the first claim pays out the whole deposit, and after any further run no claim by the same member succeeds |
| `Runs.RunSound` | generic-template/pallets/rosca/src/lib.rs:333-742 | The invariant Well (pending, running in some round, or finished) holds of every circle after every run that uses no id twice |
| `Runs.IdsInOrder` | generic-template/pallets/rosca/src/lib.rs:353-386 | From an empty pallet ids are used in order, and none is used twice if and only if at most 2^32 creations are accepted |
| `Runs.CounterIs` | generic-template/pallets/rosca/src/lib.rs:353-386 | In every run the counter is the number of accepted creations modulo 2^32 |
| `Runs.DoSound` | generic-template/pallets/rosca/src/lib.rs:407-742 | Every call on a circle, accepted or rolled back, keeps the invariant of all circles |
| `Runs.CreateSound` | generic-template/pallets/rosca/src/lib.rs:333-404 | A creation under any unused id, the last one included, keeps the invariant of all circles |
| `Runs.NothingOnEmpty` | generic-template/pallets/rosca/src/lib.rs:407-742 | No call on an id that holds nothing is accepted |
| `Endings.HowItEnded` | indexer/src/mappings/mappingHandlers.ts:346-362 | In every reachable completed circle: the stored next deadline is not past the final one if and only if pallet and indexer stay at round n with the last recipient; otherwise they show round n + 1 with the first recipient |
| `Endings.CompletedInTimeIff` | generic-template/pallets/rosca/src/lib.rs:581-682 | The move that completes a circle leaves it at round n if and only if it comes before the final deadline |
| `Endings.EverybodyAccountedIff` | generic-template/pallets/rosca/src/lib.rs:561-647 | For every round that is over in a reachable state: everybody else paid, was covered or defaulted exactly once if and only if the recipient's own contribution was not one of the n - 1 that ended it; otherwise exactly one member is left out |
| `Endings.DebtorAcceptedIff` | generic-template/pallets/rosca/src/lib.rs:569-597 | A member who owes the round running now and can pay it is accepted if and only if the stored round is that one, or the member neither received nor contributed in the stored one |
| `Endings.CreatePanicsIff` | generic-template/pallets/rosca/src/lib.rs:335-359 | A creation panics exactly when its checks pass and the position lies between the number of slots and the maximum number of participants |
| `Endings.NothingElsePanics` | generic-template/pallets/rosca/src/lib.rs:407-742 | No other call, on a reachable circle or an unused id, ever panics |
| `Cases.RoundThreeOfTwo` | generic-template/pallets/rosca/src/lib.rs:661-683 | A concrete run of a circle with two rounds after which the indexer shows round three, its first recipient and a cutoff beyond the pallet's |
| `Cases.PositionTwoOfTwo` | generic-template/pallets/rosca/src/lib.rs:348-359 | A concrete creation that panics |
| `Cases.DebtorRefused` | generic-template/pallets/rosca/src/lib.rs:569-570 | A concrete call by a member who owes the running round, can pay it and is refused |
| `Cases.ActiveAndPending` | generic-template/pallets/rosca/src/lib.rs:386 | There is a run after which a circle is active and pending at once |
| `Cases.ClaimedInTheOtherAsset` | generic-template/pallets/rosca/src/lib.rs:689-707 | A concrete run in which a deposit is claimed in the other asset and stays in the account |
| `Cases.DepositNotLowered` | indexer/src/mappings/mappingHandlers.ts:180-196 | A concrete run after which the indexer shows more than the deposit that is held |
| `Drift.ShownDepositIff` | indexer/src/mappings/mappingHandlers.ts:270-344 | In every reachable state the indexer shows at least the deposit held, and exactly it if and only if nothing was ever taken from that deposit |
| `Drift.ShownTotalIff` | indexer/src/mappings/mappingHandlers.ts:270-344 | The indexer's total of a circle is the sum of the recorded deposits if and only if nothing was ever taken from any of them |
| `Drift.ShownCutoffIff` | indexer/src/mappings/mappingHandlers.ts:346-362 | In every reachable state the indexer's current cutoff is the sum of the cutoffs of all rounds announced so far, none before the start; it is the pallet's next deadline if and only if that is one round, and otherwise lies beyond it |
| `Freeloader.SomebodyEscapes` | generic-template/pallets/rosca/src/lib.rs:569-601 | A concrete run of five moves after which the circle is completed and a member has neither paid, been covered nor defaulted in one round |
| `Verdicts.CreateVerdict` | generic-template/pallets/rosca/src/lib.rs:333-404 | A creation is accepted if and only if the list of invited is within its bound, the bound below the maximum number of participants, amount and frequency positive, the creator not invited, the threshold at most and the position below the number of slots, and the start in the future; each error, and the panic, has its exact condition. The number of slots is the number of different invited accounts plus one |
| `Verdicts.CreateWrites` | generic-template/pallets/rosca/src/lib.rs:333-404 | What an accepted creation leaves under a fresh id: the terms as given, one slot per account with the creator alone in the chosen one, the creator and the guests invited, and an event that lists the creator first and the guests sorted, each once |
| `Verdicts.JoinVerdict` | generic-template/pallets/rosca/src/lib.rs:407-451 | In every reachable state a join is accepted if and only if the circle is pending, the signer invited and not yet in, the start deadline ahead and the named slot, if any, exists and is free; the newcomer then sits in the named slot, or else in the first free one, and nothing else changes; each error has its exact condition |
| `Verdicts.LeaveVerdict` | generic-template/pallets/rosca/src/lib.rs:454-499 | In every reachable state exactly the members of a pending circle can leave; each error has its exact condition |
| `Verdicts.StartVerdict` | generic-template/pallets/rosca/src/lib.rs:502-557 | In every reachable state a start is accepted if and only if the circle is pending, the signer a member, the deadline ahead, the threshold met and the clock large enough for n + 1 rounds; each error has its exact condition |
| `Verdicts.ContributeVerdict` | generic-template/pallets/rosca/src/lib.rs:561-647 | In every reachable state: the exact condition of each error of a contribution, in terms of the published schedule, the payments in the log and the balance left after the missed rounds; otherwise it is accepted |
| `Verdicts.ManualEndVerdict` | generic-template/pallets/rosca/src/lib.rs:650-684 | In every reachable state a manual end is accepted exactly when the circle is active and its last cutoff has passed; each error has its exact condition |
| `Verdicts.ClaimVerdict` | generic-template/pallets/rosca/src/lib.rs:689-715 | In every reachable state: the exact condition of an accepted claim and of each error |
| `Verdicts.AddVerdict` | generic-template/pallets/rosca/src/lib.rs:718-742 | In every reachable state: the exact condition of an accepted addition to a deposit and of each error |
| `Endings.CompletionStores` | generic-template/pallets/rosca/src/lib.rs:603-682 | The move that completes a circle before the final deadline leaves in storage the n - 1 contributors of the last round, which are those the log shows paying into it; a later one leaves none |
| `Entities.ContributePlays` | generic-template/pallets/rosca/src/lib.rs:561-647 | A contribution to any stored circle, whatever rounds it closes, leaves members, guests, their count, slots and final deadline as they were and only appends to the log, neither a creation nor a start |
| `Entities.ManualEndPlays` | generic-template/pallets/rosca/src/lib.rs:650-684 | The same for a manual end |
| `Shuffles.ShuffleDraws` | generic-template/pallets/rosca/src/lib.rs:751-781 | For every source of bytes the shuffle draws without replacement: place j holds the participant whose index is the (byte modulo n - j)-th of the indices not yet drawn, in increasing order |
| `Shuffles.DrawnOnce` | generic-template/pallets/rosca/src/lib.rs:757-773 | There is only one result of such a drawing |
| `Shuffles.EveryOrder` | generic-template/pallets/rosca/src/lib.rs:751-781 | Every permutation of the participants is the shuffle for some sequence of bytes |
| `Shuffles.OneByteIsNotEnough` | generic-template/pallets/rosca/src/lib.rs:757-773 | With the same byte for every draw it is not: of four participants, the order that swaps the last two comes from no byte |
| `Entities.EntityFields` | indexer/src/mappings/mappingHandlers.ts:54-142 | In every reachable state the circle entity shows the agreed terms, the signer of the creation as creator and first of the eligible, who are exactly the invited, once each, and a starter if and only if the circle has started: the signer of the accepted start |
| `Entities.ActiveNewestFirst` | indexer/src/mappings/mappingHandlers.ts:198-256 | For every orderly log the active participants are listed from the newest member to the oldest |
| `Entities.ListsChronological` | indexer/src/mappings/mappingHandlers.ts:144-196 | For every orderly log contributors and defaulters of a round are listed in the order in which they first paid or defaulted |
| `Ends.ProjectionFollows` | indexer/src/mappings/mappingHandlers.ts:54-362 | In every reachable state the entities of a circle agree with storage in everything that Ends.Follow states |
| `IndexerTheorems.IndexerAgrees` | indexer/src/mappings/mappingHandlers.ts:54-362 | After every run the folded entities agree with storage: active participants without repetition are the members, completion and joined eligibilities agree, the round number and recipient are those of the scheduled round that the stored deadline belongs to (or n + 1 and the first, past the final deadline), and every round lists exactly the accounts that paid or were docked and those that defaulted |
| `IndexerTheorems.ClosedRoundsAgree` | indexer/src/mappings/mappingHandlers.ts:144-196 | For every round that is over, contributors and defaulters together are the expected contributors if and only if the recipient did not pay into it |
| `IndexerTheorems.DefaultersCounted` | indexer/src/mappings/mappingHandlers.ts:144-160 | The number of round entities that list an account as defaulter is its default count in the pallet |
| `IndexerTheorems.ClosedListsIff` | indexer/src/mappings/mappingHandlers.ts:103-196 | The same equivalence for one closed round of any log |
| `Projection.RoundsProjected` | indexer/src/mappings/mappingHandlers.ts:103-196 | For every orderly log the round entities are the published rounds with exactly the logged contributors and defaulters, once each |
| `Projection.FindsTheRound` | indexer/src/mappings/mappingHandlers.ts:148-151 | A lookup by recipient always finds the one right round, because recipients are distinct |
| `Agreement.RunMirror` | indexer/src/mappings/mappingHandlers.ts:54-362 | Every run keeps the circle entities in agreement with storage |
| `Agreement.StepPaid` | generic-template/pallets/rosca/src/lib.rs:561-647 | A move keeps a circle's log free of payments to oneself if and only if it is not an accepted contribution to it by the scheduled recipient |
| `Agreement.RunPaid` | generic-template/pallets/rosca/src/lib.rs:561-647 | The same equivalence over a whole run |
| `Accounting.SelfPaymentIff` | generic-template/pallets/rosca/src/lib.rs:569-601 | An accepted contribution adds a payment to oneself exactly when the signer is the recipient of the first round whose deadline is still ahead |
| `Accounting.AccountsAddUp` | generic-template/pallets/rosca/src/lib.rs:561-647 | For a finished circle, per member: payments, covered rounds, defaults and rounds without a mark make n - 1, plus payments to oneself |
| `Accounting.FullAccounting` | generic-template/pallets/rosca/src/lib.rs:581-643 | Without payments to oneself they make exactly n - 1, and the default count stays below n |
| `Accounting.NobodyEscapesIff` | generic-template/pallets/rosca/src/lib.rs:614-636 | In every log whose round is closed everyone else has exactly one mark if and only if the recipient's own contribution was not among the n - 1 that ended it |
| `Chronicle.TotalsAreSums` | generic-template/pallets/rosca/src/lib.rs:606-611 | In an orderly log the totals of an account are the sums over the published rounds, whose recipients are distinct |
| `Settlement.SettleClosedForm` | generic-template/pallets/rosca/src/lib.rs:799-862 | With a solvent account and no participant listed twice the defaulter loop cannot fail: each late participant loses min(deposit, amount) and is counted as a defaulter exactly when the deposit falls short, the claimant receives the sum of those minima from the circle account, and nothing else changes |
| `Settlement.SettleOneLate` | generic-template/pallets/rosca/src/lib.rs:804-861 | One turn of the loop for a late participant |
| `Circles.ProcessRunning` | generic-template/pallets/rosca/src/lib.rs:790-864 | In a running circle the loop succeeds and deals with exactly the members that are neither claimant nor contributors |
| `Circles.CloseRoundRuns` | generic-template/pallets/rosca/src/lib.rs:790-905 | Closing a round at its deadline never fails and leads to the next scheduled round |
| `Circles.CompleteFinishes` | generic-template/pallets/rosca/src/lib.rs:908-923 | Completing after the last round leaves a circle whose books are closed, with order, claimant and deadline of round n or n + 1 |
| `Accounts.CloseByDeadline` | generic-template/pallets/rosca/src/lib.rs:799-862 | A round closed at its deadline accounts for every other member exactly once |
| `Accounts.CloseByCount` | generic-template/pallets/rosca/src/lib.rs:614-616 | A round ended by n - 1 contributions leaves nobody out, or exactly one member when the recipient is among the contributors |
| `Rota.OrderIsRotation` | generic-template/pallets/rosca/src/lib.rs:525-533 | The order in round r is the start order rotated right r times |
| `Rota.OrderLists` | generic-template/pallets/rosca/src/lib.rs:884-891 | The order lists every member exactly once in every round |
| `Rota.ClaimantIsScheduled` | generic-template/pallets/rosca/src/lib.rs:884-885 | The claimant of round r is the recipient announced for it |
| `Rota.NextDue` | generic-template/pallets/rosca/src/lib.rs:875-877 | No deadline that can still be reached overflows, and only the step after the last round passes the final deadline |
| `Rota.ClearIsEnough` | generic-template/pallets/rosca/src/lib.rs:894-896 | Clearing at most n - 1 contributors empties the set |
| `Rota.AdvanceOnTrack` | generic-template/pallets/rosca/src/lib.rs:869-905 | Before completion advancing never fails and leads exactly to the next scheduled round |
| `Rota.FinishOnTrack` | generic-template/pallets/rosca/src/lib.rs:614-643 | The inline end of a round writes the next scheduled round, or completes the circle after the last |
| `Deadlines.CatchUpClosedForm` | generic-template/pallets/rosca/src/lib.rs:581-597 | The catch-up loop never fails, closes exactly the rounds whose deadline has passed and completes the circle exactly when that is all of them |
| `Deadlines.EndLoopClosedForm` | generic-template/pallets/rosca/src/lib.rs:661-669 | The loop of the manual end takes exactly n - r + 1 turns and none of them fails |
| `Deadlines.ManualEndSucceeds` | generic-template/pallets/rosca/src/lib.rs:650-684 | Past the final deadline the manual end of a running circle always succeeds and its final check never fires |
| `Deadlines.LazyIsEager` | generic-template/pallets/rosca/src/lib.rs:581-597 | Catching up at t and then at a later time is catching up once at the later time, for every stored state |
| `Deadlines.EndsAgree` | generic-template/pallets/rosca/src/lib.rs:661-683 | Past the final deadline catch-up and manual end yield the same circle and ledger |
| `Payments.ContributeRuns` | generic-template/pallets/rosca/src/lib.rs:561-647 | Exact condition for an accepted contribution to a running circle, which stays within its schedule or finishes |
| `Payments.PayRuns` | generic-template/pallets/rosca/src/lib.rs:601-643 | The payment step fails only for lack of funds |
| `Payments.NothingLeftIff` | generic-template/pallets/rosca/src/lib.rs:614-616 | When n - 1 contributions are in, the defaulter loop changes nothing if and only if the claimant is not a contributor |
| `Payments.InlineIsDeadline` | generic-template/pallets/rosca/src/lib.rs:614-643 | When everyone else has paid, the inline end of a round equals closing it at its deadline on all storage, and in the last round on phase, deposits, defaults and ledger |
| `Membership.CreatePending` | generic-template/pallets/rosca/src/lib.rs:333-404 | A created circle satisfies the pending invariant: the creator alone, in the chosen slot, with one slot per invited account |
| `Membership.SortDedupIncreasing` | generic-template/pallets/rosca/src/lib.rs:339-341 | Sorting and deduplicating the invitations leaves a strictly increasing list |
| `Membership.FreeSlot` | generic-template/pallets/rosca/src/lib.rs:429 | There is a free slot for everyone who is invited and has not joined |
| `Membership.JoinAnywhere` | generic-template/pallets/rosca/src/lib.rs:407-451 | Joining without a position succeeds exactly for the invited who have not joined, in time |
| `Membership.JoinPending` | generic-template/pallets/rosca/src/lib.rs:407-451 | An accepted join keeps the pending invariant |
| `Membership.LeaveIs` | generic-template/pallets/rosca/src/lib.rs:454-499 | Exactly the members of a pending circle can leave, and get their whole deposit back |
| `Membership.LeavePending` | generic-template/pallets/rosca/src/lib.rs:454-499 | Leaving keeps the pending invariant |
| `Membership.LeaveUndoesJoin` | generic-template/pallets/rosca/src/lib.rs:407-499 | Leaving right after joining restores everything but the event log |
| `Membership.SeatedFilled` | generic-template/pallets/rosca/src/lib.rs:515-519 | The filled slots list every member exactly once |
| `Schedule.FilledReverse` | generic-template/pallets/rosca/src/lib.rs:515-519 | Reversing the slots before compacting them reverses the compacted list |
| `Schedule.DrawPermutes` | generic-template/pallets/rosca/src/lib.rs:757-773 | For every source of bytes the index-removal loop yields a permutation of the indices |
| `Schedule.ShufflePermutes` | generic-template/pallets/rosca/src/lib.rs:751-781 | For every source of bytes the shuffled order has the same multiset as the input |
| `Schedule.WithoutAt` | generic-template/pallets/rosca/src/lib.rs:937-942 | Leaving the recipient out of the order keeps the order of the others: these are the expected contributors |
| `Schedule.RoundsClosedForm` | generic-template/pallets/rosca/src/lib.rs:926-961 | The round-building loop in closed form: recipient, cutoff, number and expected contributors of every round, and exactly when it overflows |
| `Schedule.AddTimesClosedForm` | generic-template/pallets/rosca/src/lib.rs:535-539 | The final deadline in closed form, and exactly when it overflows |
| `Schedule.Lattice` | generic-template/pallets/rosca/src/lib.rs:934-957 | Cutoffs are a frequency apart and increase strictly |
| `Launch.GeneratedSchedule` | generic-template/pallets/rosca/src/lib.rs:926-961 | Generated rounds pay every listed member exactly once, expect all the others, and leave room for one more step on the clock |
| `Launch.StartIs` | generic-template/pallets/rosca/src/lib.rs:502-557 | Exact condition for a start, and what it writes |
| `Launch.StartRuns` | generic-template/pallets/rosca/src/lib.rs:502-557 | A started circle runs in round one of the schedule it publishes |
| `Launch.PayoutOrder` | generic-template/pallets/rosca/src/lib.rs:515-541 | Unshuffled, round k pays the k-th filled slot; shuffled, the recipients are a permutation of the filled slots |
| `Deposits.AddIs` | generic-template/pallets/rosca/src/lib.rs:718-742 | Exact condition for adding to a deposit, and exactly what moves |
| `Deposits.ClaimIs` | generic-template/pallets/rosca/src/lib.rs:689-715 | Exact condition for a claim, and exactly what moves |
| `Deposits.ClaimSucceeds` | generic-template/pallets/rosca/src/lib.rs:689-715 | Every positive deposit of a finished circle can be claimed in its own asset |
| `Deposits.ClaimKeeps` | generic-template/pallets/rosca/src/lib.rs:700-707 | A claim keeps the account solvent, and in the other asset leaves the claimed amount behind as surplus |
| `Ledgers.CloseRoundLedger` | generic-template/pallets/rosca/src/lib.rs:790-905 | Closing a round takes out of the account exactly what it takes off the records |
| `Ledgers.ContributeLedger` | generic-template/pallets/rosca/src/lib.rs:561-647 | A contribution conserves supply, touches no other account of a circle and keeps the surplus |
| `Ledgers.ManualEndLedger` | generic-template/pallets/rosca/src/lib.rs:650-684 | The same for the manual end |
| `Storage.TransferEffect` | generic-template/pallets/rosca/src/lib.rs:600-601 | A transfer succeeds exactly with sufficient funds and moves exactly the amount |
| `Storage.TransferKeepsSupply` | generic-template/pallets/rosca/src/lib.rs:600-601 | A transfer conserves the supply of every asset |
| `Storage.ClearPrefix` | generic-template/pallets/rosca/src/lib.rs:894-895 | A bounded clear removes min(limit, size) entries |
| `Pallet.RoscaPallet.constructor` | generic-template/pallets/rosca/src/lib.rs:84-172 | The empty pallet is a start state of the model |
| `Pallet.RoscaPallet.Create` | generic-template/pallets/rosca/src/lib.rs:333-404 | create_rosca with roll-back makes exactly the model's move on the stored maps, with the same result |
| `Pallet.RoscaPallet.Join` | generic-template/pallets/rosca/src/lib.rs:407-451 | join_rosca with roll-back makes exactly the model's move, with the same result |
| `Pallet.RoscaPallet.Leave` | generic-template/pallets/rosca/src/lib.rs:454-499 | leave_rosca with roll-back makes exactly the model's move, with the same result |
| `Pallet.RoscaPallet.Start` | generic-template/pallets/rosca/src/lib.rs:502-557 | start_rosca with roll-back makes exactly the model's move, with the same result |
| `Pallet.RoscaPallet.Contribute` | generic-template/pallets/rosca/src/lib.rs:561-647 | contribute_to_rosca with roll-back makes exactly the model's move, with the same result |
| `Pallet.RoscaPallet.ManuallyEnd` | generic-template/pallets/rosca/src/lib.rs:650-684 | manually_end_rosca with roll-back makes exactly the model's move, with the same result |
| `Pallet.RoscaPallet.Claim` | generic-template/pallets/rosca/src/lib.rs:689-715 | claim_security_deposit with roll-back makes exactly the model's move, with the same result |
| `Pallet.RoscaPallet.Add` | generic-template/pallets/rosca/src/lib.rs:718-742 | add_to_security_deposit with roll-back makes exactly the model's move, with the same result |
| `Pallet.RoscaPallet.CreateBody` | generic-template/pallets/rosca/src/lib.rs:333-404 | The stored circle becomes the one of CreateRosca, with the same error where it fails |
| `Pallet.RoscaPallet.InviteAll` | generic-template/pallets/rosca/src/lib.rs:361-368 | The loop invites the creator and every guest, and the bounded list never drops one |
| `Pallet.RoscaPallet.JoinBody` | generic-template/pallets/rosca/src/lib.rs:407-451 | The stored circle becomes the one of JoinRosca |
| `Pallet.RoscaPallet.ChooseSlot` | generic-template/pallets/rosca/src/lib.rs:422-435 | The named slot when it exists and is free, and otherwise the error that says which is missing; without a name the lowest free slot, and an error exactly when there is none |
| `Pallet.RoscaPallet.LeaveBody` | generic-template/pallets/rosca/src/lib.rs:454-499 | The stored circle and ledger become those of LeaveRosca |
| `Pallet.RoscaPallet.StartBody` | generic-template/pallets/rosca/src/lib.rs:502-557 | The stored circle becomes the one of StartRosca |
| `Pallet.RoscaPallet.ShuffleParticipants` | generic-template/pallets/rosca/src/lib.rs:751-781 | The two loops draw the participants one by one without replacement, at the byte modulo the number left |
| `Pallet.RoscaPallet.DrawIndices` | generic-template/pallets/rosca/src/lib.rs:757-773 | The removal loop computes Draw over 0..n |
| `Pallet.RoscaPallet.GenerateRounds` | generic-template/pallets/rosca/src/lib.rs:926-961 | The loop computes GenerateRounds, with the same error |
| `Pallet.RoscaPallet.LastDeadline` | generic-template/pallets/rosca/src/lib.rs:536-539 | The loop computes the final deadline, or overflows like it |
| `Pallet.RoscaPallet.ContributeBody` | generic-template/pallets/rosca/src/lib.rs:561-647 | The stored circle and ledger become those of ContributeToRosca |
| `Pallet.RoscaPallet.CatchUpLoop` | generic-template/pallets/rosca/src/lib.rs:581-597 | The while loop computes CatchUp |
| `Pallet.RoscaPallet.RecordContribution` | generic-template/pallets/rosca/src/lib.rs:601-643 | The payment step computes Pay |
| `Pallet.RoscaPallet.EndRound` | generic-template/pallets/rosca/src/lib.rs:614-643 | The inline end of a round computes FinishRound |
| `Pallet.RoscaPallet.ManuallyEndBody` | generic-template/pallets/rosca/src/lib.rs:650-684 | The loop and the checks after it compute ManuallyEnd |
| `Pallet.RoscaPallet.ProcessDefaulters` | generic-template/pallets/rosca/src/lib.rs:790-864 | The for loop computes Settle over the stored order |
| `Pallet.RoscaPallet.SettleParticipant` | generic-template/pallets/rosca/src/lib.rs:800-861 | One turn of that loop |
| `Pallet.RoscaPallet.AdvanceRound` | generic-template/pallets/rosca/src/lib.rs:869-905 | The writes of advance_rosca_round compute AdvanceRound |
| `Pallet.RoscaPallet.CheckAndComplete` | generic-template/pallets/rosca/src/lib.rs:908-923 | check_and_complete_rosca computes CheckAndComplete |
| `Pallet.RoscaPallet.ClaimBody` | generic-template/pallets/rosca/src/lib.rs:689-715 | The stored circle and ledger become those of ClaimDeposit |
| `Pallet.RoscaPallet.AddBody` | generic-template/pallets/rosca/src/lib.rs:718-742 | The stored circle and ledger become those of AddDeposit |
| `Pallet.StoreIsSolvent` | generic-template/pallets/rosca/src/lib.rs:84-172 | Whatever calls a pallet has served, each stored circle is in one phase and its account covers the stored deposits |
| `Indexer.EventIndexer.HandleRoscaCreated` | indexer/src/mappings/mappingHandlers.ts:54-101 | Creates the circle entity with the announced terms, creator and eligible, one eligibility per eligible participant with the block's time as joining time for the creator alone, and the missing accounts; other circles are untouched |
| `Indexer.EventIndexer.HandleRoscaStarted` | indexer/src/mappings/mappingHandlers.ts:103-142 | Sets starter, first recipient, round and cutoff, and creates one fresh round entity per published round |
| `Indexer.EventIndexer.HandleParticipantDefaulted` | indexer/src/mappings/mappingHandlers.ts:144-160 | Adds the defaulter once to some round of that recipient, to the one found by the projection when recipients are distinct |
| `Indexer.EventIndexer.HandleContributionMade` | indexer/src/mappings/mappingHandlers.ts:162-178 | Adds the contributor once to some round of that recipient, to the one found by the projection when recipients are distinct |
| `Indexer.EventIndexer.HandleDepositDeducted` | indexer/src/mappings/mappingHandlers.ts:180-196 | The same for a deduction, of whatever amount |
| `Indexer.EventIndexer.HandleJoinedRosca` | indexer/src/mappings/mappingHandlers.ts:198-227 | Sets the joining time to that of the block and puts the member in front; nothing happens without an entity or a block time |
| `Indexer.EventIndexer.HandleLeftRosca` | indexer/src/mappings/mappingHandlers.ts:229-256 | Clears the joining time and removes the member |
| `Indexer.EventIndexer.HandleRoscaComplete` | indexer/src/mappings/mappingHandlers.ts:258-268 | Marks the circle completed |
| `Indexer.EventIndexer.HandleNewRoundStarted` | indexer/src/mappings/mappingHandlers.ts:346-362 | Sets the recipient, counts the round and adds to the cutoff |
| `Indexer.EventIndexer.HandleSecurityDepositContribution` | indexer/src/mappings/mappingHandlers.ts:270-313 | Adds to the deposit and to the circle's total; nothing happens for an unknown account |
| `Indexer.EventIndexer.HandleSecurityDepositClaimed` | indexer/src/mappings/mappingHandlers.ts:315-344 | Removes the deposit and lowers the total if the amounts agree; otherwise nothing happens |
| `Indexer.EventIndexer.FindByRecipient` | indexer/src/mappings/mappingHandlers.ts:148-151 | A query with limit 1 returns some match, and none only when there is none |
| `Indexer.EventIndexer.Process` | indexer/src/mappings/mappingHandlers.ts:54-362 | Handling a sequence of events one by one leaves, for every circle, the projection of its part of the sequence |
| `Ends.Follow` | indexer/src/mappings/mappingHandlers.ts:54-362 | An indexer that handles all events a pallet has emitted agrees with that pallet for every circle: terms, creator, eligible, starter, members from the newest to the oldest, completion, round, recipient, sum of cutoffs, and round entities whose lists are in the order of the events |
| `Ends.EventsInOrder` | generic-template/pallets/rosca/src/lib.rs:84-172 | The events of a pallet are in order circle by circle: creation first, one start, payments to scheduled recipients only, deposits of eligible accounts only, and claims of all that is held |

## Left out

- Minimum balances, frozen accounts and the 128-bit bound of pallet_assets: the ledger holds exact natural numbers.
- Signatures, weights and SCALE encoding; of argument bounds only that of the invitation list is modelled.
- blake2 and block hashes: the shuffle's byte is an argument, and nothing is said about fairness.
- Derivation of a circle's account from its id: a constructor of the account type stands for it.
- Which entries a bounded clear removes: the order of keys stands for that of hashed keys, and no proof uses it.
- Storage maps with two keys are maps of maps, and the storage items are one record, so that roll-back is one assignment.
- Circle names.
- A new round announced before any start would make the handler fail on an undefined cutoff (mappingHandlers.ts:358); the
  model leaves the cutoff undefined. `Ends.EventsInOrder` shows that it never happens.
- Joining times over whole runs: the handlers state the time they store, the agreement with the pallet only whether there
  is one.
- Database, asynchronous saves, logging and GraphQL: entities are maps, kept per circle.
- The event and handler type of a manual end: the pallet never emits that event.
- Frontend, node, runtime configuration and cross-chain messaging.
