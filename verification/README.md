# Verified model of the auto-review runtime

A Dafny model of the parts of the repository that decide money, identity and review outcomes, with
proofs about all inputs and all runs. One module per component:

- `ValidationProtocol`, `CallRows`, `ValidationSystem`, `ProtocolSafety`, `BreakerHistory`: the paid
  validation call as a protocol. Tables are maps, a transaction is one atomic function of the rows it
  reads, and everything it reads from elsewhere (clock, runtime key, rollout, permissions, extraction
  spending, the fresh lease token) is an unrestricted input. `ValidationSystem` interleaves the
  transactions of any number of processes with their volatile grants and permits, operator steps and
  crashes; the theorems are about every run of it.
- `CallLaws`, `CallHistory`: the exact outcome of every transaction on the fields it reads, and what a
  run must have done before a send, while a lease runs, and after a settlement.
- `UndisturbedCall`: the liveness side: what an undisturbed call achieves.
- `OperatorActions`: recovery sweeps, workflow cancellation and provider-breaker control as methods.
- `ValidationStore`: the store's methods in imperative form, each proved equal to its transaction.
- `ValidationLedger`, `LedgerLaws`, `LedgerFencing`, `LedgerTwin`: the in-memory twin, its methods, their
  exact outcomes, its fencing by lease token, and its agreement with the store.
- `CostAllocation`: exact splitting of tokens and micro-USD.
- `LockOrder`: the lock guard, the lock sequence of every transaction, and deadlock freedom.
- `RolloutControl`: staged percentage authorization behind its gates, audits and corrections, the
  breaker they open and operators close, and the event log.
- `ReviewLog`, `ReviewLogFile`: the reserve/consume log and its atomically replaced file.
- `ValidationFrame`, `FirstFitPacking`, `AutoReviewPolicy`, `SlotAttribution`: from review candidates
  to batches, slots, decisions and stored results.
- `EvidenceJson`, `EvidenceRenderer`, `EvidenceCompleteness`: the bounded evidence window, what it may
  show and what it must.
- `ByteCodecs`, `TokenizerFraming`, `LaunchToken`: framing, UTF-8, base64url, canonical JSON.
- `InterruptNormalForm`: the comparison of interrupts and the confirmation of a checkpoint.
- `UsageParser`: strict usage parsing over possibly cyclic containers.
- `Foundations` (modules `Outcomes`, `Sorting`, `Sums`): shared types, sorting, sums.

Money is in micro-USD and exact costs in units of 10^-12 USD, so all arithmetic is on integers.
Python errors are `Err` results. A refused operation is a step that changes nothing.

Where the code and a promise about it part, the model follows the code, a lemma shows an input, and
another says exactly when the promise holds: the ledger's start does not test the status
(`CancelledCallCanBeSent`, `TerminalRowChangesIff`, `TerminalRowIsFrozenIff`); operator recovery does
not conserve the charge of an attempted call (`OperatorRecoveryLosesTheSplit`,
`ChildrenConserveTheCharge`); re-entering the generation barrier resets the recorded lock order, which
can deadlock (`ReentryCanDeadlock`, `GuardKeepsOrderIff`); the review-log validator compares sequence
numbers with `==`, so JSON `false` passes for 0 (`AcceptsAnUnreachableLog`, `AcceptsIffReachable`).

The creation of a review log checks for existing files before it takes the lock. Its only caller holds
the initialization lock around it, so this is a precondition of the creation, not a failure;
`RacingCreationsLoseALog` shows what the precondition is for.

The batch and candidate caps of a workflow are the confirmed values of its row; the registry confirms
2 and 5.

## Model

| member | source | states |
|---|---|---|
| ProtocolSafety.AtMostOnceEffect | backend/app/agent_runtime/auto_review_validation_store.py:1103-1524 | Over every interleaving of claims, starts, mints, dispatch checks, sends, settlements, cancels, both recoveries, operator steps and crashes by any number of processes: no call is sent to the provider twice, no second permit is ever minted for a call, and every sent call has its one attempt recorded. |
| ProtocolSafety.TerminalRowsAreFrozen | backend/app/agent_runtime/auto_review_validation_store.py:1526-1862 | Once a call is terminal its row (status, charge, children, lease, flags) is the same after every further run. |
| ProtocolSafety.BudgetSafety | backend/app/agent_runtime/auto_review_validation_store.py:2381-2484 | In every reachable state a workflow is within its batch and candidate caps, and unless one of its calls is flagged as an overrun, charged cost of settled calls plus reserved cost of open calls is at most min(deployment, confirmed) validation ceiling. |
| ProtocolSafety.OverchargeOpensBreaker | backend/app/agent_runtime/auto_review_validation_store.py:1598-1664 | A step that settles a call above its reserved cost flags the call, and no step flags a call without leaving the breaker open in the same transaction. |
| ProtocolSafety.ChildrenConserveTheCharge | backend/app/agent_runtime/auto_review_validation_store.py:2646-2678 | In every reachable state tokens and cost of a call's children sum to the call's charge, if and only if the call is not one that an operator recovered after its attempt had started. |
| CallRows.AdminRecoverEffect | backend/app/admin/auto_review_call_recovery.py:175-208 | Operator recovery settles the row and keeps the row invariant, and conserves the charge exactly when no attempt had been recorded: it keeps the charge and zeroes the children. |
| CallRows.ClaimEffect | backend/app/agent_runtime/auto_review_validation_store.py:1103-1316 | A claim inserts a row within budget, releases an unstarted lease at or after its expiry under the fresh token, or leaves the tables alone; nothing else. |
| CallRows.StartEffect | backend/app/agent_runtime/auto_review_validation_store.py:1318-1437 | A start records the single attempt under an unexpired lease or settles the call with zero charge; it hands out a ticket only with a recorded attempt. |
| CallRows.CompleteEffect | backend/app/agent_runtime/auto_review_validation_store.py:1526-1720 | A completion settles at most its own call, keeps the row invariant, opens the breaker exactly with an overrun, and conserves the charge among the children. |
| CallRows.FailEffect | backend/app/agent_runtime/auto_review_validation_store.py:1722-1788 | A reported failure settles at most its own call, flags it and opens the breaker when it exceeds the reservation, and conserves the charge. |
| CallRows.CancelEffect | backend/app/agent_runtime/auto_review_validation_store.py:1790-1817 | A cancellation settles an unstarted call with zero charge and touches nothing else. |
| CallRows.RecoverEffect | backend/app/agent_runtime/auto_review_validation_store.py:1819-1862 | A recovery settles an expired started call as failed at its whole reservation, conserves the charge among the children, and touches nothing else. |
| CallLaws.ClaimIsGrantedIff | backend/app/agent_runtime/auto_review_validation_store.py:1103-1316 | A claim is granted if and only if the reservation is valid in numbers, key, policy, workflow and version are current, and the call is new and affordable, or open, unstarted and past its lease. |
| CallLaws.GrantLeavesOneRow | backend/app/agent_runtime/auto_review_validation_store.py:1195-1313 | A grant leaves a fresh row of the sorted request, or the old row under a new token and lease, and nothing else. |
| CallLaws.RowsAreInKeyOrder | backend/app/agent_runtime/auto_review_validation_store.py:1269-1271 | The row keeps exactly the candidates of the request, in key order. |
| CallLaws.ClaimIsBusyIff | backend/app/agent_runtime/auto_review_validation_store.py:1181-1194 | A claim is answered busy, with the end of the lease, if and only if it is current and the open row is still leased or already attempted. |
| CallLaws.TerminalCallIsReplayed | backend/app/agent_runtime/auto_review_validation_store.py:1145-1170 | A claim of a terminal row replays it, drift or not: completed with its projections, failed with the reason of its children. |
| CallLaws.ReplaysIff | backend/app/agent_runtime/auto_review_validation_store.py:2589-2644 | A completed row replays if and only if it has children, all completed with a reasoned decision; a failed one if and only if its failed children share one single reason, and then with that reason. |
| CallLaws.CandidateOrderDoesNotMatter | backend/app/agent_runtime/auto_review_validation_store.py:1269-1271 | Claims that list the same candidates in different orders have the same outcome and leave the same tables. |
| CallLaws.StartIsGrantedIff | backend/app/agent_runtime/auto_review_validation_store.py:1318-1437 | An attempt is granted if and only if the row is claimed, unstarted, under its lease and token, the admission equals its terms field by field, and nothing drifted; then the row records the attempt and a renewed lease. |
| CallLaws.DriftedStartIsUncharged | backend/app/agent_runtime/auto_review_validation_store.py:1370-1405 | A due start that drifted fails the call at charge zero; one that is not due changes nothing. |
| CallLaws.CheckPassesIff | backend/app/agent_runtime/auto_review_validation_store.py:1466-1505 | The dispatch check passes if and only if row, lease, attempt, every invocation field, the guards of the start, key, policy, rollout, breaker and version agree; it raises exactly if it cannot read them. |
| CallLaws.DueCompletion | backend/app/agent_runtime/auto_review_validation_store.py:1583-1720 | A due completion, charged its usage rounded up, is failed as an overrun beyond reservation or ceilings, failed as drifted, completed child by child with fair shares, or refused for a missing decision - each on exactly its condition. |
| CallLaws.CompletionThatIsNotDue | backend/app/agent_runtime/auto_review_validation_store.py:1531-1590 | Any other completion changes neither tables nor process state. |
| CallLaws.DueFailure | backend/app/agent_runtime/auto_review_validation_store.py:1722-1788 | A due failure is charged its reported usage, or the whole reservation if none is known, shared fairly, and flagged with an open breaker if and only if that exceeds the reservation. |
| CallLaws.CancellationIsUncharged | backend/app/agent_runtime/auto_review_validation_store.py:1790-1817 | A cancellation fails an unstarted open call at charge zero, and changes nothing otherwise. |
| CallLaws.RecoveryChargesTheReservation | backend/app/agent_runtime/auto_review_validation_store.py:1819-1862 | A recovery succeeds if and only if an attempt was started and its lease ran out, and charges exactly the reserved tokens and cost. |
| CallLaws.OperatorRecoverySettles | backend/app/admin/auto_review_call_recovery.py:175-208 | Operator recovery settles an open call past its lease, or any when forced, charges the reservation of a started one and nothing otherwise, zeroes the children and takes the lease away. |
| CallLaws.InitialAuthorizationIff | backend/app/admin/auto_review_rollout.py:327-446 | The first breaker row is written if and only if there is none, the key is readable and the policy is the running one. |
| CallLaws.ClearingIff | backend/app/admin/auto_review_rollout.py:448-561 | The breaker is cleared if and only if it is open at the version the operator saw and the running policy differs from the one that overran. |
| CallHistory.EveryInvocationHasItsHistory | backend/app/agent_runtime/auto_review_validation_store.py:1318-1524 | Over every run each provider invocation has, in this order, a start that was due and undrifted, the permit minted for it, a check that agreed with the started row and the claimed invocation, and the send, within the send window of the mint. |
| CallHistory.CheckDecidesTheGrant | backend/app/agent_runtime/auto_review_validation_store.py:1466-1513 | A check of a held grant lets one thread through, or drops the grant and invalidates its permit, or cannot read and changes nothing - each on exactly its condition. |
| CallHistory.SendSpendsTheGrant | backend/app/agent_runtime/auto_review_validation_store.py:1514-1524 | A send spends the grant and reaches the provider if and only if its permit is unconsumed, not invalidated and before its deadline. |
| CallHistory.LeaseIsExclusive | backend/app/agent_runtime/auto_review_validation_store.py:1181-1201 | Over every run in which nobody claims a call at or after the end of its lease and no operator recovers it, the row keeps its token. |
| CallHistory.TerminalCallsAreAnswered | backend/app/agent_runtime/auto_review_validation_store.py:2589-2644 | In every reachable state a claim of a terminal call is answered, never refused as corrupt. |
| CallHistory.RecoveryReturnsNoMoney | backend/app/agent_runtime/auto_review_validation_store.py:1819-1862 | In every reachable state a recovery, and a failure with unknown usage, leave what every workflow owes exactly as it was. |
| CallHistory.ChecksPrecedeSettlement | backend/app/agent_runtime/auto_review_validation_store.py:1481-1484 | In every run the check of a sent call came before the call was settled. |
| CallHistory.RecoveryFencesOff | backend/app/agent_runtime/auto_review_validation_store.py:1852-1862 | After a process recovers a call whose permit it holds, no further run of any process sends the call. |
| CallHistory.RecoveryTouchesOnlyItsCall | backend/app/agent_runtime/auto_review_validation_store.py:1852-1862 | A recovery voids exactly the permits its process holds for the recovered call, drops exactly those grants, and leaves every other permit, grant, process and thread alone. |
| CallHistory.CancelledWorkflowIsClosed | backend/app/agent_runtime/auto_review_validation_store.py:2265-2310 | Once a workflow is cancelled, in every later state none of its calls is claimed, started, let through or completed, and a due completion is failed. |
| BreakerHistory.BreakerLogDeterminesRow | backend/app/agent_runtime/auto_review_validation_store.py:2486-2547 | Over every run version, last sequence and event count of the breaker agree, each event starts at the version the previous one left, replaying the log gives the breaker flag and the overrun count, and the log is only extended. |
| BreakerHistory.NoBreakerEventSinceClaim | backend/app/agent_runtime/auto_review_validation_store.py:1377-1383 | ABA-freedom: when a dispatch check passes or a completion succeeds, the whole breaker log is the one at the claim, so the breaker was neither opened nor opened and cleared in between. |
| BreakerHistory.BreakerEffect | backend/app/agent_runtime/auto_review_validation_store.py:1103-1862 | Every step of the whole system leaves the breaker alone, opens it by one event, or moves it by one operator event from the row's version to the next. |
| ValidationSystem.StepEffect | backend/app/agent_runtime/auto_review_validation_store.py:1103-1862 | Each step of the system touches one call row in one of the five permitted ways and the breaker in one of two. |
| UndisturbedCall.UndisturbedCallCompletes | backend/app/agent_runtime/auto_review_validation_store.py:1103-1720 | From every state in which a call is claimable: if nobody interferes and its steps are in time, it is granted, sent exactly once, and completed without an overrun at no more than its reserved cost, with the breaker untouched. |
| UndisturbedCall.FirstCallIsClaimable | backend/app/agent_runtime/auto_review_validation_store.py:2381-2442 | After the provider was authorized and a workflow launched, its first affordable call is claimable, so the theorems about runs speak of runs that exist. |
| UndisturbedCall.RecoveredAttemptDoesNotConserve | backend/app/admin/auto_review_call_recovery.py:175-208 | Whenever a first call is claimable, claiming and starting it and recovering it as an operator reaches a failed row with one attempt whose children do not add up to its charge. |
| UndisturbedCall.OperatorRecoveryLosesTheSplit | backend/app/admin/auto_review_call_recovery.py:175-208 | Such a run exists: a concrete one ends in a row whose children do not conserve the charge. |
| UndisturbedCall.ReservationIsEnough | backend/app/agent_runtime/auto_review_validation_store.py:2444-2484 | A claim within budget leaves room for any completion within its reserved tokens: such a charge never overruns the workflow. |
| OperatorActions.OperatorConsole.RecoverValidation | backend/app/admin/auto_review_call_recovery.py:175-208 | The method, with its loop over children, equals the operator recovery transaction. |
| OperatorActions.OperatorConsole.Recover | backend/app/admin/auto_review_call_recovery.py:57-87 | The loop over selected calls equals one transaction per call, counts recovered and failed ones, and refuses a limit outside 1 to 1000. |
| OperatorActions.OperatorConsole.CancelWorkflow | backend/app/admin/auto_review_call_recovery.py:89-112 | The loop equals one forced recovery per selected call. |
| OperatorActions.SweepSettlesExactly | backend/app/admin/auto_review_call_recovery.py:57-112 | A sweep settles exactly the selected recoverable calls whose transaction did not raise, each as if alone, and leaves every other row, the workflows and the breaker alone. |
| OperatorActions.NothingIsLeftOpen | backend/app/admin/auto_review_call_recovery.py:89-133 | A sweep over all recoverable calls leaves none recoverable. |
| OperatorActions.SweepIsIdempotent | backend/app/admin/auto_review_call_recovery.py:57-87 | Repeating a sweep at the same time recovers nothing and changes nothing. |
| OperatorActions.OperatorConsole.AuthorizeInitialProviderPolicy | backend/app/admin/auto_review_rollout.py:327-446 | The method equals the initial authorization on row and event log, refusals included. |
| OperatorActions.OperatorConsole.ClearProviderBreaker | backend/app/admin/auto_review_rollout.py:448-561 | The method equals the clearing step on row and event log, refusals included. |
| ValidationStore.AutoReviewValidationStore.ClaimOrReplay | backend/app/agent_runtime/auto_review_validation_store.py:1103-1316 | The method leaves exactly the tables and returns exactly the outcome of the claim transaction. |
| ValidationStore.AutoReviewValidationStore.MarkAttemptStarted | backend/app/agent_runtime/auto_review_validation_store.py:1318-1437 | The method performs the start transaction and registers the grant, permit deadline and guards of this process, or changes nothing local. |
| ValidationStore.AutoReviewValidationStore.Dispatch | backend/app/agent_runtime/auto_review_validation_store.py:1439-1524 | The method consumes the permit at most once, only after the check transaction agreed, and leaves exactly the specified local state in every refusal. |
| ValidationStore.AutoReviewValidationStore.Complete | backend/app/agent_runtime/auto_review_validation_store.py:1526-1720 | The method leaves exactly the tables, local state and projections of the completion transaction, including the overrun and drift branches. |
| ValidationStore.AutoReviewValidationStore.Fail | backend/app/agent_runtime/auto_review_validation_store.py:1722-1788 | The method equals the failure transaction on tables and local state. |
| ValidationStore.AutoReviewValidationStore.Cancel | backend/app/agent_runtime/auto_review_validation_store.py:1790-1817 | The method equals the cancellation transaction. |
| ValidationStore.AutoReviewValidationStore.RecoverExpired | backend/app/agent_runtime/auto_review_validation_store.py:1819-1862 | The method equals the recovery transaction and voids exactly this process's grants of the recovered context. |
| ValidationStore.Tables.OpenBreaker | backend/app/agent_runtime/auto_review_validation_store.py:2486-2547 | Opening writes one event and advances the version; an open breaker is left alone. |
| ValidationStore.Tables.Totals | backend/app/agent_runtime/auto_review_validation_store.py:2381-2484 | The loop over a workflow's calls adds up charged cost of terminal and reserved cost of open calls, and their candidates. |
| ValidationStore.CompleteChildren | backend/app/agent_runtime/auto_review_validation_store.py:1679-1716 | The loop writes result, decision and charge of position i into child i for every i, or stops if a decision is missing. |
| CostAllocation.ExactCostSplit | backend/app/agent_runtime/auto_review_validation_store.py:2780-2832 | For every token total, batch size and price pair the even token split and largest-remainder rounding never refuse; shares sum to the ceiling-rounded call cost, each is floor or ceiling of its exact cost, and the leftover is between 0 and the number of non-zero fractions. |
| CostAllocation.AllocationIsLargestRemainder | backend/app/agent_runtime/auto_review_validation_store.py:2805-2832 | Every allocation is a largest-remainder split: floors, as many raised shares as leftover units, and no raised share is outranked by one left at its floor. |
| CostAllocation.LargestRemainderIsUnique | backend/app/agent_runtime/auto_review_validation_store.py:2805-2832 | With distinct tie-breakers there is only one such split. |
| CostAllocation.ZeroFractionsAreNeverRaised | backend/app/agent_runtime/auto_review_validation_store.py:2805-2832 | A share with no fraction is never raised. |
| CostAllocation.AllocateMicroUsdInPlace | backend/app/agent_runtime/auto_review_validation_store.py:2805-2832 | The loop that increments array elements computes exactly the functional allocation, refusals included. |
| CostAllocation.AllocateTokens | backend/app/agent_runtime/auto_review_validation_store.py:2798-2802 | Shares sum to the total and differ by at most one, larger shares first. |
| LedgerFencing.LedgerSendsAtMostOnce | backend/app/agent_runtime/auto_review_validation_store.py:448-597 | Over every run of the in-memory ledger no call is sent twice. |
| LedgerFencing.SendsPrecedeRecoveries | backend/app/agent_runtime/auto_review_validation_store.py:559-793 | Over every run, whatever its clocks: a call that is sent in one step and recovered in another was sent in the earlier step and at a strictly earlier time. |
| LedgerFencing.RecoveredCallsAreNeverSent | backend/app/agent_runtime/auto_review_validation_store.py:773-793 | After a recovery no run, whatever its clocks, sends the call again. |
| LedgerFencing.SupersededTokenIsFencedOff | backend/app/agent_runtime/auto_review_validation_store.py:491-505 | Once a call was leased again, no later start, completion, failure, cancellation or recovery with the old token changes anything, after any further run with fresh tokens. |
| LedgerFencing.ReleasedTokenIsFencedOff | backend/app/agent_runtime/auto_review_validation_store.py:491-505 | From every reachable ledger: once a claim leased a known call again under a fresh token, after any further run no operation with the first token changes anything. |
| LedgerFencing.TerminalRowChangesIff | backend/app/agent_runtime/auto_review_validation_store.py:507-597 | The ledger's start lacks the status test: a step changes a terminal row if and only if it passes the remaining guards, written out on its arguments: lease token, admission, no attempt, unexpired lease and a successful commit for a start; live grant, unexpired lease, invocation, permit and deadline for a dispatch. |
| LedgerFencing.TerminalRowIsFrozenIff | backend/app/agent_runtime/auto_review_validation_store.py:507-597 | Over every run a terminal row stays as it is if and only if no step of the run passes those guards. |
| LedgerFencing.CheckedRunsFreezeTerminalRows | backend/app/agent_runtime/auto_review_validation_store.py:507-597 | If every start and dispatch is preceded by a check that the call is open, terminal rows never change and are never sent again. |
| LedgerFencing.CancelledCallCanBeSent | backend/app/agent_runtime/auto_review_validation_store.py:507-557 | A concrete run in which a cancelled, uncharged call is started and sent. |
| ValidationLedger.ValidationCallLedger.ClaimOrReplay | backend/app/agent_runtime/auto_review_validation_store.py:448-505 | The method equals the ledger's claim transition. |
| ValidationLedger.ValidationCallLedger.MarkAttemptStarted | backend/app/agent_runtime/auto_review_validation_store.py:507-557 | The method equals the start transition, including the commit that may raise. |
| ValidationLedger.ValidationCallLedger.Dispatch | backend/app/agent_runtime/auto_review_validation_store.py:559-597 | The method equals the dispatch transition, including which refusals drop the grant. |
| ValidationLedger.ValidationCallLedger.Complete | backend/app/agent_runtime/auto_review_validation_store.py:599-742 | The method equals the completion transition with its sibling-budget and overrun branches. |
| ValidationLedger.ValidationCallLedger.Cancel | backend/app/agent_runtime/auto_review_validation_store.py:758-771 | The method equals the cancellation transition. |
| ValidationLedger.ValidationCallLedger.RecoverExpired | backend/app/agent_runtime/auto_review_validation_store.py:773-793 | The method equals the recovery transition: settles the call and drops its grants. |
| ValidationLedger.ValidationCallLedger.Fail | backend/app/agent_runtime/auto_review_validation_store.py:795-840 | The method equals the failure transition, which never flags an overrun. |
| LedgerLaws.LedgerGrantsIff | backend/app/agent_runtime/auto_review_validation_store.py:448-505 | The ledger grants a claim if and only if the reservation stands in numbers and the call is new, or the same one, open, unstarted and past its lease; the grant leaves one fresh or re-leased row. |
| LedgerLaws.LedgerStartsIff | backend/app/agent_runtime/auto_review_validation_store.py:507-557 | A start passes if and only if it has the current token under its lease, no attempt was made, the admission equals the terms field by field and the commit succeeds; it leaves the attempt and one new grant. |
| LedgerLaws.LedgerDispatchesIff | backend/app/agent_runtime/auto_review_validation_store.py:559-597 | A dispatch passes if and only if the grant is held, the lease runs, the invocation is the claimed one and the permit is good; a held grant is spent either way. |
| LedgerLaws.LedgerDueCompletion | backend/app/agent_runtime/auto_review_validation_store.py:599-742 | A due completion is recorded as an overrun that opens the breaker, as drift if a cancellation was wished, or as one projection per candidate in key order whose shares add up - each on exactly its condition. |
| LedgerLaws.LedgerCancels | backend/app/agent_runtime/auto_review_validation_store.py:758-771 | Cancelling settles an unstarted open call uncharged and only marks a started one. |
| LedgerLaws.LedgerRecovers | backend/app/agent_runtime/auto_review_validation_store.py:773-793 | Recovery succeeds if and only if a started call is past its lease, charges the reservation, and drops exactly its grants. |
| LedgerLaws.LedgerFails | backend/app/agent_runtime/auto_review_validation_store.py:795-840 | A failure of an open attempt is charged its usage, rounded up, or the reservation if none is known. |
| LedgerTwin.TwinsAnswerClaims | backend/app/agent_runtime/auto_review_validation_store.py:448-505 | For matching rows and no drift the ledger and the store answer a claim alike: busy until the same moment, granted under the same token, or replayed with the same answer. |
| LedgerTwin.TwinsStart | backend/app/agent_runtime/auto_review_validation_store.py:507-557 | A start that is due and undrifted for the store is granted by both, with the same permit, and leaves matching rows. |
| LedgerTwin.TwinsComplete | backend/app/agent_runtime/auto_review_validation_store.py:599-742 | A completion within both budgets completes both, at the same charge and with the same projections. |
| LedgerTwin.TwinsCancel | backend/app/agent_runtime/auto_review_validation_store.py:758-771 | Both cancel an unstarted call uncharged; a started one stays open in both, and the ledger remembers the wish. |
| LedgerTwin.TwinsRecover | backend/app/agent_runtime/auto_review_validation_store.py:773-793 | Both recover under the same condition and at the same charge. |
| LedgerTwin.TwinsFail | backend/app/agent_runtime/auto_review_validation_store.py:795-840 | Both record a failure for the same reason and at the same charge. |
| LockOrder.SomeTransactionCanStep | backend/app/agent_runtime/keyed_mutation_guard.py:23-158 | Deadlock freedom: in every reachable state with unfinished transactions one of them holds all its locks or can take its next one, for any number of transactions in shared and exclusive modes. |
| LockOrder.NoCircularWait | backend/app/agent_runtime/keyed_mutation_guard.py:23-158 | No reachable state has a circle of transactions each waiting for the next. |
| LockOrder.TransactionsAreDisciplined | backend/app/agent_runtime/auto_review_validation_store.py:1109-1142 | Every store transaction and every operator transaction shown takes its row locks in strictly increasing global order, and child rows only under their call's lock. |
| LockOrder.GuardKeepsOrderIff | backend/app/agent_runtime/keyed_mutation_guard.py:73-158 | The guard keeps one transaction's locks in order if and only if the transaction enters the barrier at most once, because entering resets the record. |
| LockOrder.ReentryCanDeadlock | backend/app/agent_runtime/keyed_mutation_guard.py:193-222 | A concrete run of two transactions, one entering the barrier again after a projection lock and one entering it once, in which each waits for a lock the other holds. |
| LockOrder.KeyedSession.RecordNext | backend/app/agent_runtime/keyed_mutation_guard.py:77-83 | A step is recorded and its lock taken exactly when the last recorded step is an allowed predecessor. |
| LockOrder.KeyedSession.Perform | backend/app/agent_runtime/keyed_mutation_guard.py:85-223 | Each guard operation changes record and taken locks exactly as specified, and is refused otherwise. |
| RolloutControl.RolloutService.AuthorizePercentage | backend/app/admin/auto_review_rollout.py:68-178 | The method, which writes row and event field by field, equals the authorization step behind its gate, refusals included. |
| RolloutControl.RolloutService.CloseRolloutBreaker | backend/app/admin/auto_review_rollout.py:180-325 | The method equals the closing step on row and event log, refusals included. |
| RolloutControl.RolloutService.OpenRolloutBreaker | backend/app/review/auto_review_audit.py:450-507 | The method opens the breaker at percentage zero with one event, or only advances the version of an open one. |
| RolloutControl.RolloutService.CompletePostAudit | backend/app/review/auto_review_audit.py:345-448 | The method equals the audit completion on counters, audits, row and log: mandatory slots are released, and a critical finding opens the breaker. |
| RolloutControl.LogTellsEveryRow | backend/app/review/auto_review_audit.py:450-507 | Over every run of authorizations, closings, promotions, predictions, comparisons, audits, corrections and invalidations, the event log read from the default row ends at the row: sequence, epoch, percentage, breaker and generation chain event by event, and every event is a sensible one of its kind. |
| RolloutControl.AuthorizationNeedsClosedBreaker | backend/app/review/auto_review_rollout.py:57-113 | An authorization is granted only with a closed breaker, without critical findings, and from 0 to 10 or from 10 to 100. |
| RolloutControl.CanaryIsAuthorizedIff | backend/app/review/auto_review_rollout.py:57-106 | Stage 10 is authorized if and only if the input counts, the stage is 0, at least 500 comparisons have at least 99 in 100 supported, and there is no critical finding and no open breaker. |
| RolloutControl.FullRolloutIsAuthorizedIff | backend/app/review/auto_review_rollout.py:67-113 | Stage 100 is authorized if and only if the input counts, the stage is 10, at least 500 promotions, 50 confirmed and no pending mandatory audits, as many audits completed as selected, no critical finding and no open breaker. |
| RolloutControl.ClosingIff | backend/app/admin/auto_review_rollout.py:180-325 | The breaker is closed if and only if it is open, no audit of any cohort is pending, nothing was corrected and nothing is unresolved; the stage becomes 0. |
| RolloutControl.PromotionIsReservedIff | backend/app/review/auto_review_audit.py:57-163 | A promotion is reserved if and only if the control is the one it was selected under and, below fifty confirmed audits, a mandatory slot is free. |
| RolloutControl.CountersCountTheRun | backend/app/review/auto_review_audit.py:57-448 | Over every run each counter is the number of times its event happened. |
| RolloutControl.CanaryIsEarned | backend/app/review/auto_review_rollout.py:57-66 | Stage 10 is authorized only after a run with at least 500 comparisons, 99 in 100 of them supported, and no critical audit or correction ever. |
| RolloutControl.FullRolloutIsEarned | backend/app/review/auto_review_rollout.py:67-90 | Stage 100 is authorized only after a run with at least 500 promotions and exactly 50 confirmed mandatory audits. |
| RolloutControl.FullRolloutFollowsCanary | backend/app/review/auto_review_rollout.py:92-113 | In the log of every run an event that reaches 100 percent is an authorization directly after the one from 0 to 10. |
| RolloutControl.RunIsStaged | backend/app/review/auto_review_audit.py:57-163 | Over every run: an open breaker, a critical audit or a corrected audit means percentage 0; confirmed and pending mandatory audits never exceed fifty and the pending counter is the number of pending mandatory audits; every selected audit is pending, completed or invalidated. |
| RolloutControl.PendingAuditsCanBeCompleted | backend/app/review/auto_review_audit.py:345-448 | In every reachable state a pending audit can be completed: the refusal for an inconsistent mandatory counter never happens. |
| RolloutControl.CriticalFindingIsFinal | backend/app/review/auto_review_rollout.py:57-113 | After one critical audit or correction every further run, breaker closings included, is at percentage 0 and grants no authorization. |
| RolloutControl.SelectedEqualsCompletedIff | backend/app/review/auto_review_rollout.py:84-85 | In every reachable state the canary gate's equality of selected and completed audits holds if and only if completed manual audits make up exactly for selected audits that are pending or were invalidated. |
| RolloutControl.FullRolloutIsAudited | backend/app/review/auto_review_rollout.py:68-90 | A full rollout is authorized only on fifty confirmed mandatory audits with none pending and, if no manual audit was completed, with no selected audit pending or invalidated. |
| RolloutControl.VersionPinsTheRow | backend/app/review/auto_review_audit_transitions.py:38-97 | Over every run the log is only extended, epoch, generation and sequence advance with it one per event, the version never goes back, and an equal version means an equal row except for invalidated audits, which are not versioned. |
| RolloutControl.StaleDecisionsAreRefused | backend/app/admin/auto_review_rollout.py:102-104 | An authorization or closing decided on a row that has since changed other than by an invalidated audit is refused, after any run. |
| ReviewLog.AcceptsIffReachable | backend/app/admin/rag_provider_safety.py:273-427 | The validator accepts a log with integer sequence numbers if and only if reserve and consume steps can build it from the empty log. |
| ReviewLog.AcceptsAnUnreachableLog | backend/app/admin/rag_provider_safety.py:292-300 | A concrete accepted log that no steps build: its sequence number is a JSON boolean that compares equal to 0. |
| ReviewLog.Validate | backend/app/admin/rag_provider_safety.py:273-322 | The loop with its dictionary of reservations and set of consumed nonces decides the declarative acceptance predicate. |
| ReviewLog.ReviewLedger.Create | backend/app/admin/rag_provider_safety.py:348-358 | Creation succeeds only where neither file nor lock exists and stores one reservation. |
| ReviewLog.ReviewLedger.ReserveNonce | backend/app/admin/rag_provider_safety.py:360-383 | The method equals the reserve step on the stored log and leaves the file alone when it raises. |
| ReviewLog.ReviewLedger.ConsumeNonce | backend/app/admin/rag_provider_safety.py:406-427 | The method equals the consume step on the stored log and leaves the file alone when it raises. |
| ReviewLog.NonceHistory | backend/app/admin/rag_provider_safety.py:301-322 | In an accepted log a nonce has at most two entries: a reservation, then one consumption with the same digest. |
| ReviewLog.HistoryIsOnlyExtended | backend/app/admin/rag_provider_safety.py:360-427 | Every run of operations extends every earlier log of the run. |
| ReviewLog.PendingReservation | backend/app/admin/rag_provider_safety.py:360-403 | After a reservation, repeating it is the identity, another digest is refused, and consuming or retrying works exactly with its digest. |
| ReviewLog.ConsumedIsFinal | backend/app/admin/rag_provider_safety.py:406-427 | After a consumption no review with that nonce can reserve, retry or consume, in this or any extended log. |
| ReviewLog.NonceIsGrouped | backend/app/admin/rag_provider_safety.py:303-312 | A nonce is admitted if and only if it is 32 lower-case hexadecimal digits, not all zero, hyphenated in groups of 8, 4, 4, 4 and 12. |
| ReviewLogFile.FileIsAlwaysAValidLog | backend/app/agent_runtime/durable_file_authority.py:439-505 | Over every interleaving with process crashes and power cuts the named file is absent or a whole accepted log, and every request reported done is recorded in the durable file. |
| ReviewLogFile.DurableHistoryOnlyGrows | backend/app/agent_runtime/durable_file_authority.py:439-505 | The durable file of a later state extends that of every earlier state. |
| ReviewLogFile.CrashLeavesOldOrNew | backend/app/agent_runtime/durable_file_authority.py:469-505 | A process crash leaves the file as it is; a power cut leaves the last flushed log or one of the renamed ones since, each whole and accepted. |
| ReviewLogFile.DoneNoncesAgree | backend/app/admin/rag_provider_safety.py:360-427 | Two finished requests for one nonce, one of them a consumption, carry the same digest. |
| ReviewLogFile.UndisturbedUpdateIsStored | backend/app/agent_runtime/durable_file_authority.py:439-505 | An update that the log admits and nobody disturbs ends with its result in the file, as a power cut would leave it. |
| ReviewLogFile.UndisturbedCreationIsStored | backend/app/agent_runtime/durable_file_authority.py:374-391 | An undisturbed creation where there is neither file nor lock file stores its one reservation. |
| ReviewLogFile.RacingCreationsLoseALog | backend/app/agent_runtime/durable_file_authority.py:374-391 | Creation needs the lock its caller holds around it: without it two creations can both succeed and the later one replaces the earlier one's log. |
| FirstFitPacking.PreparePartition | backend/app/agent_runtime/auto_review_orchestrator.py:77-205 | The packing loop and the preparation loop produce the batches and the positive human-only ids of the specified packing; preparing a chosen bin never refuses. |
| FirstFitPacking.PackingIsAPartition | backend/app/agent_runtime/auto_review_orchestrator.py:88-122 | Batches and rejected candidates are a permutation of the input; at most two batches of one to four candidates, five in all, at most twelve evidence slots each, every batch in key order and renderable as it stands. |
| FirstFitPacking.PlacedFirstFit | backend/app/agent_runtime/auto_review_orchestrator.py:88-122 | In key order one of the first five candidates goes to the first bin that takes it as it stands, else opens one of at most two bins if it renders alone, and is otherwise rejected; every later one is rejected. |
| FirstFitPacking.PeopleGetTheRejected | backend/app/agent_runtime/auto_review_orchestrator.py:93-211 | The human-only ids are the positive ids of the rejected candidates, as often as they occur. |
| FirstFitPacking.PackingIgnoresInputOrder | backend/app/agent_runtime/auto_review_orchestrator.py:88-92 | With distinct keys the packing is the same for every order of the input. |
| FirstFitPacking.NoConsideredCandidateIsLeftOut | backend/app/agent_runtime/auto_review_orchestrator.py:99-122 | If dropping a candidate never takes a frame over the token cap, no rejected candidate among the first five fits any final batch in its place. |
| FirstFitPacking.Prepare | backend/app/agent_runtime/auto_review_orchestrator.py:123-198 | A bin that was measured is rendered again without refusal, and claims and policy inputs follow its slots. |
| ValidationFrame.Render | backend/app/agent_runtime/auto_review_validator.py:267-327 | The rendering loops refuse exactly the frames the rules forbid, counting the characters of the canonical text, and otherwise number candidates and evidence as specified. |
| ValidationFrame.ShownIsScanned | backend/app/agent_runtime/auto_review_validator.py:267-326 | A frame renders if and only if it has 1 to 4 candidates and at most 12 evidence texts, every shown text is non-empty and passed the scan, claims are at most 2000 characters, and the text is at most 12000 characters and within the token cap. |
| ValidationFrame.DroppingShortens | backend/app/agent_runtime/auto_review_validator.py:318-326 | Dropping a candidate never lengthens the canonical text: slot ids have a fixed width, so the size of a candidate does not depend on its place. |
| ValidationFrame.SlotHasOneOwner | backend/app/agent_runtime/auto_review_validator.py:279-317 | Every evidence slot of a frame belongs to exactly one candidate and names one of its evidence texts. |
| ValidationFrame.RendersWithout | backend/app/agent_runtime/auto_review_validator.py:267-327 | All checks of the renderer, the character cap included, survive dropping a candidate, if the token cap does. |
| SlotAttribution.CheckIntegrity | backend/app/agent_runtime/auto_review_validator.py:526-552 | The loop accepts a reply exactly when slots, claim fields and citations of every result are its candidate's own. |
| SlotAttribution.HonestResultsAreWellFormed | backend/app/agent_runtime/auto_review_policy.py:205-262 | A result that passes the integrity check is never malformed for the policy. |
| SlotAttribution.ResultsLandOnTheirItems | backend/app/agent_runtime/auto_review_orchestrator.py:323-354 | Whatever a completion stores at position k is the result for slot k+1, the decision on it, and the review item rendered into that slot, citing only evidence texts of that item. |
| SlotAttribution.StoredDecisionsAreTheItemsOwn | backend/app/agent_runtime/auto_review_orchestrator.py:323-354 | A stored item is approved if and only if it was eligible and its own reply, about its own slot and evidence, certifies it in a batch of at most four that nobody spoils; in such a batch every stored decision and reason is the table's for that item. |
| SlotAttribution.SettlementReports | backend/app/agent_runtime/auto_review_orchestrator.py:281-354 | An unavailable validator is reported without usage, a reply of the wrong size with the one usage there is, and any other as a completion of exactly the claimed candidates with their results in order. |
| SlotAttribution.BinOrderIsKeyOrder | backend/app/agent_runtime/auto_review_orchestrator.py:331-333 | Sorting the claims of a packed bin by key leaves them in slot order. |
| SlotAttribution.PackedBatchesAreAttributable | backend/app/agent_runtime/auto_review_orchestrator.py:77-205 | With distinct keys and each policy input naming its request's fields, every batch prepared from the packing meets the assumptions of the attribution theorems. |
| SlotAttribution.ReplayReturnsTheSame | backend/app/agent_runtime/auto_review_validation_store.py:2589-2628 | After any successful completion, its candidates in any order, and any further run, a claim of that batch that is answered at all is answered with the same projections, differing only in the cache mark. |
| SlotAttribution.Execute | backend/app/agent_runtime/auto_review_orchestrator.py:237-359 | The provider is invoked exactly when a lease was granted, the admission is for the claimed key and the attempt started; every invocation is followed by exactly one settlement under that lease, and every other refusal raises without one. |
| AutoReviewPolicy.BatchIsSpoiledIff | backend/app/agent_runtime/auto_review_policy.py:264-282 | Every member of a well-numbered batch goes to human review as malformed if and only if some member is spoiled. |
| AutoReviewPolicy.AutomaticDecisionIffCertified | backend/app/agent_runtime/auto_review_policy.py:205-282 | Any member of any batch is approved, or reused, if and only if it was eligible, or a trusted duplicate, is certified by its own result with every score at least 0.9800, and nobody in a well-numbered batch of at most four is spoiled. |
| AutoReviewPolicy.UnspoiledBatchIsJudgedByTable | backend/app/agent_runtime/auto_review_policy.py:205-262 | In an unspoiled batch each outcome and reason occurs exactly on the fields that cause it; a member that may not be validated gets exactly its eligibility. |
| AutoReviewPolicy.EligibleIff | backend/app/agent_runtime/auto_review_policy.py:154-203 | A candidate is eligible if and only if everything about it is in good standing and there is no visible target; reusable if and only if the one visible target has its type and fingerprint. |
| AutoReviewPolicy.FirstObjectionDecides | backend/app/agent_runtime/auto_review_policy.py:154-203 | A candidate that some check objects to gets the reason of the first such check, review for all but a changed version. |
| AutoReviewPolicy.ApprovedWasInGoodStanding | backend/app/agent_runtime/auto_review_policy.py:153-282 | Whatever a batch approves automatically was in good standing without a trusted duplicate and certified by its own result. |
| EvidenceRenderer.RenderBoundedEvidenceRows | backend/app/agent_runtime/langchain_evidence.py:40-89 | The in-place loop over aliased dictionaries produces exactly the specified rows, in fresh distinct objects. |
| EvidenceRenderer.FillRow | backend/app/agent_runtime/langchain_evidence.py:63-88 | Writing through the loop's own reference changes the row that is the last of the list, and only that. |
| EvidenceRenderer.LongestFittingPrefix | backend/app/agent_runtime/langchain_evidence.py:92-123 | The binary search returns the longest prefix that fits, as a scan down from the whole value would. |
| EvidenceRenderer.EveryMutationKeepsBudget | backend/app/agent_runtime/langchain_evidence.py:77-88 | After every field the serialized rows are within the window. |
| EvidenceCompleteness.MessageAppearsIff | backend/app/agent_runtime/langchain_evidence.py:50-64 | Rows are in message order, and a message has one if and only if its three identifying texts are not empty and fit behind the rows of the messages in front of it. |
| EvidenceCompleteness.FieldAppearsIff | backend/app/agent_runtime/langchain_evidence.py:65-88 | In a row, a field is missing if and only if its text is empty or not even its first character fits behind the fields before it; fields keep their order. |
| EvidenceCompleteness.FieldsAreNamed | backend/app/agent_runtime/langchain_evidence.py:6-37 | Each field is tried with the text its name stands for: message fields, the snippet or the first 240 characters, and metadata under the first of its keys that has a value. |
| EvidenceCompleteness.ValuesAreWritten | backend/app/agent_runtime/langchain_evidence.py:151-167 | Scalars are written as themselves, null and other values as nothing, lists as their non-empty scalar items in order between commas. |
| EvidenceCompleteness.EverythingIsShownIff | backend/app/agent_runtime/langchain_evidence.py:40-89 | The output is every identified message with every field that has a text, whole, if and only if that fits the window or is empty. |
| EvidenceRenderer.WindowIsKept | backend/app/agent_runtime/langchain_evidence.py:40-89 | The result is within the window unless it is the empty list and the window is smaller than its two brackets. |
| EvidenceRenderer.OnlyTheLastValueIsCut | backend/app/agent_runtime/langchain_evidence.py:40-123 | Every value in the output is a non-empty prefix of its field's text, and only the very last value written can be a proper prefix. |
| EvidenceRenderer.SourceIsUnique | backend/app/agent_runtime/langchain_evidence.py:6-37 | A key of the output names one field only, so the prefix claim is about that field. |
| EvidenceRenderer.CutExhausts | backend/app/agent_runtime/langchain_evidence.py:92-123 | After a cut fewer than six characters of the window are left. |
| EvidenceRenderer.PrefixCost | backend/app/agent_runtime/langchain_evidence.py:126-137 | Serialized length is strictly monotone in the prefix. |
| EvidenceJson.PutLengths | backend/app/agent_runtime/langchain_evidence.py:99-118 | Two assignments of one key differ in serialized length exactly by their escaped values. |
| TokenizerFraming.StreamIdentifiesDefinition | backend/app/agent_runtime/rag_cost_policy.py:1371-1410 | Within the 64-bit bounds two definitions hash the same bytes if and only if name, pattern, rank map, core tokens, special map and largest token are equal, maps compared without order. |
| TokenizerFraming.Fingerprint | backend/app/agent_runtime/rag_cost_policy.py:1371-1405 | The updating loops feed the hash exactly the specified stream, or refuse a largest token of 64 bits or more. |
| ByteCodecs.SizedPrefixFree | backend/app/agent_runtime/rag_cost_policy.py:1408-1410 | Length-prefixed framing is prefix free. |
| ByteCodecs.Utf8RoundTrip | backend/app/agent_runtime/rag_cost_policy.py:1385-1386 | Strict UTF-8 decoding inverts encoding on every text. |
| LaunchToken.VerifyOfIssue | backend/app/agent_runtime/launch_confirmation.py:55-119 | For every issued snapshot whose text NFC leaves alone, verification succeeds exactly when issue time <= now < expiry and the expected snapshot is equal, and then returns the snapshot with its times. |
| LaunchToken.VerifiesIffAuthentic | backend/app/agent_runtime/launch_confirmation.py:84-119 | Verification accepts exactly the tokens of at most 2048 characters whose text behind the first dot decodes to the keyed digest of the text in front of it, which reads as exactly the token keys with an equal snapshot, a running time window and the configured lifetime. |
| LaunchToken.IssuesIff | backend/app/agent_runtime/launch_confirmation.py:55-82 | A snapshot is issued if and only if it has exactly the snapshot keys, no booleans, and a token of at most 2048 characters; the token is the encoded payload and its encoded digest around a dot. |
| LaunchToken.CanonicalJsonRoundTrip | backend/app/agent_runtime/launch_confirmation.py:245-255 | Reading the canonical text of any flat dictionary gives the dictionary. |
| LaunchToken.ItemsAreSorted | backend/app/agent_runtime/launch_confirmation.py:245-255 | The canonical text lists keys in order. |
| LaunchToken.SplitAtDot | backend/app/agent_runtime/launch_confirmation.py:92 | Splitting at the first dot recovers the two encoded parts. |
| ByteCodecs.Base64RoundTrip | backend/app/agent_runtime/launch_confirmation.py:258-265 | Unpadded base64url of any bytes holds no dot and decodes, under the lenient decoder, to those bytes if there are any and to a refusal if there are none. |
| InterruptNormalForm.SameNormIffDeepEqual | backend/app/agent_runtime/checkpoint_execution.py:115-149 | Two values have the same normal form if and only if they are deeply equal with exact types, dictionaries without insertion order. |
| InterruptNormalForm.NormalizesIffJsonSafe | backend/app/agent_runtime/checkpointing.py:39-56 | The normaliser is defined on exactly the values the checkpoint serializer accepts. |
| InterruptNormalForm.EnvelopeIffNormal | backend/app/agent_runtime/checkpointing.py:59-70 | A sequence of interrupts is a valid serializer envelope if and only if it is not empty and comparable. |
| InterruptNormalForm.NormalizeInterrupts | backend/app/agent_runtime/checkpoint_execution.py:152-175 | The loop returns the normal forms of all interrupts, or refuses if any has none. |
| InterruptNormalForm.ConfirmCheckpoint | backend/app/agent_runtime/checkpoint_execution.py:178-276 | A confirmation is returned exactly when some checkpoint id satisfies every identity, advance and interrupt condition. |
| InterruptNormalForm.ConfirmedInterruptsAreEqual | backend/app/agent_runtime/checkpoint_execution.py:255-264 | A confirmed invocation returned exactly the interrupts that were persisted, in order, with deeply equal values. |
| InterruptNormalForm.ConfirmedIff | backend/app/agent_runtime/checkpoint_execution.py:178-276 | An invocation is confirmed if and only if a root checkpoint of its thread was saved and shown, it is a new one, and the interrupts returned are one by one those persisted, with some if and only if that was expected. |
| UsageParser.ScanAcceptsIff | backend/app/agent_runtime/provider_usage.py:224-293 | The detail walk accepts exactly the clean unfoldings within depth 32 and 4096 nodes, cyclic graphs included: the active set and the list-length test decide nothing the two bounds do not. |
| UsageParser.CountedIsClean | backend/app/agent_runtime/provider_usage.py:244-293 | In an accepted graph nothing at any depth is an unknown container or a mapping that names an authority. |
| UsageParser.DetailScanner.Reject | backend/app/agent_runtime/provider_usage.py:244-293 | The descent with one shared counter and one shared set of active containers equals the specified walk and restores the set. |
| UsageParser.ValidateDetails | backend/app/agent_runtime/provider_usage.py:224-241 | The loop over the fields shares one budget over all details. |
| UsageParser.ParsedUsageIsTheOnlyAuthority | backend/app/agent_runtime/provider_usage.py:82-149 | A parsed usage adds up, stays below 2^63, equals every token field and every alias in the message, and no authority name hides beside or below the permitted positions. |
| UsageParser.ParsesIff | backend/app/agent_runtime/provider_usage.py:82-149 | A message parses to a usage if and only if both mappings can be read and are clean, the first says the usage in its three fields, adding up below 2^63, and every alias mapping present is clean and says the same. |

## Left out

- Dispatch: the check transaction and the send are two steps, as in the code, so the breaker can open between them; `NoBreakerEventSinceClaim` speaks about the check.
- ClaimOrReplay: the unique-key race of two first claims and its replay path are not separate steps, because a claim is one atomic transaction here.
- ReservationValid: registry constants, key derivations and fingerprints of a request are identities compared as values; only the reservation arithmetic is modelled.
- ConsumePermit: a permit is a record known by its identity; refusal to copy or pickle it is not modelled.
- CompleteTx: the shadow-comparison columns, minimum entailment score and child row ids are not kept; the rollout version it advances is the `PredictOp` of `RolloutControl`.
- TransactionsAreDisciplined: foreign-key share locks taken by the database itself and transactions outside the shown services are not in the plans.
- SomeTransactionCanStep: says that a step is possible, not that a queue is fair.
- LedgerClaim: the ledger has no batch or candidate cap at claim, as in the code, so the budget theorem is about the store only.
- Authorize: a missing row is created with the defaults before anything is read, so runs start at the default row.
- CloseBreaker: remediation beyond pending audits is an input.
- ReservePromotion: sampling draws and refusals of a candidate outside the selection are inputs or left out; so are the per-field source counters.
- CompleteAudit: actor, candidate and item checks in front of a pending audit are left out.
- LogTellsEveryRow: versions of successive events need not meet, because predictions and counters advance the version without an event.
- Recover: the selection queries are inputs, and extraction calls and agent runs are not in the tables.
- Validate: keyed digests and the pinned header of the review ledger are not modelled; a file whose digest fails is outside the accepted contents.
- After: owner-only permissions, hard-link and symbolic-link checks of the file authority are left out; the lock file is never replaced.
- Renders: the plaintext scan, whitespace stripping, NFC of each quoted text and the token cap of the finished text are parameters; the response-schema framing that the token count adds is the same for every batch and is part of that parameter.
- NoConsideredCandidateIsLeftOut: assumes that dropping a candidate never takes a frame over the token cap, which the byte-pair tokenizer does not promise; that it never takes one over the character cap is proved.
- EvaluateValidation: the duplicate target and the minimum score a decision also carries are not kept.
- Execute: the answers of the store and the provider are parameters; the store's own methods are proved in `ValidationStore`.
- EscapeChar: lone surrogates, which the source language admits in text, are not characters here.
- Canonical: the printed form of integers and floats is carried as text.
- Fingerprint: the hash function itself; the theorem is about the bytes it reads.
- VerifyOfIssue: is stated for snapshots whose canonical text NFC leaves unchanged; MAC and NFC are parameters.
- ParseObject: reads flat objects of strings, integers and booleans; floats, null, nested values and escaped surrogates are refused, which no issued token contains.
- Decode: a skipped character is one outside both alphabets, as in the library's lenient mode; non-ASCII text is refused first.
- SameNormIffDeepEqual: values are finite trees, so the recursion limit of the interpreter is not modelled; zero and negative zero are equal, as in the code.
- ConfirmCheckpoint: a blank thread id, and reads of saver, graph or configuration that raise, end the call before anything modelled here.
- Snapshot: identity of scalar objects between two readings of a custom mapping is equality of their values.
- ParseMessage: the embedding parser, which repeats the same checks on one level, is not modelled.
- Extraction calls and their recovery, workflow preparation, the HTTP and model plumbing around the provider, database mapping, and the envelope checks of the provider-safety administration would add only easy members.
