# SolFrontier control plane: a verified model

SolFrontier turns a proposed conditional deposit into one funded, executed Solana
transaction. This project models the parts of it that have to be right and proves
what they guarantee. `dafny verify dfyconfig.toml` checks everything.

## How it is organised

* **Arithmetic.** `FixedPoint` is the 128-by-128-bit multiply-divide engine,
  `RateCurve` the interest curve on top of it, `ReserveAccount` the account decoder
  in front. `Arith` holds facts about products and floor division.
* **Text and bytes.** `Codecs` (hex, UUID forms, percent-encoding, little-endian)
  and `Proposals` (the exact decimal amount and the admission of drafts).
* **Durable state.** `WatchRules` and `StateStore` are the two tables, every
  status-guarded write on them, and the ways a call can fail before or after
  taking effect. `Sidecar` is the derived index file.
* **Intent lifecycle.** `Submission`, `Execution`, `FundingProof` and
  `ConfirmFunding` give each tool twice: as methods over the store, and as a state
  machine of pure transitions that the methods are proved to follow. `Lifecycle`
  interleaves any number of these machines with crashes, half-failed store calls,
  lost send answers, the refund worker and inserts; `LifecycleInvariant` is the
  invariant and its preservation; `LifecycleSafety` states what every run
  guarantees, and ties the interleaved machines back to the sequential methods;
  `Payments` says where payments on record come from, `FundingAnswers` what reserved
  answers say of the deadlines, `Stranding` which rows are stuck for ever, and
  `Progress` what the tools can always still do.
* **Finalize bridge.** `Finalize`, `FinalizeProgram` and `FinalizeSafety` do the
  same for the deliberately non-transactional bridge from drafts to rules and
  funding rows; `FinalizeAnswers` says when each answer is given, `FinalizeHistory`
  what a call did from its answer, `FinalizeProgress` that a new draft can always be
  carried through, and `StatusQuery` is the lookup on top.
* **All together.** `FundedRules` adds to the lifecycle that funded rows match their
  rules and that completed rules used the funded amount. `JointRuns` runs the
  finalize bridge and the lifecycle on one store and shows that such a run is a run
  of either system, so both sets of theorems hold of it; `EndToEnd` follows an
  intent from its draft to its execution in these joint runs. `WatchRuns` and
  `WatchDesk` add the watch loop: attempts start from passed validations and submit
  what the wallet review signed. `JointProgress`, `WatchProgress` and `Journey` lead a
  draft all the way through it.
* **Gatekeepers.** `CandidateReports`, `Candidates`, `CandidateFindings` and
  `ExecuteCycle` (two-phase validation, what its findings say, and what a cycle may
  execute), `Policy`, `PolicyConditions` and `ExecutionPolicy` (first-match policy, what
  its conditions mean, and the transaction validator), `DepositBuilder` (the
  transaction of a plan, and its fit with the validator), `WalletReview` (audit,
  signing and the last check before submission).

## Reading the model

Hashing, base58, token-account derivation, message serialization and signature
verification are library code. They appear as function values in `Library` and
`Wire`, and a lemma that needs one of them to be injective says so. Clocks, RPC
answers and the outcome of every store call are inputs that may take any value.
An action whose guard fails leaves the system unchanged, so every sequence of
actions is a run and the theorems over runs quantify over all sequences.

Places where the code differs from what a reader may expect, as the model has them:

* The policy's token sum uses 64-bit additions that wrap in an optimized build (the
  release profile does not enable overflow checks). `ExecutionPolicy` states the
  exact consequence; transactions accepted by the validator move one amount only,
  so they are not affected.
* The lease is the only guard of execution: the fresh inspection before it does not
  look at the funding row's status. A refused lease is labelled
  `unknown_or_not_budget_reserved` although the row may be reserved and past its
  deadline.
* The finalize tool accepts a version-4 UUID in every form the UUID parser reads
  (upper case, braces, URN); the sidecar then refuses all but the two lowercase
  spellings. `Finalize.SidecarReadsLowercaseOnly` is the exact condition.
* When neither the rule insert nor its read-back succeeds, the funding row is still
  written. `FinalizeHistory.MismatchArises` is a run in which that row ends up with a
  hash that is not its stored rule's, and `MismatchedIff` says exactly when.
* No tool takes back the lease of an attempt that is gone: a crash after the lease, or
  a lease call that errs after it took effect, leaves the row executing until
  somebody reconciles it by hand. `Stranding.StuckIffStranded` is the exact condition.
* A funding payment is not exclusive. One transfer that carries the memos of two
  rows with the same parties and amount reserves both
  (`ConfirmFunding.SharedPaymentReservesBoth`); `FundingProof.PaysForBothIff` is the
  exact condition and `Payments.DistinctPaymentsUnlessBothMemos` what is left of
  exclusivity in runs.

## Model

| member | source | states |
|---|---|---|
| `FixedPoint.LimbProductExact` | bins/solfrontier-mcp/src/finalize_market.rs:568-587 | the four 64-bit limb products with their carries make the exact 256-bit product, and none of the checked additions on the high word can fail |
| `FixedPoint.BitIsBit` | bins/solfrontier-mcp/src/finalize_market.rs:614-620 | the bit read from the two-word product is that bit of its numeric value |
| `FixedPoint.MulDivFloorU128` | bins/solfrontier-mcp/src/finalize_market.rs:560-612 | for all u128 inputs the result is floor(left*right/divisor) when that fits 128 bits, Overflow when it does not, DivisionByZero for a zero divisor; the fast and the 256-step path agree |
| `FixedPoint.LongDivide` | bins/solfrontier-mcp/src/finalize_market.rs:588-611 | the 256 shift/subtract steps with their overflow flag compute the quotient of the 256-bit product, or report that it leaves 128 bits |
| `FixedPoint.ShiftRemainder` | bins/solfrontier-mcp/src/finalize_market.rs:595-605 | although the shift may lose the top bit of the remainder, the subtraction is decided and computed exactly |
| `RateCurve.Units` | bins/solfrontier-mcp/src/finalize_market.rs:541-556 | rates are fractions of 10^18, of which a percent is a hundredth and a basis point a hundredth of that |
| `RateCurve.ConfigValidIff` | bins/solfrontier-mcp/src/finalize_market.rs:450-463 | a config is valid exactly when the curve's points ascend in both coordinates up to full utilization and the protocol takes at most everything |
| `RateCurve.CurveBounds` | bins/solfrontier-mcp/src/finalize_market.rs:482-539 | for every valid config the borrow rate lies between the minimum and the super-maximum rate |
| `RateCurve.CurveMonotone` | bins/solfrontier-mcp/src/finalize_market.rs:482-539 | the borrow rate never falls as utilization grows, across both kinks |
| `RateCurve.CurvePoints` | bins/solfrontier-mcp/src/finalize_market.rs:482-539 | the curve passes through its configured points, so two adjoining segments of positive width meet without a jump |
| `RateCurve.CurveInPercent` | bins/solfrontier-mcp/src/finalize_market.rs:482-545 | in percent of 10^18: no utilization gives the minimum, the optimal utilization the optimal, the second kink the maximum and full utilization the super-maximum rate |
| `RateCurve.CurveAccuracy` | bins/solfrontier-mcp/src/finalize_market.rs:482-539 | each segment lies on or below exact linear interpolation, by less than rate_range/WAD + 1 |
| `RateCurve.UtilizationExact` | bins/solfrontier-mcp/src/finalize_market.rs:465-480 | utilization is the floored share of liquidity lent out, at most one WAD, and fails only when total liquidity leaves 128 bits |
| `RateCurve.BorrowRateExact` | bins/solfrontier-mcp/src/finalize_market.rs:482-539 | the checked computation equals the piecewise curve; its other overflow and zero-divisor branches are dead |
| `RateCurve.ZeroWidthsUnreachable` | bins/solfrontier-mcp/src/finalize_market.rs:470-530 | the guards against zero weight denominators and zero liquidity never fire |
| `RateCurve.SupplyAprExact` | bins/solfrontier-mcp/src/finalize_market.rs:435-556 | supply APR fails exactly on an invalid config or on liquidity overflow, and otherwise is the curve times utilization after the protocol's take |
| `RateCurve.FullyLentOut` | bins/solfrontier-mcp/src/finalize_market.rs:435-448 | with everything lent out suppliers earn exactly the super-maximum rate less the protocol's share, in basis points of 10^18 |
| `RateCurve.NothingEarned` | bins/solfrontier-mcp/src/finalize_market.rs:435-448 | nothing is earned when nothing is lent out or the protocol takes everything |
| `RateCurve.SupplyAprMonotone` | bins/solfrontier-mcp/src/finalize_market.rs:435-448 | supply APR does not fall when more is borrowed or less is available |
| `ReserveAccount.NativeSupplyAprIff` | bins/solfrontier-mcp/src/finalize_market.rs:359-414 | which 619-byte accounts yield a rate, and that the basis points are the floored full-precision rate, at most 10000 |
| `ReserveAccount.NoRateTellsWhy` | bins/solfrontier-mcp/src/finalize_market.rs:359-373 | each of the three errors is given exactly for its own reason: no reserve account, no value of the curve, a rate of 10001 basis points or more |
| `ReserveAccount.AccountDecodes` | bins/solfrontier-mcp/src/finalize_market.rs:395-426 | an account laid out field after field, whatever lies in between, decodes to exactly its fields, and only with a valid stale flag |
| `ReserveAccount.WrittenIsRead` | bins/solfrontier-mcp/src/finalize_market.rs:416-426 | an amount written little-endian at an offset is the amount read back |
| `Codecs.EncodeHexLower` | bins/solfrontier-mcp/src/finalize.rs:680-688 | the appending encoder computes the lowercase rendering |
| `Codecs.HexDecodesBack` | bins/solfrontier-mcp/src/finalize.rs:680-688 | decoding the lowercase rendering of any bytes gives the bytes back |
| `Codecs.DecodeRuleIdInPlace` | bins/solfrontier-mcp/src/funding.rs:1085-1099 | the in-place decoder of the funding tool equals its specification |
| `Codecs.DecodeRuleIdIff` | bins/solfrontier-mcp/src/watch_execute.rs:163-172 | the lowercase-only decoders accept exactly the canonical renderings of 16-byte ids and return the rendered id |
| `Codecs.UuidFormsAgree` | bins/solfrontier-mcp/src/status.rs:254-281 | upper or lower case, with or without hyphens and surrounding whitespace, all resolve to the same id |
| `Codecs.ResolvedIsCanonical` | bins/solfrontier-mcp/src/status.rs:254-281 | a resolved reference is its id's canonical text, resolves to itself, and the other decoders agree |
| `Codecs.ResolveIff` | bins/solfrontier-mcp/src/status.rs:254-281 | a reference resolves to an id exactly when, trimmed, it is that id's text in some letter case with all hyphens or none |
| `Codecs.V4UuidIff` | bins/solfrontier-mcp/src/finalize.rs:674-678 | exactly the four spellings of a version-4 UUID pass |
| `Codecs.VerbatimIff` | bins/solfrontier-mcp/src/finalize.rs:442-456 | a byte is left as it is exactly when it is the code of an unreserved character (section 2.3 of RFC 3986) |
| `Codecs.PercentRoundTrip` | bins/solfrontier-mcp/src/finalize.rs:442-456 | percent-encoding of any bytes decodes back and uses only unreserved characters and uppercase triplets (sections 2.1 and 2.3 of RFC 3986) |
| `Codecs.PercentEncodeFragmentComponent` | bins/solfrontier-mcp/src/finalize.rs:442-456 | the byte-by-byte encoder computes that encoding |
| `Codecs.LittleEndianRoundTrip` | bins/solfrontier-mcp/src/finalize.rs:562-564 | little-endian bytes of a number in range denote the number |
| `Proposals.ParseUsdcAmountToRaw` | bins/solfrontier-mcp/src/propose.rs:402-462 | the parser, padding loop and overflow checks included, computes its specification |
| `Proposals.ParseOkIff` | bins/solfrontier-mcp/src/propose.rs:399-462 | a number comes out exactly for a trimmed unsigned decimal with at most six fraction digits whose exact value in millionths is that number, above 0 and below 2^64 |
| `Proposals.ParseRendered` | bins/solfrontier-mcp/src/propose.rs:399-462 | parsing undoes the six-decimal rendering of every amount |
| `Proposals.DraftIff` | bins/solfrontier-mcp/src/propose.rs:296-336 | exactly which proposals become which drafts: 0.1 to 1 USDC, 1 to 10000 basis points, 180 seconds, the pinned accounts, a message that is not blank |
| `Proposals.RejectionIsFirstError` | bins/solfrontier-mcp/src/propose.rs:296-336 | a rejected proposal is told the first thing that is wrong with it |
| `Submission.PollFinalized` | bins/solfrontier-mcp/src/watch_submission.rs:107-157 | ends at the first stopping round, with a terminal answer exactly if that round heard the finalized commitment within two minutes, after at most 16 status queries |
| `Submission.TerminalIff` | bins/solfrontier-mcp/src/watch_submission.rs:107-233 | a terminal answer comes exactly when a status with finalized commitment, and not processed or confirmed, is reached in time, and it is that observation's own success or failure |
| `Submission.UnknownTellsWhy` | bins/solfrontier-mcp/src/watch_submission.rs:107-157 | an unknown outcome says why: time was up, or four rounds in a row had no client or no answer |
| `Submission.NonFinalErrorsLeaveNoTrace` | bins/solfrontier-mcp/src/watch_submission.rs:171-191 | what non-final observations said about errors changes neither when polling ends nor how |
| `Submission.GivingUp` | bins/solfrontier-mcp/src/watch_submission.rs:118-153 | the running error counter gives up exactly on four failed rounds in a row |
| `Submission.StopsOnce` | bins/solfrontier-mcp/src/watch_submission.rs:107-157 | the stopping round, hence the outcome, is determined by the streams |
| `Submission.SubmitOnceAndObserve` | bins/solfrontier-mcp/src/watch_submission.rs:53-105 | at most one send per call; 'not broadcast' is reported exactly when nothing was sent |
| `StateStore.Store.WriteFunding` | crates/state-store/src/stage2_w5h_funding.rs:321-579 | one status-guarded update: the new table and the affected-row answer, also when the call errors before or after applying |
| `StateStore.Store.CompleteRule` | crates/state-store/src/stage2_watch_rules.rs:455-475 | completing a rule hits whenever the row exists |
| `StateStore.Store.InsertFunding` | crates/state-store/src/stage2_w5h_funding.rs:190-243 | an insert never overwrites a row |
| `StateStore.Store.InsertRule` | crates/state-store/src/stage2_watch_rules.rs:143-189 | an insert never overwrites a rule |
| `StateStore.Store.GetRule` | crates/state-store/src/stage2_watch_rules.rs:757-813 | reading recomputes the hash and rejects a drifted row |
| `StateStore.WritesFollowEdges` | crates/state-store/src/stage2_w5h_funding.rs:316-579 | every allowed write follows a lifecycle edge, leaves no terminal state, and keeps the row's terms |
| `StateStore.LeasesExclude` | crates/state-store/src/stage2_w5h_funding.rs:402-528 | execution and refund lease exclude each other |
| `StateStore.EveryEdgeHasAWrite` | crates/state-store/src/stage2_w5h_funding.rs:316-579 | and conversely, a row can be taken along every edge of the lifecycle by some write |
| `StateStore.TerminalIff` | crates/state-store/src/stage2_w5h_funding.rs:110-120 | exactly the four terminal states allow no write |
| `StateStore.DeadlineDecides` | crates/state-store/src/stage2_w5h_funding.rs:402-528 | a reserved row can be executed exactly before its deadline, and expired or refunded exactly from then on |
| `StateStore.SignatureBinds` | crates/state-store/src/stage2_w5h_funding.rs:321-400 | a submitted row is confirmed or rejected only under its own signature |
| `StateStore.WritesRecord` | crates/state-store/src/stage2_w5h_funding.rs:321-579 | each write records what it is given in its own column and leaves the others |
| `StateStore.InsertsAreFresh` | crates/state-store/src/stage2_w5h_funding.rs:190-243 | inserted rows wait for funding unsigned, inserted rules are active, unused and intact |
| `Execution.ExecutionState.LeaseAfterFinalRevalidation` | bins/solfrontier-mcp/src/watch_execution_state.rs:206-220 | acquired exactly when the row was reserved and unexpired and the answer arrived |
| `Execution.ExecutionState.ReleasePrebroadcastFailure` | bins/solfrontier-mcp/src/watch_execution_state.rs:224-238 | the release write and its outcome |
| `Execution.ExecutionState.MarkOnchainFailed` | bins/solfrontier-mcp/src/watch_execution_state.rs:242-256 | the failure write touches the funding row only |
| `Execution.ExecutionState.MarkFinalized` | bins/solfrontier-mcp/src/watch_execution_state.rs:264-305 | rule first, funding second; no funding write without an acknowledged rule write; a funding failure always reports the rule as completed |
| `Execution.ExecuteRevalidatedCandidate` | bins/solfrontier-mcp/src/watch_execute.rs:317-434 | the orchestration performs exactly the writes of the state machine run to its end and returns that report; the 'invariant broken' status is never returned |
| `Execution.ReportRelease` | bins/solfrontier-mcp/src/watch_execute.rs:463-487 | the release path and its report |
| `Execution.UndisturbedAttempt` | bins/solfrontier-mcp/src/watch_execute.rs:317-563 | for every answer of review and network, the tables an undisturbed attempt leaves and the report it gives; only a lost audit aborts the cycle |
| `Execution.FailedWritesAreReported` | bins/solfrontier-mcp/src/watch_execute.rs:463-563 | a failing store call is reported as the write that failed, with the signature if something was sent |
| `FundingProof.VerifiedIffPaid` | bins/solfrontier-mcp/src/funding.rs:606-745 | the chain of early returns accepts exactly the transactions meeting the whole payment conjunction: success, memo, signer, derived accounts, exact transfer, both balance deltas |
| `FundingProof.DiagnosisIsTrue` | bins/solfrontier-mcp/src/funding.rs:695-717 | without an exact transfer the diagnosis names a field in which the first transfer really differs |
| `FundingProof.DiagnosisIsFirstDifference` | bins/solfrontier-mcp/src/funding.rs:695-717 | and it is the first such field in the order mint, source, destination, authority, amount, decimals |
| `FundingProof.TransferIff` | bins/solfrontier-mcp/src/funding.rs:631-644 | a transfer counts exactly when it is the one expected transfer of the row: accounts, USDC, wallet, amount and six decimals |
| `FundingProof.AtasDeriveIff` | bins/solfrontier-mcp/src/funding.rs:679-693 | the stored accounts pass exactly when both are the ones derived for the stored wallets |
| `FundingProof.UnpaidTellsWhy` | bins/solfrontier-mcp/src/funding.rs:606-745 | each verification error is true of the transaction, and the early ones come first |
| `FundingProof.PaysForBothIff` | bins/solfrontier-mcp/src/funding.rs:606-745 | a payment is not exclusive: on the same accounts, what pays for one row pays for another exactly when parties and amount agree and it carries the other memo too |
| `FundingProof.SharedPaymentPaysForBoth` | bins/solfrontier-mcp/src/funding.rs:422-433 | the input that shows it: one transfer with two memos proves two rows of one wallet and amount, whatever their thresholds |
| `FundingProof.SharedPaymentMovesOnce` | bins/solfrontier-mcp/src/funding.rs:680-745 | a payment that proves two rows brings the receiving account the amount of one of them once |
| `FundingProof.SamePaymentSameParties` | bins/solfrontier-mcp/src/funding.rs:655-690 | rows with one payer account that the same payment proves agree on payer and amount, whatever their receiving accounts |
| `FundingProof.OneMemoPaysForOne` | bins/solfrontier-mcp/src/funding.rs:606-640 | a payment with a single memo pays for one intent only |
| `ConfirmFunding.ConfirmFundingJson` | bins/solfrontier-mcp/src/funding.rs:762-1075 | the tool does exactly what the state machine does, run to its end; a reserved answer names the paying transaction's slot, the arrival by block time or clock, and is late or rule-expired exactly from the deadlines on |
| `ConfirmFunding.ReservedMeans` | bins/solfrontier-mcp/src/funding.rs:762-1075 | whatever calls fail, a reserved answer means a paid row now reserved under that signature, idempotent exactly if it was reserved before |
| `ConfirmFunding.AnswersBeforeReading` | bins/solfrontier-mcp/src/funding.rs:774-842 | which answer is given before any transaction is read, for which parameters, row, rule and status |
| `ConfirmFunding.AnswersAfterReading` | bins/solfrontier-mcp/src/funding.rs:844-967 | which answer follows which reading; without a reservation nothing is written |
| `ConfirmFunding.UnreadableIsStoreFailure` | bins/solfrontier-mcp/src/funding.rs:789-800 | a row or rule that cannot be read is a store failure and nothing is written |
| `FundingAnswers.ReservedAnswersTellDeadlines` | bins/solfrontier-mcp/src/funding.rs:1022-1075 | in every run, lost races included, a reserved answer is late exactly by the stored row's deadline and rule-expired exactly by the stored rule's |
| `ConfirmFunding.ResolveTransitionRace` | bins/solfrontier-mcp/src/funding.rs:970-1019 | a lost race is answered reserved exactly when the row is reserved with this signature, retryable exactly when submitted with it, raced away for any other readable row, and always with the stored slot first |
| `ConfirmFunding.RetryReachesReserved` | bins/solfrontier-mcp/src/funding.rs:762-967 | an undisturbed retry with the same verified signature reserves the row from wherever an earlier attempt stopped, and touches no other row |
| `ConfirmFunding.SharedPaymentReservesBoth` | crates/state-store/src/stage2_w5h_funding.rs:321-400 | two confirmations with one signature whose transaction carries both memos reserve both rows |
| `LifecycleInvariant.StepKeepsInvariant` | bins/solfrontier-mcp/src/watch_execute.rs:317-434 | every action of watchers, confirmations, other writers, crashes and inserts keeps the system invariant |
| `LifecycleSafety.AtMostOneSend` | bins/solfrontier-mcp/src/watch_execute.rs:317-487 | sendTransaction is invoked at most once per intent over every interleaving, crash, half-failed store call and lost send answer |
| `LifecycleSafety.OneLeaseHolder` | bins/solfrontier-mcp/src/watch_execute.rs:340-357 | at most one watcher per intent is past the lease, and the row is executing while one is |
| `LifecycleSafety.NoWayBackAfterSend` | bins/solfrontier-mcp/src/watch_submission.rs:1-9 | once a send was invoked the row is never reserved, leased, expired or refunded again and the send stays the only one |
| `LifecycleSafety.SendsArePaidFor` | bins/solfrontier-mcp/src/funding.rs:865-967 | nothing is sent for an intent unless the transaction on record for its own funding signature pays for its row |
| `Payments.PaymentsWereRead` | bins/solfrontier-mcp/src/funding.rs:845-905 | a payment gets on record only when a confirmation for that intent and signature was handed that transaction and verified it against the row |
| `Payments.DistinctPaymentsUnlessBothMemos` | bins/solfrontier-mcp/src/funding.rs:606-745 | in every run, two rows funded by one signature are one row or its transaction carries both memos, never a single one; with one payer account they agree on payer and amount, with one receiving account on the amount, which arrived once |
| `LifecycleSafety.RefundedOrSentNotBoth` | crates/state-store/src/stage2_w5h_funding.rs:15-22 | a refund and a send exclude each other |
| `LifecycleSafety.CompletedIsTrue` | bins/solfrontier-mcp/src/watch_execution_state.rs:258-305 | a completed row has a completed rule, and its execution signature is the one sent and was observed finalized without error |
| `LifecycleSafety.FailedIsTrue` | bins/solfrontier-mcp/src/watch_execution_state.rs:240-256 | a row failed by execution had its one transaction observed finalized with an error |
| `Stranding.StrandedForEver` | crates/state-store/src/stage2_w5h_funding.rs:402-470 | once a row is executing with nobody holding its lease, every continuation of the run leaves it exactly as it is |
| `Stranding.StuckIffStranded` | bins/solfrontier-mcp/src/watch_execute.rs:317-487 | an executing row never moves again exactly when no live attempt holds its lease |
| `Stranding.CrashStrands` | bins/solfrontier-mcp/src/watch_execute.rs:330-434 | a crash of the lease holder strands its row |
| `Stranding.LostLeaseStrands` | bins/solfrontier-mcp/src/watch_execution_state.rs:206-220 | so does a lease call that takes effect and then errs |
| `LifecycleSafety.ReportsFitTheStore` | bins/solfrontier-mcp/src/watch_execute.rs:378-563 | every label of a finished attempt's report is true of the store at that step |
| `LifecycleSafety.RefusedLeaseIsTrue` | bins/solfrontier-mcp/src/watch_execution_state.rs:204-220 | a lease is granted exactly to a reserved, unexpired row; a refused attempt changes nothing |
| `LifecycleSafety.MissedWritesUnreachable` | bins/solfrontier-mcp/src/watch_execute.rs:503-563 | a lease holder's acknowledged writes always hit; the 'invariant broken' report is unreachable |
| `LifecycleSafety.FundingSignatureIsForever` | bins/solfrontier-mcp/src/funding.rs:916-950 | a row's funding signature, once set, never changes |
| `LifecycleSafety.ReservedAnswerIsTrue` | bins/solfrontier-mcp/src/funding.rs:762-967 | an answer budget_reserved is true: the row was reserved with the answered signature, and the transaction on record for that signature pays for the row |
| `LifecycleSafety.RejectionWritesNothing` | bins/solfrontier-mcp/src/funding.rs:762-905 | every step that a rejected confirmation took in the whole run left both tables exactly as they were |
| `LifecycleSafety.RulesStayIntact` | crates/state-store/src/stage2_watch_rules.rs:143-189 | every stored rule passes the integrity check of reading, in every run |
| `LifecycleSafety.RunsGrow` | crates/state-store/src/stage2_w5h_funding.rs:321-579 | continuing a run takes back no row, terms, signature, terminal status, completed rule, send or observation |
| `LifecycleSafety.RetryAfterAnyRun` | bins/solfrontier-mcp/src/funding.rs:758-967 | after any run, crashes between the two writes included, one undisturbed retry reserves a row still waiting for this payment |
| `LifecycleSafety.ConfirmAloneIsSolo` | bins/solfrontier-mcp/src/funding.rs:762-967 | a confirmation left alone in the interleaved system is the sequential tool |
| `LifecycleSafety.WatcherMoveIsSolo` | bins/solfrontier-mcp/src/watch_execute.rs:317-434 | a watcher's move is the matching step of the sequential attempt |
| `LifecycleSafety.SubmitThenPollIsSolo` | bins/solfrontier-mcp/src/watch_submission.rs:53-105 | send and poll together are the one call 'submit and observe' |
| `Lifecycle.VerdictIsPollResult` | bins/solfrontier-mcp/src/watch_submission.rs:107-157 | every verdict of the polling loop is one of the poll steps of the system |
| `Progress.WaitingRowCanBeFunded` | bins/solfrontier-mcp/src/funding.rs:762-967 | from any run, one undisturbed confirmation reserves a row waiting for its payment |
| `Progress.ReservedRowCanBeExecuted` | bins/solfrontier-mcp/src/watch_execute.rs:317-434 | from any run, one undisturbed attempt completes a reserved row and its rule with its one signature |
| `Progress.ExpiredRowCanBeRefunded` | crates/state-store/src/stage2_w5h_funding.rs:476-560 | from any run, a reserved row past its deadline can be expired and refunded |
| `CandidateReports.CascadeIsMostUrgent` | crates/executor/src/report.rs:169-259 | the cascade of tests picks the most urgent class among the findings |
| `CandidateReports.ReadyIffNoFindings` | crates/executor/src/report.rs:169-259 | ready means no finding at all |
| `CandidateReports.ClassificationIgnoresOrder` | crates/executor/src/report.rs:169-259 | neither order nor multiplicity of findings matters |
| `CandidateReports.FractionsCount` | crates/executor/src/condition.rs:10-18 | how the full-precision test differs from comparing whole basis points, for all four comparisons |
| `CandidateReports.CompareIsExact` | crates/executor/src/condition.rs:3-18 | the integer test compares the two fractions of 10^18 and 10^4 exactly |
| `CandidateFindings.StaticFindingsIff` | crates/executor/src/candidate.rs:167-487 | a finding is in the static report exactly when its own condition holds, code by code |
| `CandidateFindings.StaticReportAgrees` | crates/executor/src/candidate.rs:366-402 | the report's flags say what its findings say, and its figures are the row's, the rule's and the clocks' |
| `CandidateFindings.StaticConditionAgrees` | crates/executor/src/candidate.rs:341-364 | the condition is reported exactly if it is of the reviewed kind, with its threshold as a fraction of 10^18 |
| `CandidateFindings.ChainFindingsIff` | crates/executor/src/candidate.rs:494-690 | likewise for the chain phase; the rate is judged only for a reserve with nothing wrong |
| `CandidateFindings.FinalReportAgrees` | crates/executor/src/candidate.rs:494-690 | the final report's flags, ages and observed rate agree with its findings at the later clocks |
| `Candidates.PreflightCandidate` | crates/executor/src/candidate.rs:167-402 | the pushing code reports every applicable blocker in order, for all four join shapes |
| `Candidates.PushCondition` | crates/executor/src/candidate.rs:404-487 | the condition is supported exactly when none of its own checks fails, although the test looks at all findings |
| `Candidates.NeedsChainIffReady` | crates/executor/src/candidate.rs:167-402 | the chain is read exactly when the whole static conjunction holds |
| `Candidates.MissingPartsLeaveFindings` | crates/executor/src/candidate.rs:391-401 | a missing action or condition always leaves a finding |
| `Candidates.ValidateChain` | crates/executor/src/candidate.rs:494-716 | a plan comes out exactly when accounts, tokens, freshness, later deadlines and the full-precision condition all hold; the report is ready exactly then |
| `Candidates.ValidateCandidate` | crates/executor/src/candidate.rs:167-716 | end to end: a plan exactly under the full two-phase conjunction, carrying the one approved amount, program, mint, account and wallet |
| `EndToEnd.ExpiryIsForEver` | crates/executor/src/candidate.rs:324-346 | over every continuation of a joint run, an intent past a deadline is blocked by both phases at every later reading of the clocks, and past its own deadline it cannot be leased |
| `Policy.EvaluateAt` | crates/risk-engine/src/policy.rs:184-234 | a failed simulation decides first, then the first matching rule, then a human; with the matching index |
| `PolicyConditions.VerdictsFollowActions` | crates/risk-engine/src/policy.rs:375-401 | only an approving rule approves, only a rejecting one rejects, and the verdict names its rule |
| `PolicyConditions.ListConditions` | crates/risk-engine/src/policy.rs:236-320 | the list conditions in terms of the sets of programs, mints and accounts used |
| `PolicyConditions.ListedAmountMatches` | crates/risk-engine/src/policy.rs:339-357 | listed transfers are judged by their exact total |
| `PolicyConditions.SpentAmountMatches` | crates/risk-engine/src/policy.rs:359-374 | without listed transfers the wallet's simulated loss besides the fee is judged |
| `PolicyConditions.HoursIff` | crates/risk-engine/src/policy.rs:34-63 | the allowed hours are those of the local day, past midnight if the window wraps, on the allowed weekdays |
| `Policy.SaturationIsFaithful` | crates/risk-engine/src/policy.rs:339-357 | the saturating sum passes a threshold exactly when the true sum does |
| `Policy.WrappedTotalIsModular` | crates/risk-engine/src/policy.rs:289-299 | the token sum of an optimized build is the true sum modulo 2^64 |
| `Policy.SessionRulesTakePrecedence` | crates/risk-engine/src/policy.rs:114-127 | session rules decide if any matches, otherwise the set answers as without them |
| `ExecutionPolicy.ApprovedIff` | bins/solfrontier-mcp/src/watch_wallet.rs:481-546 | first match over the six rules is one conjunction: simulated, allowlisted, no legacy transfer, only USDC, and the computed sum within the canonical amount |
| `ExecutionPolicy.RejectionNamesFirstTest` | bins/solfrontier-mcp/src/watch_wallet.rs:481-546 | a rejection names the first of the five tests that fails |
| `ExecutionPolicy.CapIsExactBelowTwo64` | bins/solfrontier-mcp/src/watch_wallet.rs:521-531 | while the total fits 64 bits the cap holds for the true total |
| `ExecutionPolicy.CapFailsIffWrapped` | bins/solfrontier-mcp/src/watch_wallet.rs:521-531 | an approval exceeds the canonical amount if and only if the total reached 2^64 |
| `ExecutionPolicy.WrappedSumExample` | bins/solfrontier-mcp/src/watch_wallet.rs:521-531 | such a summary exists |
| `ExecutionPolicy.ValidateAndSummarize` | bins/solfrontier-mcp/src/watch_wallet.rs:548-681 | exactly which transactions are accepted, with one faithful summary per instruction |
| `ExecutionPolicy.AcceptedIsApproved` | bins/solfrontier-mcp/src/watch_wallet.rs:481-681 | every accepted transaction that simulates successfully is approved by the last rule, except for the one amount that has no policy |
| `ExecutionPolicy.SummaryAccounts` | bins/solfrontier-mcp/src/watch_wallet.rs:617-668 | a summary lists every account of its instruction in order and no movement of lamports |
| `DepositBuilder.AcceptedIff` | bins/solfrontier-mcp/src/watch_wallet.rs:548-615 | which transactions are accepted, with indices resolved: 400000 compute units at 50000 micro-lamports, a refresh, and a deposit of the canonical amount between the canonical accounts |
| `DepositBuilder.BuiltIsAccepted` | bins/solfrontier-mcp/src/watch.rs:1097-1162 | what the builder builds for a validated plan is accepted, with any blockhash |
| `DepositBuilder.AcceptedIffBuilt` | bins/solfrontier-mcp/src/watch_wallet.rs:548-690 | for a validated plan the validator accepts exactly the builder's transaction, whatever its blockhash |
| `DepositBuilder.DepositFollowsPlan` | crates/protocols/src/solend/deposit.rs:46-84 | the deposit's accounts in the program's order, into the reserve refreshed just before, with the same oracles |
| `WalletReview.CapturingSigner.SignTransaction` | bins/solfrontier-mcp/src/watch_wallet.rs:431-461 | a capture exactly of an unchanged, serializable message into an empty slot |
| `WalletReview.CapturingSigner.TakeCapture` | bins/solfrontier-mcp/src/watch_wallet.rs:416-422 | the slot is emptied by taking |
| `WalletReview.EmitAudit` | bins/solfrontier-mcp/src/watch.rs:1194-1217 | an audit record is written exactly for the builder's message with a fresh blockhash and empty signatures |
| `WalletReview.ReviewAndSign` | bins/solfrontier-mcp/src/watch_wallet.rs:271-394 | exactly when a review yields a signed transaction, and which; the key is used only after an audit record of that same message and only for a transaction past every check |
| `WalletReview.OutcomeIffNoError` | bins/solfrontier-mcp/src/watch_wallet.rs:271-394 | a review fails exactly when it has a first failing stage, which is the error it reports |
| `WalletReview.SubmissionIff` | bins/solfrontier-mcp/src/watch_wallet.rs:210-242 | the last check passes exactly verified bytes that say the approved message under the reported signature in the signer's slot |
| `WalletReview.RefusedTellsWhy` | bins/solfrontier-mcp/src/watch_wallet.rs:210-242 | and each refusal is true |
| `WalletReview.SubmittedIsApproved` | bins/solfrontier-mcp/src/watch_wallet.rs:210-242 | bytes past the last check decode to the approved message with the reported signature of the controlled wallet |
| `WalletReview.AcceptedIsBuilders` | bins/solfrontier-mcp/src/watch_wallet.rs:683-690 | an accepted message is the builder's with only the blockhash changed |
| `WalletReview.ReviewSignAndTake` | bins/solfrontier-mcp/src/watch_execute.rs:213-277 | from builder to network: submitted bytes decode to the builder's message, blockhash aside, and that message was audited before the key was used |
| `ExecuteCycle.ExecuteReadyIntentIds` | bins/solfrontier-mcp/src/watch_execute.rs:70-89 | ids come out exactly from an error-free scan whose ready rows carry distinct ids, in report order; otherwise the first bad id decides the error |
| `ExecuteCycle.RevalidatedMeans` | bins/solfrontier-mcp/src/watch_execute.rs:92-161 | an extracted candidate is the expected intent, its rule id's canonical text, one positive amount |
| `ExecuteCycle.RevalidatedIff` | bins/solfrontier-mcp/src/watch_execute.rs:92-161 | a candidate is extracted exactly from an inspection that shows it: named, ready by both clocks, one plan and report, one positive amount on every side |
| `ExecuteCycle.NotRevalidatedTellsWhy` | bins/solfrontier-mcp/src/watch_execute.rs:92-161 | when the row counts as missing and when as malformed |
| `ExecuteCycle.ValidatedPlanRevalidates` | bins/solfrontier-mcp/src/watch_execute.rs:92-161 | a plan the validator produced always revalidates to its own row, rule and amount |
| `ExecuteCycle.RunCycle` | bins/solfrontier-mcp/src/watch.rs:445-493 | attempts follow the id order after fresh passing inspections, and nothing is attempted after a lost audit or report |
| `Sidecar.IntentSidecar.ClaimDraft` | bins/solfrontier-mcp/src/sidecar.rs:198-234 | the claim, its state changes and faults |
| `Sidecar.IntentSidecar.IndexHash` | bins/solfrontier-mcp/src/sidecar.rs:243-297 | the indexing, its state changes and faults |
| `Sidecar.IntentSidecar.LookupHash` | bins/solfrontier-mcp/src/sidecar.rs:304-327 | the lookup; it never creates the file |
| `Sidecar.ClaimOutcomes` | bins/solfrontier-mcp/src/sidecar.rs:499-537 | a claim is told the truth: free, consumed by this draft, taken by another, or not served |
| `Sidecar.ClaimRecords` | bins/solfrontier-mcp/src/sidecar.rs:499-537 | and it records exactly a free id, also when its answer is lost |
| `Sidecar.IndexOutcomes` | bins/solfrontier-mcp/src/sidecar.rs:539-582 | an index call is told the truth about hash, intent and draft, and adds exactly a free pair of a claimed draft |
| `Sidecar.LookupOutcomes` | bins/solfrontier-mcp/src/sidecar.rs:304-361 | a lookup is told the truth about its hash and changes no table and no file |
| `Sidecar.FirstUse` | bins/solfrontier-mcp/src/sidecar.rs:329-386 | a first claim that could not look for the file may be repeated; any other failed opening ends the instance's service |
| `Sidecar.SpellingsShareTombstone` | bins/solfrontier-mcp/src/sidecar.rs:636-661 | exactly the compact and the hyphenated lowercase spelling of an id share its tombstone |
| `Sidecar.CallsKeepTables` | bins/solfrontier-mcp/src/sidecar.rs:499-582 | over any calls, faults and restarts the index stays one-to-one and bound to claimed drafts, tombstones are permanent, entries never change |
| `Sidecar.ClaimedOnlyOnce` | bins/solfrontier-mcp/src/sidecar.rs:499-537 | a draft claimed once is never claimed again |
| `Sidecar.UnavailableAbsorbs` | bins/solfrontier-mcp/src/sidecar.rs:162-171 | an unavailable instance refuses every later call and leaves the tables alone |
| `Sidecar.FoundWasIndexed` | bins/solfrontier-mcp/src/sidecar.rs:236-327 | over any calls, faults and restarts from an empty file, a found intent was inserted by an index call naming that hash and intent, on an open instance, not lost on the way |
| `Sidecar.ErrorsCloseTheInstance` | bins/solfrontier-mcp/src/sidecar.rs:280-296 | a conflict or storage error while indexing, and nothing else, closes the instance |
| `Finalize.DeriveRuleIdInPlace` | bins/solfrontier-mcp/src/finalize.rs:557-567 | the buffer filled slice by slice is the derived id |
| `Finalize.RuleIdInjective` | bins/solfrontier-mcp/src/finalize.rs:557-567 | the id determines threshold and amount |
| `Finalize.SidecarReadsLowercaseOnly` | bins/solfrontier-mcp/src/sidecar.rs:636-661 | a draft id past the version-4 check is refused by the sidecar exactly when it is braced, a URN, or not all lowercase |
| `Finalize.ClaimableIff` | bins/solfrontier-mcp/src/finalize.rs:203-228 | a call with such an id gets past its claim for some stores and inputs exactly when the id is spelled that way; otherwise it always ends with the sidecar unavailable and nothing changed |
| `Finalize.BracedIsRefused` | bins/solfrontier-mcp/src/finalize.rs:674-678 | such ids exist: any accepted id in braces |
| `Finalize.RecoveredRuleIsDrafts` | bins/solfrontier-mcp/src/finalize.rs:499-582 | a rule of this tool found under a draft's id is that draft's rule at the stored slot |
| `FinalizeAnswers.AdmittedIffNoObjection` | bins/solfrontier-mcp/src/finalize.rs:132-188 | a request reaches its claim exactly if nothing objects to it, and is told the first objection otherwise |
| `FinalizeAnswers.ClaimAnswers` | bins/solfrontier-mcp/src/finalize.rs:203-228 | finalized already, in conflict, unavailable or going on, by whose the draft id is and whether the sidecar could say |
| `FinalizeAnswers.OwnRuleIff` | bins/solfrontier-mcp/src/finalize.rs:253-272 | a stored rule passes exactly if it says what the draft's rule says, at its own slot, under the derived id |
| `FinalizeAnswers.RuleReadAnswers` | bins/solfrontier-mcp/src/finalize.rs:569-582 | a rule that can be neither written nor read leaves the call going on, unconfirmed |
| `FinalizeAnswers.IdentityIff` | bins/solfrontier-mcp/src/finalize.rs:618-660 | exactly which stored rows belong to a built rule |
| `FinalizeAnswers.AnswersForRow` | bins/solfrontier-mcp/src/finalize.rs:306-423 | actionable exactly if the rule is confirmed, the row belongs to it and to the requester, and waits before its deadline; each other answer under its own condition |
| `FinalizeAnswers.NewDraftIsActionable` | bins/solfrontier-mcp/src/finalize.rs:120-423 | the ordinary first call: an undisturbed call for a new draft writes its rule and row and answers with funding instructions for them, at every reading before the deadline |
| `FinalizeAnswers.ConfirmedRuleIsIndexed` | bins/solfrontier-mcp/src/finalize.rs:276-304 | a confirmed rule is indexed by its hash under the claimed draft if hash and intent were free |
| `FinalizeProgress.NewDraftCanBeFinalized` | bins/solfrontier-mcp/src/finalize.rs:120-423 | and so from any run of the finalize system |
| `FinalizeProgress.CrashesAndRestarts` | bins/solfrontier-mcp/src/sidecar.rs:162-188 | crashes and restarts end calls, touch no store, and reopen the sidecar |
| `FinalizeProgram.FinalizeIntentJson` | bins/solfrontier-mcp/src/finalize.rs:120-423 | the tool performs exactly the writes of the state machine run to its end; every rejection before the claim leaves all stores unchanged |
| `FinalizeSafety.ClaimedAtMostOnce` | bins/solfrontier-mcp/src/finalize.rs:203-228 | each draft id passes the claim at most once over every interleaving |
| `FinalizeSafety.NothingIsAltered` | bins/solfrontier-mcp/src/finalize.rs:569-616 | no row's terms or deadline, no rule, tombstone or index entry is ever altered |
| `FinalizeSafety.CallsOnlyInsert` | bins/solfrontier-mcp/src/finalize.rs:569-616 | a finalize step leaves every existing row and rule exactly as it is |
| `FinalizeHistory.EarlyRejectionsWriteNothing` | bins/solfrontier-mcp/src/finalize.rs:132-195 | every step that a call rejected before the claim took in the whole run left rows, rules and sidecar exactly as they were |
| `FinalizeSafety.ActionableIsTrue` | bins/solfrontier-mcp/src/finalize.rs:346-423 | an actionable answer quotes a persisted row of the requester's wallet whose hash is a stored rule's and whose deadline lies ahead |
| `FinalizeHistory.ActionableAnswersAwaitFunding` | bins/solfrontier-mcp/src/finalize.rs:361-385 | for every actionable answer in a run there is the step that gave it, with the quoted row there, funding_required and before its deadline |
| `FinalizeSafety.NoRuleConflict` | bins/solfrontier-mcp/src/finalize.rs:253-272 | existing_rule_conflict cannot arise in a store written by this tool |
| `FinalizeSafety.IndexAlwaysAgrees` | bins/solfrontier-mcp/src/finalize.rs:276-304 | every index entry is the hash of the stored rule it points to |
| `FinalizeSafety.IndexNeverConflicts` | bins/solfrontier-mcp/src/sidecar.rs:539-582 | with a collision-free hash, indexing a stored rule never conflicts |
| `FinalizeHistory.MismatchedIff` | bins/solfrontier-mcp/src/finalize.rs:569-582 | a row does not carry its stored rule's hash exactly when a call that could not confirm its rule wrote it and no rule, or one of another slot, is stored under the id |
| `FinalizeHistory.MismatchedRowsAreUnconfirmed` | bins/solfrontier-mcp/src/finalize.rs:306-345 | the call that wrote such a row is known, and if it was answered then as unconfirmed or with a store failure, never as actionable |
| `FinalizeHistory.MismatchArises` | bins/solfrontier-mcp/src/finalize.rs:569-582 | a run that leaves one: failed insert and read-back, then a second draft of the same threshold and amount at another slot |
| `StatusQuery.QueryIntentStatus` | bins/solfrontier-mcp/src/status.rs:59-121 | the tool computes the query on the sidecar's answer and changes only the sidecar instance's state |
| `StatusQuery.IdQueryTells` | bins/solfrontier-mcp/src/status.rs:123-252 | a query by id tells the row's own status, hash, amount and times, the rule's without a row, and nothing without either |
| `StatusQuery.UnsupportedTellsWhy` | bins/solfrontier-mcp/src/status.rs:59-121 | an unsupported reference is told why and nothing else |
| `StatusQuery.HashQueryRefinesIdQuery` | bins/solfrontier-mcp/src/status.rs:59-310 | whatever the sidecar answers, a hash query is unsupported or the same as the id query apart from the echoed reference, and the stored rule hashes to the queried value |
| `StatusQuery.HashQuerySupportedIff` | bins/solfrontier-mcp/src/status.rs:283-310 | supported exactly when the sidecar names an intent that both tables confirm |
| `StatusQuery.IndexedHashesResolve` | bins/solfrontier-mcp/src/status.rs:59-121 | after any run of finalize calls an indexed hash is supported, unless its funding row was written for an unconfirmed rule |
| `FundedRules.FundedRowsMatch` | bins/solfrontier-mcp/src/funding.rs:806-862 | in every run, a row with a funding signature has a stored rule that agrees with it in id, hash, amount and controlled wallet |
| `FundedRules.SendsMatchTheirRules` | bins/solfrontier-mcp/src/watch_submission.rs:53-105 | nothing is ever sent for a row that does not match its stored rule |
| `FundedRules.CompletedUsedItsAmount` | bins/solfrontier-mcp/src/watch_execution_state.rs:264-305 | the used amount on record for a completed intent is the rule's maximum and the amount that was funded |
| `JointRuns.JointRunsProject` | bins/solfrontier-mcp/src/watch_execution_state.rs:206-305 | any interleaving of finalize calls with confirmations, watchers and other writers is a run of the finalize system and a run of the lifecycle system over the same tables |
| `JointRuns.JointRunsExtend` | bins/solfrontier-mcp/src/finalize.rs:569-616 | continuing a joint run continues both of these runs |
| `EndToEnd.FinalizedCanBeFunded` | bins/solfrontier-mcp/src/finalize.rs:584-616 | a finalized row that still waits is reserved by an undisturbed confirmation of a transaction that pays for it |
| `EndToEnd.QuotedPaymentPays` | bins/solfrontier-mcp/src/finalize.rs:349-400 | a transaction that follows the instructions of an actionable answer, memo included, is one that confirmation accepts |
| `EndToEnd.FinalizedAsksForMore` | bins/solfrontier-mcp/src/finalize.rs:499-555 | a finalized rule's condition holds exactly for a rate strictly above the row's threshold |
| `JointProgress.DraftCanBeFunded` | bins/solfrontier-mcp/src/funding.rs:762-967 | from any joint run, a new draft can be finalized and funded by a transaction that pays for its quoted terms |
| `EndToEnd.FinalizedIsReadyInTime` | bins/solfrontier-mcp/src/finalize.rs:499-555 | for a finalized row the whole static phase of validation comes down to the two clocks: 180 seconds from the row, 480 slots from the rule, and a known slot |
| `EndToEnd.FinalizedHasPolicy` | bins/solfrontier-mcp/src/watch_wallet.rs:481-546 | every finalized amount lies between 0.1 and 1 USDC and has an execution policy |
| `EndToEnd.SentWasApprovedAndPaid` | bins/solfrontier-mcp/src/watch_execute.rs:317-434 | in every run of all tools together, what is sent is sent once, for a rule that finalize builds from an approved draft, in the approved range, agreeing with its row, whose own funding transaction pays the row's amount |
| `EndToEnd.ActionableIsHonoured` | bins/solfrontier-mcp/src/finalize.rs:387-423 | after an actionable answer, whatever follows, the row keeps the quoted terms, anything sent was paid for by its funding transaction on them, and completion means one execution of that amount |
| `WatchRuns.RunsAreJoint` | bins/solfrontier-mcp/src/watch.rs:445-493 | a run in which attempts start from checks and submit what reviews signed is a joint run |
| `WatchRuns.SentWasTraced` | bins/solfrontier-mcp/src/watch_execute.rs:213-277 | whatever is sent was sent once, by an attempt checked against the stored row and rule and signed through a review of its plan |
| `WatchDesk.CheckedMeans` | bins/solfrontier-mcp/src/watch.rs:560-800 | a passed inspection means both phases, deadlines still ahead, fresh reserve, rate condition met, and one plan for the funded amount between the controlled accounts |
| `WatchDesk.CheckedIff` | bins/solfrontier-mcp/src/watch.rs:560-800 | and an inspection passes whenever the whole of that holds |
| `WatchDesk.WellSignedPasses` | bins/solfrontier-mcp/src/watch_execute.rs:226-277 | the builder's transaction, simulated, audited and signed well, passes the whole review |
| `WatchProgress.CheckedRowCanBeExecuted` | bins/solfrontier-mcp/src/watch_execute.rs:92-487 | from any run, a reserved row whose check passes and whose review signs can be executed to completion |
| `Journey.DraftCanBeCompleted` | bins/solfrontier-mcp/src/watch_execute.rs:317-487 | from any run of all the tools together, a new draft can be finalized, funded, checked, reviewed, sent and completed for exactly its amount |
| `WatchDesk.SignedMeans` | bins/solfrontier-mcp/src/watch_execute.rs:226-277 | what a review signs is the builder's message for the plan, blockhash aside, audited, depositing the plan's amount from its source account |
| `WatchDesk.SentWasCheckedAndReviewed` | bins/solfrontier-mcp/src/watch_execute.rs:92-487 | in every run whatever is sent passed both phases of validation against the stored row and rule and is the audited, wallet-signed builder's transaction that deposits the funded amount, at a rate strictly above the threshold |

## Left out

- RPC, HTTP, SQLite, MCP wiring, environment and key loading, logging and metrics: input and output plumbing, replaced by inputs that may take any value.
- JSON parsing and rendering, human-readable reasons and detail strings: only codes and the fields they carry are modelled.
- SHA-256, canonical rule hashing, base58, token-account derivation, bincode and message compilation: library code, kept uninterpreted.
- `crates/solana-core/src/compute.rs` and `tracker.rs`: they rest on SDK code and on floating point; the execute path does its own polling.
- `parse_percent_string_to_bps`, `CostExceedsSol` and `DailySpendExceedsSol`: floating-point arithmetic.
- The scan of `watch.rs` over both tables, rule lifecycle eligibility, and the decoding of obligation and token accounts: easy members, or calls into code that is not part of this model.
- DepositBuilder.AcceptedIffBuilt: message compilation is library code; the lemma asks that it says the plan's instructions, puts the payer first and leaves the blockhash empty.
- The signing-page payload and the market snapshot's second source: assembled from fields already modelled.
- The `updated_at_ms` columns and the creation times of rule rows: written by every call, read by no decision. The mint columns of a status answer are omitted too.
- Writers of rules and funding rows other than the finalize tool (the development seeder): in joint runs only finalize inserts, as no other shipped tool does.
- EndToEnd.QuotedPaymentPays: takes for granted that the pinned texts denote the pinned keys and that the pinned token account is the derived one.
- EndToEnd.FinalizedCanBeFunded: takes for granted that the two pinned base58 texts denote the pinned keys, since base58 is uninterpreted here.
- Several server processes sharing the sidecar file, and a claim in flight while its instance turns unavailable: the finalize system has one instance, whose calls take effect one after the other.
- Payments.DistinctPaymentsUnlessBothMemos: assumes that every read of one signature shows the same transaction, as a finalized chain does; the model itself lets the network answer anything.
- WatchDesk.CheckedMeans: a row and its rule are read in one step, which loses nothing since terms and rules never change; further reasons to skip a row (rule lifecycle, unreadable accounts, a failed plan build) only remove runs.
- Finalize.SidecarReadsLowercaseOnly: the four text forms are those the uuid crate documents; its parser is library code.
- Submission.PollFinalized: assumes that a sleep lasts at least its backoff, without which the number of queries is not bounded.
- Policy.EvaluateAt: `OutsideAllowedHours` does not model an hour offset so large that its conversion to seconds wraps in 32 bits.
- WalletReview.ReviewAndSign: the capturing signer is created at the signing step instead of right after the audit; nothing can observe the difference.
- Sidecar.IntentSidecar.ClaimDraft: a failed creation of the file leaves no file, whereas the program may leave one that every later open rejects.
- Candidates.ValidateChain: a finding carries its code only, so two findings with one code are equal.
- Codecs.UuidFormsAgree: text is a sequence of characters where the program tests byte lengths; accepted texts are ASCII, where the two coincide.
