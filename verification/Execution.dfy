// Executing one revalidated candidate: lease, review and sign, submit once,
// record the result. The program is given twice: as a state machine whose
// transitions are pure functions (the interleaving model runs these), and as
// methods over the store that perform the same writes in the same order.
module Execution {
  import opened Prelude
  import opened Codecs
  import opened WatchRules
  import opened StateStore
  import opened Submission

  datatype Candidate = Candidate(intentId: string, ruleId: RuleId, amountRaw: u64)

  /** The store key of the candidate's rule. */
  function RuleKey(c: Candidate): string {
    HexLower(c.ruleId)
  }

  datatype Payload = Payload(signedBytes: bytes, signature: string, lastValidBlockHeight: u64)

  type ReviewResult = Result<Payload, ErrorClass>

  // ---- Reports --------------------------------------------------------------------

  datatype StoreErrorClass =
    | LeaseNotAcquired
    | LeaseStoreUnavailable
    | ReleaseNotApplied
    | ReleaseStoreUnavailable
    | FailureNotRecorded
    | FailureStoreUnavailable
    | RuleCompletionNotApplied
    | RuleCompletionStoreUnavailable
    | FundingCompletionNotAppliedAfterRule
    | FundingCompletionStoreUnavailableAfterRule
    | RuleCompletionEvidenceMissing

  datatype ReportError = NoError | StoreProblem(code: StoreErrorClass) | NetworkProblem(error: ErrorClass)

  datatype ReportStatus =
    | LeaseMissed
    | PrebroadcastFailureReleased
    | PrebroadcastReleaseFailed
    | ResultUnknown
    | FailedOnChainRecorded
    | OnChainFailureWriteFailed
    | CompletedAll
    | FinalizedWriteFailed
    | CompletedSplit
    | FinalizedInvariantBroken

  datatype FundingLabel =
    | SaysReserved
    | SaysUnknownOrNotReserved
    | SaysExecuting
    | SaysFailed
    | SaysExecutingOrFailed
    | SaysExecutingOrReserved
    | SaysCompleted
    | SaysExecutingOrCompleted

  datatype RuleLabel = SaysUnchanged | SaysUnchangedOrUnknown | SaysRuleCompleted | SaysRuleUnknown

  datatype Report = Report(
    intentId: string,
    amountRaw: u64,
    status: ReportStatus,
    signature: Option<string>,
    finalizedSlot: Option<u64>,
    error: ReportError,
    funding: FundingLabel,
    rule: RuleLabel,
    abortRemainingCycle: bool)

  // ---- Adapter outcomes ---------------------------------------------------------------

  datatype LeaseOutcome = Acquired | NotAcquired(leaseError: StoreErrorClass)

  datatype WriteOutcome = Applied | NotApplied(writeError: StoreErrorClass)

  datatype FinalizedWrite =
    | BothCompleted
    | RuleNotCompleted(ruleError: StoreErrorClass)
    | FundingNotCompleted(fundingError: StoreErrorClass, ruleCompleted: bool)

  function LeaseAnswer(answer: Answer): LeaseOutcome {
    match answer
    case Ok(n) => if n == 1 then Acquired else NotAcquired(LeaseNotAcquired)
    case Err(_) => NotAcquired(LeaseStoreUnavailable)
  }

  function WriteAnswer(answer: Answer, missed: StoreErrorClass, unavailable: StoreErrorClass): WriteOutcome {
    match answer
    case Ok(n) => if n == 1 then Applied else NotApplied(missed)
    case Err(_) => NotApplied(unavailable)
  }

  // ---- The program as a state machine ---------------------------------------------------

  datatype Pc =
    | AtLease
    | AtReview
    | AtSubmit(payload: Payload)
    | AtPoll(signature: string)
    | AtRelease(error: ErrorClass, abort: bool)
    | AtFail(signature: string, error: ErrorClass)
    | AtCompleteRule(signature: string, slot: u64)
    | AtCompleteFunding(signature: string, slot: u64)
    | Done(report: Report)
    | Crashed
  {
    /** Between winning the lease and the last write of the attempt. */
    predicate HoldsLease() {
      !AtLease? && !Done? && !Crashed?
    }

    /** sendTransaction has been invoked and the attempt is still under way. */
    predicate PastSend() {
      AtPoll? || AtFail? || AtCompleteRule? || AtCompleteFunding?
    }
  }

  function Base(c: Candidate): Report {
    Report(c.intentId, c.amountRaw, LeaseMissed, None, None, NoError, SaysReserved, SaysUnchanged, false)
  }

  function AfterLease(c: Candidate, answer: Answer): Pc {
    match LeaseAnswer(answer)
    case Acquired => AtReview
    case NotAcquired(error) =>
      Done(Base(c).(status := LeaseMissed, error := StoreProblem(error), funding := SaysUnknownOrNotReserved))
  }

  predicate AbortsCycle(error: ErrorClass) {
    error.ReviewSerializationFailed? || error.ReviewIntegrityFailed?
  }

  function AfterReview(result: ReviewResult): Pc {
    match result
    case Ok(payload) => AtSubmit(payload)
    case Err(error) => AtRelease(error, AbortsCycle(error))
  }

  /** What follows the network's answer; only "nothing was sent" may release. */
  function AfterNetwork(c: Candidate, outcome: NetworkOutcome): Pc {
    match outcome
    case PreBroadcastFailure(error) => AtRelease(error, false)
    case Unknown(signature, error) =>
      Done(Base(c).(status := ResultUnknown, signature := Some(signature),
                    error := NetworkProblem(error), funding := SaysExecuting))
    case OnChainFailed(signature, error) => AtFail(signature, error)
    case Finalized(signature, slot) => AtCompleteRule(signature, slot)
  }

  function ReleaseReport(c: Candidate, error: ErrorClass, abort: bool, outcome: WriteOutcome): Report {
    match outcome
    case Applied =>
      Base(c).(status := PrebroadcastFailureReleased, error := NetworkProblem(error), abortRemainingCycle := abort)
    case NotApplied(code) =>
      Base(c).(status := PrebroadcastReleaseFailed, error := StoreProblem(code),
               funding := SaysExecutingOrReserved, abortRemainingCycle := abort)
  }

  function AfterRelease(c: Candidate, error: ErrorClass, abort: bool, answer: Answer): Pc {
    Done(ReleaseReport(c, error, abort, WriteAnswer(answer, ReleaseNotApplied, ReleaseStoreUnavailable)))
  }

  function FailReport(c: Candidate, signature: string, error: ErrorClass, outcome: WriteOutcome): Report {
    match outcome
    case Applied =>
      Base(c).(status := FailedOnChainRecorded, signature := Some(signature),
               error := NetworkProblem(error), funding := SaysFailed)
    case NotApplied(code) =>
      Base(c).(status := OnChainFailureWriteFailed, signature := Some(signature),
               error := StoreProblem(code), funding := SaysExecutingOrFailed)
  }

  function AfterFail(c: Candidate, signature: string, error: ErrorClass, answer: Answer): Pc {
    Done(FailReport(c, signature, error, WriteAnswer(answer, FailureNotRecorded, FailureStoreUnavailable)))
  }

  function FinalizedReport(c: Candidate, signature: string, slot: u64, outcome: FinalizedWrite): Report {
    var base := Base(c).(signature := Some(signature), finalizedSlot := Some(slot));
    match outcome
    case BothCompleted => base.(status := CompletedAll, funding := SaysCompleted, rule := SaysRuleCompleted)
    case RuleNotCompleted(error) =>
      base.(status := FinalizedWriteFailed, error := StoreProblem(error),
            funding := SaysExecuting, rule := SaysUnchangedOrUnknown)
    case FundingNotCompleted(error, true) =>
      base.(status := CompletedSplit, error := StoreProblem(error),
            funding := SaysExecutingOrCompleted, rule := SaysRuleCompleted)
    case FundingNotCompleted(error, false) =>
      base.(status := FinalizedInvariantBroken, error := StoreProblem(RuleCompletionEvidenceMissing),
            funding := SaysExecutingOrCompleted, rule := SaysRuleUnknown)
  }

  function RuleAnswer(answer: Answer): Option<FinalizedWrite> {
    match answer
    case Ok(n) => if n == 1 then None else Some(RuleNotCompleted(RuleCompletionNotApplied))
    case Err(_) => Some(RuleNotCompleted(RuleCompletionStoreUnavailable))
  }

  function FundingAnswer(answer: Answer): FinalizedWrite {
    match answer
    case Ok(n) =>
      if n == 1 then BothCompleted else FundingNotCompleted(FundingCompletionNotAppliedAfterRule, true)
    case Err(_) => FundingNotCompleted(FundingCompletionStoreUnavailableAfterRule, true)
  }

  function AfterCompleteRule(c: Candidate, signature: string, slot: u64, answer: Answer): Pc {
    match RuleAnswer(answer)
    case None => AtCompleteFunding(signature, slot)
    case Some(outcome) => Done(FinalizedReport(c, signature, slot, outcome))
  }

  function AfterCompleteFunding(c: Candidate, signature: string, slot: u64, answer: Answer): Pc {
    Done(FinalizedReport(c, signature, slot, FundingAnswer(answer)))
  }

  // ---- The adapter over the store ----------------------------------------------------------

  /** The fault met by each store call of one attempt. */
  datatype Faults = Faults(lease: Fault, release: Fault, fail: Fault, rule: Fault, complete: Fault)

  class ExecutionState {
    const store: Store
    const faults: Faults

    constructor (store: Store, faults: Faults)
      ensures this.store == store && this.faults == faults
    {
      this.store, this.faults := store, faults;
    }

    method LeaseAfterFinalRevalidation(intentId: string, nowMs: i64) returns (outcome: LeaseOutcome)
      modifies store`funding
      ensures store.funding == After(old(store.funding), intentId, LeaseExecution(nowMs), faults.lease)
      ensures outcome.Acquired? <==>
                faults.lease.NoFault? && intentId in old(store.funding)
                && old(store.funding)[intentId].status == BudgetReserved
                && old(store.funding)[intentId].terms.expiresAtMs > nowMs
      ensures outcome == LeaseAnswer(Replied(old(store.funding), intentId, LeaseExecution(nowMs), faults.lease))
    {
      var answer := store.WriteFunding(intentId, LeaseExecution(nowMs), faults.lease);
      match answer {
        case Ok(affected) =>
          if affected == 1 {
            return Acquired;
          }
          return NotAcquired(LeaseNotAcquired);
        case Err(_) =>
          return NotAcquired(LeaseStoreUnavailable);
      }
    }

    method ReleasePrebroadcastFailure(intentId: string) returns (outcome: WriteOutcome)
      modifies store`funding
      ensures store.funding == After(old(store.funding), intentId, ReleaseLease(PrebroadcastFailed), faults.release)
      ensures outcome ==
                WriteAnswer(Replied(old(store.funding), intentId, ReleaseLease(PrebroadcastFailed), faults.release),
                            ReleaseNotApplied, ReleaseStoreUnavailable)
    {
      var answer := store.WriteFunding(intentId, ReleaseLease(PrebroadcastFailed), faults.release);
      match answer {
        case Ok(affected) =>
          outcome := if affected == 1 then Applied else NotApplied(ReleaseNotApplied);
        case Err(_) =>
          outcome := NotApplied(ReleaseStoreUnavailable);
      }
    }

    /** A finalized failure ends the funding row and leaves the rule alone. */
    method MarkOnchainFailed(intentId: string) returns (outcome: WriteOutcome)
      modifies store`funding
      ensures store.funding == After(old(store.funding), intentId, MarkFailed(OnchainFailed), faults.fail)
      ensures outcome ==
                WriteAnswer(Replied(old(store.funding), intentId, MarkFailed(OnchainFailed), faults.fail),
                            FailureNotRecorded, FailureStoreUnavailable)
    {
      var answer := store.WriteFunding(intentId, MarkFailed(OnchainFailed), faults.fail);
      match answer {
        case Ok(affected) =>
          outcome := if affected == 1 then Applied else NotApplied(FailureNotRecorded);
        case Err(_) =>
          outcome := NotApplied(FailureStoreUnavailable);
      }
    }

    /** Rule first, funding second, and no funding write without an acknowledged
        rule write: a funding failure always reports the rule as completed. */
    method MarkFinalized(c: Candidate, signature: string, slot: u64) returns (outcome: FinalizedWrite)
      modifies store`funding, store`rules
      ensures store.rules ==
                if faults.rule.LostBefore? then old(store.rules)
                else RuleWritten(old(store.rules), RuleKey(c), c.amountRaw, slot)
      ensures
        var reply := Reply(RuleAffected(old(store.rules), RuleKey(c)), faults.rule);
        match RuleAnswer(reply)
        case Some(missed) => outcome == missed && store.funding == old(store.funding)
        case None =>
          && store.funding == After(old(store.funding), c.intentId, MarkCompleted(signature), faults.complete)
          && outcome == FundingAnswer(Replied(old(store.funding), c.intentId, MarkCompleted(signature), faults.complete))
      ensures outcome.FundingNotCompleted? ==> outcome.ruleCompleted
      ensures
        outcome.BothCompleted? || outcome.FundingNotCompleted? ==>
          RuleKey(c) in store.rules && store.rules[RuleKey(c)].completed
    {
      var ruleAnswer := store.CompleteRule(RuleKey(c), c.amountRaw, slot, faults.rule);
      match ruleAnswer {
        case Ok(affected) =>
          if affected != 1 {
            return RuleNotCompleted(RuleCompletionNotApplied);
          }
        case Err(_) =>
          return RuleNotCompleted(RuleCompletionStoreUnavailable);
      }
      var answer := store.WriteFunding(c.intentId, MarkCompleted(signature), faults.complete);
      match answer {
        case Ok(affected) =>
          if affected == 1 {
            return BothCompleted;
          }
          return FundingNotCompleted(FundingCompletionNotAppliedAfterRule, true);
        case Err(_) =>
          return FundingNotCompleted(FundingCompletionStoreUnavailableAfterRule, true);
      }
    }
  }

  function After(rows: Rows, id: string, write: FundingWrite, fault: Fault): Rows {
    if fault.LostBefore? then rows else Written(rows, id, write)
  }

  function Replied(rows: Rows, id: string, write: FundingWrite, fault: Fault): Answer {
    Reply(Affected(rows, id, write), fault)
  }

  // ---- One attempt, alone --------------------------------------------------------------------

  /** The durable part of the store. */
  datatype Durable = Durable(funding: Rows, rules: Rules)

  /** What the outside world answers during one attempt. */
  datatype Outside = Outside(nowMs: i64, review: ReviewResult, network: NetworkOutcome, faults: Faults)

  /** One step of the state machine when nobody else touches the store. */
  function SoloStep(c: Candidate, o: Outside, d: Durable, pc: Pc): (Durable, Pc) {
    match pc
    case AtLease =>
      (d.(funding := After(d.funding, c.intentId, LeaseExecution(o.nowMs), o.faults.lease)),
       AfterLease(c, Replied(d.funding, c.intentId, LeaseExecution(o.nowMs), o.faults.lease)))
    case AtReview => (d, AfterReview(o.review))
    case AtSubmit(payload) => (d, AfterNetwork(c, o.network))
    case AtPoll(signature) => (d, AfterNetwork(c, o.network))
    case AtRelease(error, abort) =>
      (d.(funding := After(d.funding, c.intentId, ReleaseLease(PrebroadcastFailed), o.faults.release)),
       AfterRelease(c, error, abort,
                    Replied(d.funding, c.intentId, ReleaseLease(PrebroadcastFailed), o.faults.release)))
    case AtFail(signature, error) =>
      (d.(funding := After(d.funding, c.intentId, MarkFailed(OnchainFailed), o.faults.fail)),
       AfterFail(c, signature, error, Replied(d.funding, c.intentId, MarkFailed(OnchainFailed), o.faults.fail)))
    case AtCompleteRule(signature, slot) =>
      (d.(rules := if o.faults.rule.LostBefore? then d.rules else RuleWritten(d.rules, RuleKey(c), c.amountRaw, slot)),
       AfterCompleteRule(c, signature, slot, Reply(RuleAffected(d.rules, RuleKey(c)), o.faults.rule)))
    case AtCompleteFunding(signature, slot) =>
      (d.(funding := After(d.funding, c.intentId, MarkCompleted(signature), o.faults.complete)),
       AfterCompleteFunding(c, signature, slot,
                            Replied(d.funding, c.intentId, MarkCompleted(signature), o.faults.complete)))
    case Done(report) => (d, pc)
    case Crashed => (d, pc)
  }

  function SoloSteps(c: Candidate, o: Outside, d: Durable, pc: Pc, n: nat): (Durable, Pc)
    decreases n
  {
    if n == 0 then (d, pc)
    else
      var (d', pc') := SoloStep(c, o, d, pc);
      SoloSteps(c, o, d', pc', n - 1)
  }

  /** An attempt takes at most five steps of the state machine. */
  const ATTEMPT_STEPS: nat := 5

  /** The source's straight-line orchestration performs exactly the writes of
      the state machine run to its end, and returns that run's report. */
  method ExecuteRevalidatedCandidate(state: ExecutionState, c: Candidate, o: Outside) returns (report: Report)
    requires o.faults == state.faults
    modifies state.store`funding, state.store`rules
    ensures
      var run := SoloSteps(c, o, old(Durable(state.store.funding, state.store.rules)), AtLease, ATTEMPT_STEPS);
      run == (Durable(state.store.funding, state.store.rules), Done(report))
    ensures !report.status.FinalizedInvariantBroken?
  {
    var lease := state.LeaseAfterFinalRevalidation(c.intentId, o.nowMs);
    if lease.NotAcquired? {
      return Base(c).(status := LeaseMissed, error := StoreProblem(lease.leaseError),
                      funding := SaysUnknownOrNotReserved);
    }
    match o.review {
      case Err(error) =>
        report := ReportRelease(state, c, error, AbortsCycle(error));
      case Ok(payload) =>
        report := RecordNetworkResult(state, c, o);
    }
  }

  method RecordNetworkResult(state: ExecutionState, c: Candidate, o: Outside) returns (report: Report)
    requires o.faults == state.faults
    modifies state.store`funding, state.store`rules
    ensures
      var before := old(Durable(state.store.funding, state.store.rules));
      SoloSteps(c, o, before, AfterNetwork(c, o.network), 2)
      == (Durable(state.store.funding, state.store.rules), Done(report))
    ensures !report.status.FinalizedInvariantBroken?
  {
    match o.network {
      case PreBroadcastFailure(error) =>
        report := ReportRelease(state, c, error, false);
      case Unknown(signature, error) =>
        report := Base(c).(status := ResultUnknown, signature := Some(signature),
                           error := NetworkProblem(error), funding := SaysExecuting);
      case OnChainFailed(signature, error) =>
        var write := state.MarkOnchainFailed(c.intentId);
        report := FailReport(c, signature, error, write);
      case Finalized(signature, slot) =>
        var write := state.MarkFinalized(c, signature, slot);
        report := FinalizedReport(c, signature, slot, write);
    }
  }

  method ReportRelease(state: ExecutionState, c: Candidate, error: ErrorClass, abort: bool) returns (report: Report)
    modifies state.store`funding
    ensures state.store.funding ==
              After(old(state.store.funding), c.intentId, ReleaseLease(PrebroadcastFailed), state.faults.release)
    ensures Done(report) ==
              AfterRelease(c, error, abort,
                           Replied(old(state.store.funding), c.intentId, ReleaseLease(PrebroadcastFailed),
                                   state.faults.release))
  {
    var release := state.ReleasePrebroadcastFailure(c.intentId);
    report := ReleaseReport(c, error, abort, release);
  }

  // ---- What an attempt comes to --------------------------------------------------------------

  /** The row can be leased, and nobody disturbs the attempt. */
  predicate Undisturbed(c: Candidate, o: Outside, d: Durable) {
    && o.faults == Faults(NoFault, NoFault, NoFault, NoFault, NoFault)
    && c.intentId in d.funding && d.funding[c.intentId].status == BudgetReserved
    && o.nowMs < d.funding[c.intentId].terms.expiresAtMs && RuleKey(c) in d.rules
  }

  /** The tables with the attempt's row replaced. */
  function WithRow(c: Candidate, d: Durable, row: FundingRow): Durable {
    d.(funding := d.funding[c.intentId := row])
  }

  /** The two errors that leave no audit record behind. */
  predicate LosesAudit(error: ErrorClass) {
    error in {ReviewSerializationFailed, ReviewIntegrityFailed}
  }

  /** Given back before anything was sent: the row is reserved again, with the reason. */
  function GivenBack(c: Candidate, d: Durable, error: ErrorClass, abort: bool): (Durable, Pc)
    requires c.intentId in d.funding
  {
    (WithRow(c, d, d.funding[c.intentId].(status := BudgetReserved, lastError := Some(PrebroadcastFailed))),
     Done(Report(c.intentId, c.amountRaw, PrebroadcastFailureReleased, None, None, NetworkProblem(error),
                 SaysReserved, SaysUnchanged, abort)))
  }

  /** The tables an attempt should leave and the report it should give, from what the review
      and the network say. */
  function EndOfAttempt(c: Candidate, d: Durable, review: ReviewResult, network: NetworkOutcome): (Durable, Pc)
    requires c.intentId in d.funding && RuleKey(c) in d.rules
  {
    var row, rule := d.funding[c.intentId], d.rules[RuleKey(c)];
    if review.Err? then GivenBack(c, d, review.error, LosesAudit(review.error))
    else
      match network
      case PreBroadcastFailure(error) => GivenBack(c, d, error, false)
      case Unknown(signature, error) =>
        (WithRow(c, d, row.(status := Executing)),
         Done(Report(c.intentId, c.amountRaw, ResultUnknown, Some(signature), None, NetworkProblem(error),
                     SaysExecuting, SaysUnchanged, false)))
      case OnChainFailed(signature, error) =>
        (WithRow(c, d, row.(status := Failed, lastError := Some(OnchainFailed))),
         Done(Report(c.intentId, c.amountRaw, FailedOnChainRecorded, Some(signature), None, NetworkProblem(error),
                     SaysFailed, SaysUnchanged, false)))
      case Finalized(signature, slot) =>
        (WithRow(c, d, row.(status := Completed, executionSignature := Some(signature))).(
           rules := d.rules[RuleKey(c) := rule.(status := RuleCompleted, completed := true,
                                                usedAmountRaw := c.amountRaw, lastCheckedSlot := Some(slot))]),
         Done(Report(c.intentId, c.amountRaw, CompletedAll, Some(signature), Some(slot), NoError, SaysCompleted,
                     SaysRuleCompleted, false)))
  }

  /** Every way an undisturbed attempt can end: the tables it leaves and the report it
      gives, whatever the review and the network say. */
  lemma UndisturbedAttempt(c: Candidate, o: Outside, d: Durable)
    requires Undisturbed(c, o, d)
    ensures SoloSteps(c, o, d, AtLease, ATTEMPT_STEPS) == EndOfAttempt(c, d, o.review, o.network)
  {
    var executing := WithRow(c, d, d.funding[c.intentId].(status := Executing));
    assert SoloStep(c, o, d, AtLease) == (executing, AtReview);
    assert SoloSteps(c, o, d, AtLease, 5) == SoloSteps(c, o, executing, AtReview, 4);
    LeasedAttempt(c, o, executing);
    LeaseForgotten(c, d, executing, o.review, o.network);
  }

  lemma LeaseForgotten(c: Candidate, d: Durable, executing: Durable, review: ReviewResult, network: NetworkOutcome)
    requires c.intentId in d.funding && RuleKey(c) in d.rules
    requires executing == WithRow(c, d, d.funding[c.intentId].(status := Executing))
    ensures EndOfAttempt(c, executing, review, network) == EndOfAttempt(c, d, review, network)
  {
    assert forall row :: WithRow(c, executing, row) == WithRow(c, d, row);
  }

  lemma LeasedAttempt(c: Candidate, o: Outside, d: Durable)
    requires o.faults == Faults(NoFault, NoFault, NoFault, NoFault, NoFault) && RuleKey(c) in d.rules
    requires c.intentId in d.funding && d.funding[c.intentId].status == Executing
    ensures SoloSteps(c, o, d, AtReview, 4) == EndOfAttempt(c, d, o.review, o.network)
  {
    if o.review.Err? {
      assert SoloSteps(c, o, d, AtReview, 4)
          == SoloSteps(c, o, d, AtRelease(o.review.error, AbortsCycle(o.review.error)), 3);
      Releases(c, o, d, o.review.error, AbortsCycle(o.review.error), 2);
    } else {
      assert SoloSteps(c, o, d, AtReview, 4) == SoloSteps(c, o, d, AtSubmit(o.review.value), 3);
      SubmittedAttempt(c, o, d, o.review.value);
    }
  }

  lemma SubmittedAttempt(c: Candidate, o: Outside, d: Durable, payload: Payload)
    requires o.faults == Faults(NoFault, NoFault, NoFault, NoFault, NoFault) && RuleKey(c) in d.rules
    requires c.intentId in d.funding && d.funding[c.intentId].status == Executing
    ensures SoloSteps(c, o, d, AtSubmit(payload), 3) == EndOfAttempt(c, d, Ok(payload), o.network)
  {
    var next := AfterNetwork(c, o.network);
    assert SoloSteps(c, o, d, AtSubmit(payload), 3) == SoloSteps(c, o, d, next, 2);
    match o.network
    case PreBroadcastFailure(error) => Releases(c, o, d, error, false, 1);
    case Unknown(_, _) =>
      DoneStays(c, o, d, next.report, 2);
      assert d.funding[c.intentId := d.funding[c.intentId]] == d.funding;
    case OnChainFailed(signature, error) => Fails(c, o, d, signature, error);
    case Finalized(signature, slot) => Completes(c, o, d, signature, slot);
  }

  lemma {:induction false} DoneStays(c: Candidate, o: Outside, d: Durable, report: Report, n: nat)
    ensures SoloSteps(c, o, d, Done(report), n) == (d, Done(report))
  {
    if n > 0 {
      DoneStays(c, o, d, report, n - 1);
    }
  }

  lemma Releases(c: Candidate, o: Outside, d: Durable, error: ErrorClass, abort: bool, n: nat)
    requires o.faults.release.NoFault? && c.intentId in d.funding && d.funding[c.intentId].status == Executing
    ensures SoloSteps(c, o, d, AtRelease(error, abort), n + 1) == GivenBack(c, d, error, abort)
  {
    var step := SoloStep(c, o, d, AtRelease(error, abort));
    DoneStays(c, o, step.0, step.1.report, n);
  }

  lemma Fails(c: Candidate, o: Outside, d: Durable, signature: string, error: ErrorClass)
    requires o.faults.fail.NoFault? && c.intentId in d.funding && d.funding[c.intentId].status == Executing
    ensures
      SoloSteps(c, o, d, AtFail(signature, error), 2)
      == (WithRow(c, d, d.funding[c.intentId].(status := Failed, lastError := Some(OnchainFailed))),
          Done(Report(c.intentId, c.amountRaw, FailedOnChainRecorded, Some(signature), None, NetworkProblem(error),
                      SaysFailed, SaysUnchanged, false)))
  {
    var step := SoloStep(c, o, d, AtFail(signature, error));
    DoneStays(c, o, step.0, step.1.report, 1);
  }

  lemma Completes(c: Candidate, o: Outside, d: Durable, signature: string, slot: u64)
    requires o.faults.rule.NoFault? && o.faults.complete.NoFault?
    requires c.intentId in d.funding && d.funding[c.intentId].status == Executing && RuleKey(c) in d.rules
    ensures
      SoloSteps(c, o, d, AtCompleteRule(signature, slot), 2)
      == (WithRow(c, d, d.funding[c.intentId].(status := Completed, executionSignature := Some(signature))).(
            rules := d.rules[RuleKey(c) := d.rules[RuleKey(c)].(status := RuleCompleted, completed := true,
                                                                usedAmountRaw := c.amountRaw,
                                                                lastCheckedSlot := Some(slot))]),
          Done(Report(c.intentId, c.amountRaw, CompletedAll, Some(signature), Some(slot), NoError, SaysCompleted,
                      SaysRuleCompleted, false)))
  {
    var step := SoloStep(c, o, d, AtCompleteRule(signature, slot));
    assert step.1 == AtCompleteFunding(signature, slot);
  }

  /** What a failing store call is reported as: which of the writes failed, with the
      signature if something was sent, and never as though it had been recorded. */
  lemma FailedWritesAreReported(c: Candidate, o: Outside, d: Durable, pc: Pc)
    requires
      match pc
      case AtLease => !o.faults.lease.NoFault?
      case AtRelease(_, _) => !o.faults.release.NoFault?
      case AtFail(_, _) => !o.faults.fail.NoFault?
      case AtCompleteRule(_, _) => !o.faults.rule.NoFault?
      case AtCompleteFunding(_, _) => !o.faults.complete.NoFault?
      case _ => false
    ensures SoloStep(c, o, d, pc).1.Done?
    ensures
      var r := SoloStep(c, o, d, pc).1.report;
      && r.intentId == c.intentId && r.amountRaw == c.amountRaw
      && match pc
         case AtLease =>
           (r.status, r.error, r.funding, r.rule, r.signature, r.abortRemainingCycle)
           == (LeaseMissed, StoreProblem(LeaseStoreUnavailable), SaysUnknownOrNotReserved, SaysUnchanged, None, false)
         case AtRelease(_, abort) =>
           (r.status, r.error, r.funding, r.rule, r.signature, r.abortRemainingCycle)
           == (PrebroadcastReleaseFailed, StoreProblem(ReleaseStoreUnavailable), SaysExecutingOrReserved, SaysUnchanged,
               None, abort)
         case AtFail(signature, _) =>
           (r.status, r.error, r.funding, r.rule, r.signature, r.abortRemainingCycle)
           == (OnChainFailureWriteFailed, StoreProblem(FailureStoreUnavailable), SaysExecutingOrFailed, SaysUnchanged,
               Some(signature), false)
         case AtCompleteRule(signature, slot) =>
           r.finalizedSlot == Some(slot)
           && (r.status, r.error, r.funding, r.rule, r.signature, r.abortRemainingCycle)
              == (FinalizedWriteFailed, StoreProblem(RuleCompletionStoreUnavailable), SaysExecuting,
                  SaysUnchangedOrUnknown, Some(signature), false)
         case AtCompleteFunding(signature, slot) =>
           r.finalizedSlot == Some(slot)
           && (r.status, r.error, r.funding, r.rule, r.signature, r.abortRemainingCycle)
              == (CompletedSplit, StoreProblem(FundingCompletionStoreUnavailableAfterRule), SaysExecutingOrCompleted,
                  SaysRuleCompleted, Some(signature), false)
         case _ => false
  {
  }
}
