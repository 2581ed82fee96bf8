// Single-shot submission and finalized-only observation. The network and the
// clock are streams: answer i is what polling round i hears, and the clock
// readings are numbered in the order in which the loop takes them.
module Submission {
  import opened Prelude

  const INITIAL_POLL_BACKOFF_MS: nat := 2_000
  const MAX_POLL_BACKOFF_MS: nat := 8_000
  const TOTAL_POLL_TIMEOUT_MS: nat := 120_000
  const TRANSIENT_ERROR_TOLERANCE: nat := 3

  datatype ErrorClass =
    | RpcWriteClientUnavailable
    | SignedTransactionDeserializeFailed
    | SendResultUnknown
    | RpcSignatureMismatch
    | FinalityTimeout
    | ConfirmationRpcUnavailable
    | ConfirmationResultUnknown
    | TransactionFailedOnChain
    | ReviewSerializationFailed
    | ReviewIntegrityFailed
    | OtherPrebroadcastError(code: nat)

  datatype NetworkOutcome =
    | PreBroadcastFailure(error: ErrorClass)
    | Finalized(signature: string, slot: u64)
    | OnChainFailed(signature: string, error: ErrorClass)
    | Unknown(signature: string, error: ErrorClass)

  // ---- One observation ---------------------------------------------------------

  datatype Commitment = AtProcessed | AtConfirmed | AtFinalized

  datatype TransactionStatus = TransactionStatus(slot: u64, failed: bool, confirmation: Option<Commitment>)

  datatype PollDecision = Pending | FinalizedAt(slot: u64) | FailedOnChain

  function ClassifyStatus(status: Option<TransactionStatus>): PollDecision {
    match status
    case None => Pending
    case Some(s) =>
      match s.confirmation
      case Some(AtFinalized) => if s.failed then FailedOnChain else FinalizedAt(s.slot)
      case Some(AtConfirmed) => Pending
      case Some(AtProcessed) => Pending
      case None => Pending
  }

  function Observe(signature: string, status: Option<TransactionStatus>): Option<NetworkOutcome> {
    match ClassifyStatus(status)
    case Pending => None
    case FinalizedAt(slot) => Some(Finalized(signature, slot))
    case FailedOnChain => Some(OnChainFailed(signature, TransactionFailedOnChain))
  }

  // ---- The polling loop ------------------------------------------------------------

  /** What round i hears; without a client no status query is made. */
  datatype PollAnswer = NoReadClient | QueryError | Statuses(first: Option<TransactionStatus>)

  function NextBackoff(current: nat): nat {
    if current * 2 < MAX_POLL_BACKOFF_MS then current * 2 else MAX_POLL_BACKOFF_MS
  }

  /** The sleep before round i. */
  function Backoff(i: nat): nat {
    if i == 0 then INITIAL_POLL_BACKOFF_MS else NextBackoff(Backoff(i - 1))
  }

  /** Reading 0 sets the deadline; round i reads the clock before its sleep
      (2i + 1) and after it (2i + 2). A sleep lasts at least its backoff. */
  ghost predicate ClockRuns(clock: nat -> nat) {
    && (forall i: nat :: clock(2 * i) <= clock(2 * i + 1))
    && (forall i: nat :: clock(2 * i + 1) + Backoff(i) <= clock(2 * i + 2))
  }

  /** Two minutes are over, before the sleep of round i or after it. */
  predicate DeadlinePassed(clock: nat -> nat, i: nat) {
    clock(2 * i + 1) - clock(0) >= 120_000 || clock(2 * i + 2) - clock(0) >= 120_000
  }

  predicate IsTransportError(answer: PollAnswer) {
    !answer.Statuses?
  }

  /** Nothing short of the finalized commitment is final: a processed or confirmed
      fork, successful or not, can still disappear. */
  predicate IsFinalObservation(answer: PollAnswer) {
    answer.Statuses? && answer.first.Some? && answer.first.value.confirmation == Some(AtFinalized)
  }

  /** Round i is the fourth of four failed rounds in a row. */
  predicate GivesUp(answers: nat -> PollAnswer, i: nat) {
    i >= 3 && forall j: nat :: i - 3 <= j <= i ==> IsTransportError(answers(j))
  }

  /** Round i ends the polling, if no earlier round did. */
  predicate Stops(clock: nat -> nat, answers: nat -> PollAnswer, i: nat) {
    DeadlinePassed(clock, i) || IsFinalObservation(answers(i)) || GivesUp(answers, i)
  }

  ghost predicate StopsFirst(clock: nat -> nat, answers: nat -> PollAnswer, i: nat) {
    Stops(clock, answers, i) && forall j: nat :: j < i ==> !Stops(clock, answers, j)
  }

  /** The verdict of the round that ends the polling. It looks at that round
      only: nothing an earlier round saw is remembered. */
  function Verdict(signature: string, clock: nat -> nat, answers: nat -> PollAnswer, i: nat): NetworkOutcome {
    if DeadlinePassed(clock, i) then Unknown(signature, FinalityTimeout)
    else
      match answers(i)
      case NoReadClient => Unknown(signature, ConfirmationRpcUnavailable)
      case QueryError => Unknown(signature, ConfirmationResultUnknown)
      case Statuses(first) =>
        if !IsFinalObservation(answers(i)) then Unknown(signature, FinalityTimeout)
        else if first.value.failed then OnChainFailed(signature, TransactionFailedOnChain)
        else Finalized(signature, first.value.slot)
  }

  /** Sleeping alone brings round i to at least 8i - 2 seconds. */
  lemma {:induction false} TimePasses(clock: nat -> nat, i: nat)
    requires ClockRuns(clock)
    ensures Backoff(i) == if i == 0 then 2_000 else if i == 1 then 4_000 else 8_000
    ensures clock(2 * i + 2) >= clock(0) + if i == 0 then 2_000 else 8_000 * i - 2_000
  {
    assert clock(2 * i) <= clock(2 * i + 1);
    if i > 0 {
      TimePasses(clock, i - 1);
    }
    assert clock(2 * i + 1) + Backoff(i) <= clock(2 * i + 2);
  }

  /** No run reaches a seventeenth status query. */
  lemma AtMostSixteenRounds(clock: nat -> nat, i: nat)
    requires ClockRuns(clock) && !DeadlinePassed(clock, i)
    ensures i < 16
  {
    TimePasses(clock, i);
  }

  method PollFinalized(signature: string, clock: nat -> nat, answers: nat -> PollAnswer)
    returns (outcome: NetworkOutcome, rounds: nat, queries: nat)
    requires ClockRuns(clock)
    ensures NoneStops(clock, answers, rounds) && Stops(clock, answers, rounds)
    ensures outcome == Verdict(signature, clock, answers, rounds)
    ensures !outcome.Unknown? <==> !DeadlinePassed(clock, rounds) && IsFinalObservation(answers(rounds))
    ensures queries <= 16
  {
    var deadline := clock(0) + TOTAL_POLL_TIMEOUT_MS;
    var backoff := INITIAL_POLL_BACKOFF_MS;
    var consecutiveErrors := 0;
    rounds, queries := 0, 0;
    while true
      invariant backoff == Backoff(rounds)
      invariant consecutiveErrors == ErrorRun(answers, rounds) <= TRANSIENT_ERROR_TOLERANCE
      invariant NoneStops(clock, answers, rounds)
      invariant queries <= rounds <= 16
      decreases 16 - rounds
    {
      if clock(2 * rounds + 1) >= deadline {
        return Unknown(signature, FinalityTimeout), rounds, queries;
      }
      if clock(2 * rounds + 2) >= deadline {
        return Unknown(signature, FinalityTimeout), rounds, queries;
      }
      AtMostSixteenRounds(clock, rounds);
      StopsInTime(clock, answers, rounds);
      match answers(rounds) {
        case NoReadClient =>
          consecutiveErrors := consecutiveErrors + 1;
          if consecutiveErrors > TRANSIENT_ERROR_TOLERANCE {
            return Unknown(signature, ConfirmationRpcUnavailable), rounds, queries;
          }
        case Statuses(first) =>
          queries := queries + 1;
          consecutiveErrors := 0;
          var observed := Observe(signature, first);
          if observed.Some? {
            return observed.value, rounds, queries;
          }
        case QueryError =>
          queries := queries + 1;
          consecutiveErrors := consecutiveErrors + 1;
          if consecutiveErrors > TRANSIENT_ERROR_TOLERANCE {
            return Unknown(signature, ConfirmationResultUnknown), rounds, queries;
          }
      }
      backoff := NextBackoff(backoff);
      rounds := rounds + 1;
    }
  }

  /** The same as StopsFirst, unrolled round by round. */
  predicate NoneStops(clock: nat -> nat, answers: nat -> PollAnswer, n: nat) {
    n == 0 || (NoneStops(clock, answers, n - 1) && !Stops(clock, answers, n - 1))
  }

  lemma {:induction false} NoneStopsBefore(clock: nat -> nat, answers: nat -> PollAnswer, n: nat)
    ensures NoneStops(clock, answers, n) <==> forall j: nat :: j < n ==> !Stops(clock, answers, j)
  {
    if n > 0 {
      NoneStopsBefore(clock, answers, n - 1);
    }
  }

  lemma StopsInTime(clock: nat -> nat, answers: nat -> PollAnswer, i: nat)
    requires !DeadlinePassed(clock, i)
    ensures
      Stops(clock, answers, i) <==>
        IsFinalObservation(answers(i)) || ErrorRun(answers, i + 1) > TRANSIENT_ERROR_TOLERANCE
  {
    GivingUp(answers, i);
  }

  /** How many rounds in a row failed just before round i. */
  function ErrorRun(answers: nat -> PollAnswer, i: nat): (n: nat)
    ensures n <= i
  {
    if i > 0 && IsTransportError(answers(i - 1)) then ErrorRun(answers, i - 1) + 1 else 0
  }

  /** The run is the longest window of failures before round i. */
  lemma {:induction false} ErrorRunIsWindow(answers: nat -> PollAnswer, i: nat)
    ensures forall j: nat :: i - ErrorRun(answers, i) <= j < i ==> IsTransportError(answers(j))
    ensures ErrorRun(answers, i) < i ==> !IsTransportError(answers(i - ErrorRun(answers, i) - 1))
  {
    if i > 0 && IsTransportError(answers(i - 1)) {
      ErrorRunIsWindow(answers, i - 1);
    }
  }

  /** The running error counter sees exactly the windows of four failures. */
  lemma GivingUp(answers: nat -> PollAnswer, i: nat)
    ensures GivesUp(answers, i) <==> ErrorRun(answers, i + 1) > TRANSIENT_ERROR_TOLERANCE
  {
    var errors := ErrorRun(answers, i + 1);
    ErrorRunIsWindow(answers, i + 1);
    if errors <= i && errors <= TRANSIENT_ERROR_TOLERANCE {
      assert !IsTransportError(answers(i - errors));
    }
  }

  /** A terminal answer is given exactly when a finalized observation is reached
      in time, and it is that observation's own success or failure. */
  lemma TerminalIff(signature: string, clock: nat -> nat, answers: nat -> PollAnswer, i: nat)
    requires StopsFirst(clock, answers, i)
    ensures
      var outcome := Verdict(signature, clock, answers, i);
      && (!outcome.Unknown? <==> !DeadlinePassed(clock, i) && IsFinalObservation(answers(i)))
      && (outcome.Finalized? ==>
            var status := answers(i).first.value;
            !status.failed && outcome.slot == status.slot && outcome.signature == signature)
      && (outcome.OnChainFailed? ==> answers(i).first.value.failed && outcome.signature == signature)
      && !outcome.PreBroadcastFailure?
  {
  }

  /** Otherwise the outcome stays unknown, and says why: time ran out, or four rounds
      in a row could not ask, the last of them for lack of a client or of an answer. */
  lemma UnknownTellsWhy(signature: string, clock: nat -> nat, answers: nat -> PollAnswer, i: nat)
    requires StopsFirst(clock, answers, i) && Verdict(signature, clock, answers, i).Unknown?
    ensures
      match Verdict(signature, clock, answers, i).error
      case FinalityTimeout => DeadlinePassed(clock, i)
      case ConfirmationRpcUnavailable => GivesUp(answers, i) && answers(i).NoReadClient?
      case ConfirmationResultUnknown => GivesUp(answers, i) && answers(i).QueryError?
      case _ => false
    ensures Verdict(signature, clock, answers, i).signature == signature
  {
  }

  /** Forget what a non-final observation said about success and slot. */
  function Blurred(answer: PollAnswer): PollAnswer {
    if answer.Statuses? && !IsFinalObservation(answer) then Statuses(None) else answer
  }

  /** Errors seen before finality change neither when polling ends nor how. */
  lemma NonFinalErrorsLeaveNoTrace(
      signature: string, clock: nat -> nat, answers: nat -> PollAnswer, others: nat -> PollAnswer, i: nat)
    requires forall j: nat :: Blurred(answers(j)) == Blurred(others(j))
    requires StopsFirst(clock, answers, i)
    ensures StopsFirst(clock, others, i)
    ensures Verdict(signature, clock, answers, i) == Verdict(signature, clock, others, i)
  {
    forall j: nat ensures Stops(clock, answers, j) <==> Stops(clock, others, j) {
      SameAnswerClass(answers(j), others(j));
      forall k: nat ensures IsTransportError(answers(k)) <==> IsTransportError(others(k)) {
        SameAnswerClass(answers(k), others(k));
      }
    }
    SameAnswerClass(answers(i), others(i));
  }

  lemma SameAnswerClass(a: PollAnswer, b: PollAnswer)
    requires Blurred(a) == Blurred(b)
    ensures IsTransportError(a) <==> IsTransportError(b)
    ensures IsFinalObservation(a) <==> IsFinalObservation(b)
    ensures a == b || (a.Statuses? && b.Statuses? && !IsFinalObservation(a) && !IsFinalObservation(b))
  {
  }

  /** The stopping round is unique, so the outcome is a function of the streams. */
  lemma StopsOnce(clock: nat -> nat, answers: nat -> PollAnswer, i: nat, k: nat)
    requires StopsFirst(clock, answers, i) && StopsFirst(clock, answers, k)
    ensures i == k
  {
  }

  // ---- Submitting once ---------------------------------------------------------------

  datatype SubmitAnswer =
    | DeserializationError
    | RpcError
    | HeightFetchError
    | Submitted(signature: string)

  /** What is already decided once the send call returns (None: go on and poll).
      Without a write client nothing is sent; a lost response decides nothing. */
  function AfterSend(writable: bool, signature: string, answer: SubmitAnswer): Option<NetworkOutcome> {
    if !writable then Some(PreBroadcastFailure(RpcWriteClientUnavailable))
    else
      match answer
      case DeserializationError => Some(PreBroadcastFailure(SignedTransactionDeserializeFailed))
      case RpcError => Some(Unknown(signature, SendResultUnknown))
      case HeightFetchError => None
      case Submitted(echoed) => if echoed == signature then None else Some(Unknown(signature, RpcSignatureMismatch))
  }

  /** The write side of the RPC pool, counting every sendTransaction it makes. */
  class WriteClient {
    var sends: nat

    constructor ()
      ensures sends == 0
    {
      sends := 0;
    }

    /** Undecodable bytes are rejected before anything is sent. */
    method SubmitTransaction(answer: SubmitAnswer) returns (result: SubmitAnswer)
      modifies this
      ensures result == answer
      ensures sends == old(sends) + if answer.DeserializationError? then 0 else 1
    {
      result := answer;
      if !answer.DeserializationError? {
        sends := sends + 1;
      }
    }
  }

  /** One submission, never a rebroadcast. "Not broadcast" is reported exactly
      when nothing was sent, so only then may the caller release its lease. */
  method SubmitOnceAndObserve(pool: Option<WriteClient>, signature: string, answer: SubmitAnswer,
                              clock: nat -> nat, answers: nat -> PollAnswer)
    returns (outcome: NetworkOutcome, ghost round: nat)
    requires ClockRuns(clock)
    modifies if pool.Some? then {pool.value} else {}
    ensures pool.Some? ==> old(pool.value.sends) <= pool.value.sends <= old(pool.value.sends) + 1
    ensures outcome.PreBroadcastFailure? <==> pool.None? || pool.value.sends == old(pool.value.sends)
    ensures !outcome.PreBroadcastFailure? ==> outcome.signature == signature
    ensures
      match AfterSend(pool.Some?, signature, answer)
      case Some(decided) => outcome == decided
      case None => StopsFirst(clock, answers, round) && outcome == Verdict(signature, clock, answers, round)
  {
    round := 0;
    if pool.None? {
      return PreBroadcastFailure(RpcWriteClientUnavailable), round;
    }
    var submitted := pool.value.SubmitTransaction(answer);
    match submitted {
      case DeserializationError =>
        return PreBroadcastFailure(SignedTransactionDeserializeFailed), round;
      case RpcError =>
        return Unknown(signature, SendResultUnknown), round;
      case HeightFetchError =>
      case Submitted(echoed) =>
        if echoed != signature {
          return Unknown(signature, RpcSignatureMismatch), round;
        }
    }
    var rounds, queries;
    outcome, rounds, queries := PollFinalized(signature, clock, answers);
    round := rounds;
    NoneStopsBefore(clock, answers, round);
    TerminalIff(signature, clock, answers, round);
  }
}
