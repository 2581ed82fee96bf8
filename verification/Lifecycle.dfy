// The intent lifecycle as one interleaved system: any number of confirmation
// calls and watchers share the store with the refund worker and with inserts.
// Each action is one atomic step; a crash may come between any two, a store call
// may fail before or after its write took effect, and a send may lose its answer.
module Lifecycle {
  import opened Prelude
  import opened Codecs
  import opened WatchRules
  import opened StateStore
  import opened Submission
  import opened FundingProof
  import opened ConfirmFunding
  import opened Execution

  // ---- State -------------------------------------------------------------------------

  datatype Watcher = Watcher(candidate: Candidate, pc: Pc, ruleWrites: nat)

  datatype Confirmer = Confirmer(params: Params, pc: ConfirmPc, writes: nat)

  /** The tables, and what has happened so far: the signatures sent for each
      intent, the finalized observations, the verified payments and the
      reservations made. */
  datatype Data = Data(
    rows: Rows,
    rules: Rules,
    sends: map<string, seq<string>>,
    landed: set<string>,
    reverted: set<string>,
    proofs: map<(string, string), Observation>,
    reserved: set<(string, string)>)
  {
    function Log(id: string): seq<string> {
      if id in sends then sends[id] else []
    }
  }

  datatype World = World(d: Data, watchers: map<nat, Watcher>, confirmers: map<nat, Confirmer>)

  const EMPTY := World(Data(map[], map[], map[], {}, {}, map[], {}), map[], map[])

  // ---- Steps -------------------------------------------------------------------------

  datatype PollResult = PollUnknown(error: ErrorClass) | PollLanded(slot: u64) | PollReverted(error: ErrorClass)

  function PollOutcome(signature: string, result: PollResult): NetworkOutcome {
    match result
    case PollUnknown(error) => Unknown(signature, error)
    case PollLanded(slot) => Finalized(signature, slot)
    case PollReverted(error) => OnChainFailed(signature, error)
  }

  /** Every verdict of the polling loop is one of these. */
  lemma VerdictIsPollResult(signature: string, clock: nat -> nat, answers: nat -> PollAnswer, i: nat)
    requires StopsFirst(clock, answers, i)
    ensures exists result :: Verdict(signature, clock, answers, i) == PollOutcome(signature, result)
  {
    var verdict := Verdict(signature, clock, answers, i);
    var result :=
      match verdict
      case Finalized(_, slot) => PollLanded(slot)
      case OnChainFailed(_, error) => PollReverted(error)
      case Unknown(_, error) => PollUnknown(error)
      case PreBroadcastFailure(error) => PollUnknown(error);
    assert verdict == PollOutcome(signature, result);
  }

  /** Everything the outside may decide about one step. */
  datatype WatcherInput = WatcherInput(
    fault: Fault, nowMs: i64, review: ReviewResult, writable: bool, send: SubmitAnswer, poll: PollResult)

  datatype ConfirmInput = ConfirmInput(fault: Fault, reader: Option<ReadAnswer>, nowMs: i64)

  datatype Action =
    | InsertFundingRow(terms: FundingTerms)
    | InsertWatchRule(rule: WatchRule)
    | OtherWriter(id: string, write: FundingWrite)
    | WatcherStarts(k: nat, candidate: Candidate)
    | WatcherSteps(k: nat, input: WatcherInput)
    | WatcherCrashes(k: nat)
    | ConfirmStarts(k: nat, params: Params)
    | ConfirmSteps(k: nat, confirmInput: ConfirmInput)
    | ConfirmCrashes(k: nat)

  /** Writers outside these tools keep to the store's contract: they expire and
      refund, and they may fail only the refund they hold the lease of. */
  predicate OthersMay(row: FundingRow, write: FundingWrite) {
    Allowed(row, write)
    && (write.MarkExpired? || write.LeaseRefund? || write.MarkRefunded? || write.MarkInvalid?
        || (write.MarkFailed? && row.status == Refunding && write.reason != OnchainFailed))
  }

  function WriteRow(d: Data, id: string, write: FundingWrite, fault: Fault): Data {
    d.(rows := After(d.rows, id, write, fault))
  }

  function ReplyFor(d: Data, id: string, write: FundingWrite, fault: Fault): Answer {
    Replied(d.rows, id, write, fault)
  }

  function LeaseMove(d: Data, v: Watcher, i: WatcherInput): (Data, Watcher) {
    var c, write := v.candidate, LeaseExecution(i.nowMs);
    (WriteRow(d, c.intentId, write, i.fault), v.(pc := AfterLease(c, ReplyFor(d, c.intentId, write, i.fault))))
  }

  /** The one place where sendTransaction is invoked; unless nothing was sent,
      the signature goes on record whatever the answer was. */
  function SubmitMove(d: Data, v: Watcher, i: WatcherInput): (Data, Watcher)
    requires v.pc.AtSubmit?
  {
    var c, signature := v.candidate, v.pc.payload.signature;
    var decided := AfterSend(i.writable, signature, i.send);
    var sent := !(decided.Some? && decided.value.PreBroadcastFailure?);
    (if sent then d.(sends := d.sends[c.intentId := d.Log(c.intentId) + [signature]]) else d,
     v.(pc := if decided.Some? then AfterNetwork(c, decided.value) else AtPoll(signature)))
  }

  function PollMove(d: Data, v: Watcher, i: WatcherInput): (Data, Watcher)
    requires v.pc.AtPoll?
  {
    var signature := v.pc.signature;
    (match i.poll
     case PollUnknown(_) => d
     case PollLanded(_) => d.(landed := d.landed + {signature})
     case PollReverted(_) => d.(reverted := d.reverted + {signature}),
     v.(pc := AfterNetwork(v.candidate, PollOutcome(signature, i.poll))))
  }

  function ReleaseMove(d: Data, v: Watcher, i: WatcherInput): (Data, Watcher)
    requires v.pc.AtRelease?
  {
    var c, write := v.candidate, ReleaseLease(PrebroadcastFailed);
    (WriteRow(d, c.intentId, write, i.fault),
     v.(pc := AfterRelease(c, v.pc.error, v.pc.abort, ReplyFor(d, c.intentId, write, i.fault))))
  }

  function FailMove(d: Data, v: Watcher, i: WatcherInput): (Data, Watcher)
    requires v.pc.AtFail?
  {
    var c, write := v.candidate, MarkFailed(OnchainFailed);
    (WriteRow(d, c.intentId, write, i.fault),
     v.(pc := AfterFail(c, v.pc.signature, v.pc.error, ReplyFor(d, c.intentId, write, i.fault))))
  }

  function CompleteRuleMove(d: Data, v: Watcher, i: WatcherInput): (Data, Watcher)
    requires v.pc.AtCompleteRule?
  {
    var c, key := v.candidate, RuleKey(v.candidate);
    (if i.fault.LostBefore? then d else d.(rules := RuleWritten(d.rules, key, c.amountRaw, v.pc.slot)),
     v.(pc := AfterCompleteRule(c, v.pc.signature, v.pc.slot, Reply(RuleAffected(d.rules, key), i.fault)),
        ruleWrites := v.ruleWrites + 1))
  }

  function CompleteFundingMove(d: Data, v: Watcher, i: WatcherInput): (Data, Watcher)
    requires v.pc.AtCompleteFunding?
  {
    var c, write := v.candidate, MarkCompleted(v.pc.signature);
    (WriteRow(d, c.intentId, write, i.fault),
     v.(pc := AfterCompleteFunding(c, v.pc.signature, v.pc.slot, ReplyFor(d, c.intentId, write, i.fault))))
  }

  function WatcherMove(d: Data, v: Watcher, i: WatcherInput): (Data, Watcher) {
    match v.pc
    case AtLease => LeaseMove(d, v, i)
    case AtReview => (d, v.(pc := AfterReview(i.review)))
    case AtSubmit(_) => SubmitMove(d, v, i)
    case AtPoll(_) => PollMove(d, v, i)
    case AtRelease(_, _) => ReleaseMove(d, v, i)
    case AtFail(_, _) => FailMove(d, v, i)
    case AtCompleteRule(_, _) => CompleteRuleMove(d, v, i)
    case AtCompleteFunding(_, _) => CompleteFundingMove(d, v, i)
    case Done(_) => (d, v)
    case Crashed => (d, v)
  }

  function ReadMove(lib: Library, d: Data, f: Confirmer, i: ConfirmInput): (Data, Confirmer)
    requires f.pc.Reading?
  {
    var pc := AfterRead(lib, f.params, f.pc.row, f.pc.rule, f.pc.alreadyReserved, i.reader, i.nowMs);
    (if pc.Submitting? then d.(proofs := d.proofs[(f.params.intentId, f.params.txSignature) := pc.tx]) else d,
     f.(pc := pc))
  }

  function SubmittedMove(d: Data, f: Confirmer, i: ConfirmInput): (Data, Confirmer)
    requires f.pc.Submitting?
  {
    var id, write := f.params.intentId, MarkSubmitted(f.params.txSignature);
    (WriteRow(d, id, write, i.fault),
     f.(pc := AfterSubmit(f.pc.row, f.pc.rule, f.pc.tx, ReplyFor(d, id, write, i.fault)), writes := f.writes + 1))
  }

  function ReservedMove(d: Data, f: Confirmer, i: ConfirmInput): (Data, Confirmer)
    requires f.pc.Reserving?
  {
    var id, write := f.params.intentId, MarkReserved(f.params.txSignature, f.pc.tx.slot);
    var d' := WriteRow(d, id, write, i.fault);
    var hit := !i.fault.LostBefore? && Affected(d.rows, id, write) == 1;
    (if hit then d'.(reserved := d.reserved + {(id, f.params.txSignature)}) else d',
     f.(pc := AfterReserve(f.pc.rule, f.pc.tx, ReplyFor(d, id, write, i.fault)), writes := f.writes + 1))
  }

  function ConfirmMove(lib: Library, d: Data, f: Confirmer, i: ConfirmInput): (Data, Confirmer) {
    var p := f.params;
    match f.pc
    case GettingRow => (d, f.(pc := AfterGetRow(Lookup(d.rows, p.intentId, i.fault))))
    case GettingRule(row) =>
      (d, f.(pc := AfterGetRule(lib, p, row, RuleLookup(lib, d.rules, p.intentId, i.fault))))
    case Reading(_, _, _) => ReadMove(lib, d, f, i)
    case Submitting(_, _, _) => SubmittedMove(d, f, i)
    case Reserving(_, _, _) => ReservedMove(d, f, i)
    case Rechecking(rule, tx) =>
      (d, f.(pc := AfterRecheck(p, rule, tx, Lookup(d.rows, p.intentId, i.fault), i.nowMs)))
    case Rereading(rule, tx) =>
      (d, f.(pc := AfterReread(p, rule, tx, Lookup(d.rows, p.intentId, i.fault), i.nowMs)))
    case Answered(_) => (d, f)
    case ConfirmCrashed => (d, f)
  }

  function WithWatcher(w: World, k: nat, move: (Data, Watcher)): World {
    World(move.0, w.watchers[k := move.1], w.confirmers)
  }

  function WithConfirmer(w: World, k: nat, move: (Data, Confirmer)): World {
    World(move.0, w.watchers, w.confirmers[k := move.1])
  }

  /** A revalidated candidate: its row and its rule exist, the rule's id is the
      intent's, and the amount is the row's. */
  predicate MayStart(d: Data, c: Candidate) {
    && c.intentId in d.rows && c.intentId in d.rules && RuleKey(c) == c.intentId
    && c.amountRaw == d.rows[c.intentId].terms.amountRaw
  }

  /** A step whose guard fails changes nothing. */
  function Step(lib: Library, w: World, a: Action): World {
    match a
    case InsertFundingRow(terms) => w.(d := w.d.(rows := Inserted(w.d.rows, terms)))
    case InsertWatchRule(rule) => w.(d := w.d.(rules := RuleInserted(w.d.rules, lib, rule)))
    case OtherWriter(id, write) =>
      if id in w.d.rows && OthersMay(w.d.rows[id], write) then w.(d := w.d.(rows := Written(w.d.rows, id, write)))
      else w
    case WatcherStarts(k, c) =>
      if k !in w.watchers && MayStart(w.d, c) then WithWatcher(w, k, (w.d, Watcher(c, AtLease, 0))) else w
    case WatcherSteps(k, i) =>
      if k in w.watchers then WithWatcher(w, k, WatcherMove(w.d, w.watchers[k], i)) else w
    case WatcherCrashes(k) =>
      if k in w.watchers then WithWatcher(w, k, (w.d, w.watchers[k].(pc := Crashed))) else w
    case ConfirmStarts(k, p) =>
      if k !in w.confirmers then WithConfirmer(w, k, (w.d, Confirmer(p, Start(lib, p), 0))) else w
    case ConfirmSteps(k, i) =>
      if k in w.confirmers then WithConfirmer(w, k, ConfirmMove(lib, w.d, w.confirmers[k], i)) else w
    case ConfirmCrashes(k) =>
      if k in w.confirmers then WithConfirmer(w, k, (w.d, w.confirmers[k].(pc := ConfirmCrashed))) else w
  }

  function Run(lib: Library, actions: seq<Action>): World {
    if actions == [] then EMPTY
    else Step(lib, Run(lib, actions[..|actions| - 1]), actions[|actions| - 1])
  }
}
