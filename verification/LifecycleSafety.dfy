// What every run of the interleaved lifecycle guarantees.
module LifecycleSafety {
  import opened Prelude
  import opened Codecs
  import opened WatchRules
  import opened StateStore
  import opened Submission
  import opened FundingProof
  import opened ConfirmFunding
  import opened Execution
  import opened Lifecycle
  import opened LifecycleInvariant

  /** The data after a run. */
  function DataAfter(lib: Library, actions: seq<Action>): Data {
    Run(lib, actions).d
  }

  /** How a run may change what an earlier run left behind. */
  ghost predicate Grew(d: Data, d': Data) {
    && (forall id :: id in d.rows ==> id in d'.rows && RowGrew(d.rows[id], d'.rows[id]))
    && (forall id :: id in d.rules ==> id in d'.rules && (d.rules[id].completed ==> d'.rules[id].completed))
    && (forall id :: d.Log(id) <= d'.Log(id))
    && d.landed <= d'.landed && d.reverted <= d'.reverted && d.reserved <= d'.reserved
    && d.proofs.Keys <= d'.proofs.Keys
  }

  ghost predicate RowGrew(before: FundingRow, after: FundingRow) {
    && after.terms == before.terms
    && (before.fundingSignature.Some? ==> after.fundingSignature == before.fundingSignature)
    && (before.status.IsTerminal() ==> after.status == before.status)
  }

  lemma KeepsGrows(a: Data, b: Data, c: Data)
    requires Grew(a, b) && Keeps(b, c)
    ensures Grew(a, c)
  {
    forall id | id in a.rows ensures id in c.rows && RowGrew(a.rows[id], c.rows[id]) {
      assert RowGrew(a.rows[id], b.rows[id]) && RowKept(b.rows[id], c.rows[id]);
    }
  }

  /** A continued run ends with the last step of the continuation. */
  lemma LastStep(lib: Library, before: seq<Action>, after: seq<Action>)
    requires after != []
    ensures
      Run(lib, before + after)
      == Step(lib, Run(lib, before + after[..|after| - 1]), after[|after| - 1])
  {
    assert (before + after)[..|before + after| - 1] == before + after[..|after| - 1];
  }

  lemma GrewNothing(d: Data)
    ensures Grew(d, d)
  {
  }

  /** Continuing a run never takes back a row, its terms, its funding signature, a
      terminal status, a completed rule, a send or an observation. */
  lemma {:induction false} RunsGrow(lib: Library, before: seq<Action>, after: seq<Action>)
    ensures Grew(DataAfter(lib, before), DataAfter(lib, before + after))
  {
    if after == [] {
      assert before + after == before;
      GrewNothing(DataAfter(lib, before));
    } else {
      var n := |after| - 1;
      RunsGrow(lib, before, after[..n]);
      LastStep(lib, before, after);
      InvariantHolds(lib, before + after[..n]);
      StepKeepsRecords(lib, Run(lib, before + after[..n]), after[n]);
      KeepsGrows(DataAfter(lib, before), DataAfter(lib, before + after[..n]), DataAfter(lib, before + after));
    }
  }

  // ---- Sends and leases ----------------------------------------------------------------

  /** sendTransaction is invoked at most once per intent, whatever is interleaved,
      crashes, or goes unanswered. */
  lemma AtMostOneSend(lib: Library, actions: seq<Action>, id: string)
    ensures |DataAfter(lib, actions).Log(id)| <= 1
  {
    InvariantHolds(lib, actions);
    var d := DataAfter(lib, actions);
    if d.Log(id) != [] {
      assert RowOk(d, id);
    }
  }

  /** At most one watcher per intent is past the lease, and while one is, the row
      says so. */
  lemma OneLeaseHolder(lib: Library, actions: seq<Action>, j: nat, k: nat)
    requires j in Run(lib, actions).watchers && k in Run(lib, actions).watchers
    requires Run(lib, actions).watchers[j].pc.HoldsLease() && Run(lib, actions).watchers[k].pc.HoldsLease()
    requires Run(lib, actions).watchers[j].candidate.intentId == Run(lib, actions).watchers[k].candidate.intentId
    ensures j == k
    ensures
      var id := Run(lib, actions).watchers[k].candidate.intentId;
      id in DataAfter(lib, actions).rows && DataAfter(lib, actions).rows[id].status == Executing
  {
    InvariantHolds(lib, actions);
    var w := Run(lib, actions);
    assert BothHold(w.watchers[j], w.watchers[k]);
    assert WatcherOk(w.d, w.watchers[k]);
  }

  /** Once a send was invoked the intent never goes back: it is not reserved, not
      leased again, not refunded, and the send stays the only one, for ever. */
  lemma NoWayBackAfterSend(lib: Library, before: seq<Action>, after: seq<Action>, id: string)
    requires DataAfter(lib, before).Log(id) != []
    ensures
      var d := DataAfter(lib, before + after);
      && d.Log(id) == DataAfter(lib, before).Log(id)
      && id in d.rows && SettledStatus(d.rows[id].status) && d.rows[id].refundSignature.None?
  {
    RunsGrow(lib, before, after);
    AtMostOneSend(lib, before + after, id);
    InvariantHolds(lib, before + after);
    var d := DataAfter(lib, before + after);
    assert DataAfter(lib, before).Log(id) <= d.Log(id);
    assert RowOk(d, id);
  }

  /** The transaction on record for an intent and a signature pays for the intent's row. */
  ghost predicate PaidOnRecord(lib: Library, d: Data, id: string, signature: string) {
    && id in d.rows && d.rows[id].fundingSignature == Some(signature)
    && (id, signature) in d.proofs && Paid(lib, d.proofs[(id, signature)], d.rows[id].terms)
  }

  lemma FundedIsPaidOnRecord(lib: Library, actions: seq<Action>, id: string)
    requires id in DataAfter(lib, actions).rows && DataAfter(lib, actions).rows[id].fundingSignature.Some?
    ensures PaidOnRecord(lib, DataAfter(lib, actions), id, DataAfter(lib, actions).rows[id].fundingSignature.value)
  {
    InvariantHolds(lib, actions);
    var d := DataAfter(lib, actions);
    assert RowOk(d, id);
    VerifiedIffPaid(lib, d.proofs[(id, d.rows[id].fundingSignature.value)], d.rows[id].terms);
  }

  /** Nothing is ever sent for an intent unless the transaction read for the row's own
      funding signature pays for the row. */
  lemma SendsArePaidFor(lib: Library, actions: seq<Action>, id: string)
    requires DataAfter(lib, actions).Log(id) != []
    ensures
      var d := DataAfter(lib, actions);
      id in d.rows && d.rows[id].fundingSignature.Some? && PaidOnRecord(lib, d, id, d.rows[id].fundingSignature.value)
  {
    InvariantHolds(lib, actions);
    assert RowOk(DataAfter(lib, actions), id);
    FundedIsPaidOnRecord(lib, actions, id);
  }

  /** A refund and a send exclude each other. */
  lemma RefundedOrSentNotBoth(lib: Library, actions: seq<Action>, id: string)
    requires id in DataAfter(lib, actions).rows
    requires
      var row := DataAfter(lib, actions).rows[id];
      row.status == Refunding || row.status == Refunded || row.refundSignature.Some?
    ensures DataAfter(lib, actions).Log(id) == []
  {
    InvariantHolds(lib, actions);
    assert RowOk(DataAfter(lib, actions), id);
  }

  // ---- Recorded results ----------------------------------------------------------------------

  /** A completed row: its rule is completed, and its execution signature is the
      one that was sent for it and was observed finalized without error. */
  lemma CompletedIsTrue(lib: Library, actions: seq<Action>, id: string)
    requires id in DataAfter(lib, actions).rows && DataAfter(lib, actions).rows[id].status == Completed
    ensures
      var d := DataAfter(lib, actions);
      && id in d.rules && d.rules[id].completed
      && d.rows[id].executionSignature.Some?
      && d.Log(id) == [d.rows[id].executionSignature.value]
      && d.rows[id].executionSignature.value in d.landed
  {
    InvariantHolds(lib, actions);
    assert RowOk(DataAfter(lib, actions), id);
  }

  /** A row failed by an execution: the one transaction sent for it was observed
      finalized with an error. */
  lemma FailedIsTrue(lib: Library, actions: seq<Action>, id: string)
    requires id in DataAfter(lib, actions).rows
    requires
      var row := DataAfter(lib, actions).rows[id];
      row.status == Failed && row.lastError == Some(OnchainFailed)
    ensures
      var d := DataAfter(lib, actions);
      |d.Log(id)| == 1 && d.Log(id)[0] in d.reverted
  {
    InvariantHolds(lib, actions);
    assert RowOk(DataAfter(lib, actions), id);
  }

  lemma MoveReportFits(d: Data, v: Watcher, i: WatcherInput, move: (Data, Watcher))
    requires DataOk(d) && WatcherOk(d, v) && move == WatcherMove(d, v, i) && !v.pc.Done? && move.1.pc.Done?
    ensures
      var id := move.1.candidate.intentId;
      id in move.0.rows && id in move.0.rules && ReportFits(move.0, id, move.1.pc.report, move.1.ruleWrites)
  {
    WatcherMoveAfter(d, v, i);
  }

  /** At the step that finishes an attempt, every label of its report is true of
      the store, and the reported signature is the one that was sent. */
  lemma ReportsFitTheStore(lib: Library, actions: seq<Action>, k: nat, i: WatcherInput)
    requires k in Run(lib, actions).watchers && !Run(lib, actions).watchers[k].pc.Done?
    requires Run(lib, actions + [WatcherSteps(k, i)]).watchers[k].pc.Done?
    ensures
      var w' := Run(lib, actions + [WatcherSteps(k, i)]);
      var v := w'.watchers[k];
      var id := v.candidate.intentId;
      id in w'.d.rows && id in w'.d.rules && ReportFits(w'.d, id, v.pc.report, v.ruleWrites)
  {
    InvariantHolds(lib, actions);
    var w := Run(lib, actions);
    assert WatcherOk(w.d, w.watchers[k]);
    NextWatcherStep(lib, actions, k, i);
    MoveReportFits(w.d, w.watchers[k], i, WatcherMove(w.d, w.watchers[k], i));
  }

  /** What one lease call answers, and what a refused one leaves behind. */
  lemma LeaseVerdict(d: Data, v: Watcher, i: WatcherInput, move: (Data, Watcher))
    requires MayStart(d, v.candidate) && v.pc.AtLease? && i.fault.NoFault? && move == LeaseMove(d, v, i)
    ensures
      var row := d.rows[v.candidate.intentId];
      && (move.1.pc.AtReview? <==> row.status == BudgetReserved && i.nowMs < row.terms.expiresAtMs)
      && (move.1.pc.Done? ==> move.0 == d)
  {
  }

  /** A lease was refused for a reason: the row was not reserved, or its deadline
      had passed; and the refused attempt changed nothing. */
  lemma RefusedLeaseIsTrue(lib: Library, actions: seq<Action>, k: nat, i: WatcherInput)
    requires k in Run(lib, actions).watchers && Run(lib, actions).watchers[k].pc.AtLease? && i.fault.NoFault?
    ensures
      var w, w' := Run(lib, actions), Run(lib, actions + [WatcherSteps(k, i)]);
      var id := w.watchers[k].candidate.intentId;
      && id in w.d.rows
      && k in w'.watchers
      && (w'.watchers[k].pc.AtReview? <==>
            w.d.rows[id].status == BudgetReserved && i.nowMs < w.d.rows[id].terms.expiresAtMs)
      && (w'.watchers[k].pc.Done? ==> w'.d == w.d)
  {
    InvariantHolds(lib, actions);
    var w := Run(lib, actions);
    assert WatcherOk(w.d, w.watchers[k]);
    LeaseVerdict(w.d, w.watchers[k], i, LeaseMove(w.d, w.watchers[k], i));
    NextWatcherStep(lib, actions, k, i);
  }

  lemma NextWatcherStep(lib: Library, actions: seq<Action>, k: nat, i: WatcherInput)
    requires k in Run(lib, actions).watchers
    ensures
      Run(lib, actions + [WatcherSteps(k, i)])
      == WithWatcher(Run(lib, actions), k, WatcherMove(Run(lib, actions).d, Run(lib, actions).watchers[k], i))
  {
    var more := actions + [WatcherSteps(k, i)];
    assert more[..|more| - 1] == actions && more[|more| - 1] == WatcherSteps(k, i);
  }

  /** A lease holder's acknowledged writes always hit: no finished attempt reports
      a missed release, a missed failure, a missed completion or the "invariant
      broken" state, in any run. */
  lemma MissedWritesUnreachable(lib: Library, actions: seq<Action>, k: nat)
    requires k in Run(lib, actions).watchers && Run(lib, actions).watchers[k].pc.Done?
    ensures !UnexpectedError(Run(lib, actions).watchers[k].pc.report.error)
    ensures !Run(lib, actions).watchers[k].pc.report.status.FinalizedInvariantBroken?
  {
    InvariantHolds(lib, actions);
    var w := Run(lib, actions);
    assert WatcherOk(w.d, w.watchers[k]);
  }

  // ---- Funding -----------------------------------------------------------------------------------

  /** The funding signature of a row, once set, is never replaced. */
  lemma FundingSignatureIsForever(lib: Library, before: seq<Action>, after: seq<Action>, id: string)
    requires id in DataAfter(lib, before).rows && DataAfter(lib, before).rows[id].fundingSignature.Some?
    ensures id in DataAfter(lib, before + after).rows
    ensures
      DataAfter(lib, before + after).rows[id].fundingSignature == DataAfter(lib, before).rows[id].fundingSignature
  {
    RunsGrow(lib, before, after);
    assert RowGrew(DataAfter(lib, before).rows[id], DataAfter(lib, before + after).rows[id]);
  }

  /** An answer "budget_reserved" is true: the row went through that state bound to
      the answered signature, and that signature was verified against this row. */
  lemma ReservedAnswerIsTrue(lib: Library, actions: seq<Action>, k: nat)
    requires k in Run(lib, actions).confirmers
    requires
      var pc := Run(lib, actions).confirmers[k].pc;
      pc.Answered? && pc.answer.Reserved?
    ensures
      var w := Run(lib, actions);
      var f := w.confirmers[k];
      var id, signature := f.params.intentId, f.pc.answer.signature;
      && signature == f.params.txSignature
      && (id, signature) in w.d.reserved
      && PaidOnRecord(lib, w.d, id, signature)
  {
    InvariantHolds(lib, actions);
    var w := Run(lib, actions);
    var f := w.confirmers[k];
    assert ConfirmerOk(w.d, f);
    var id, signature := f.params.intentId, f.params.txSignature;
    assert RowOk(w.d, id);
    FundedIsPaidOnRecord(lib, actions, id);
  }

  /** A step of a confirmation call that makes no write call leaves both tables alone. */
  lemma OnlyCountedStepsWrite(lib: Library, d: Data, f: Confirmer, i: ConfirmInput)
    requires ConfirmMove(lib, d, f, i).1.writes == f.writes
    ensures ConfirmMove(lib, d, f, i).0.rows == d.rows && ConfirmMove(lib, d, f, i).0.rules == d.rules
  {
  }

  /** Write calls are only ever added to a confirmation call's count. */
  lemma StepCountsWrites(lib: Library, w: World, a: Action, k: nat)
    requires k in w.confirmers
    ensures k in Step(lib, w, a).confirmers && w.confirmers[k].writes <= Step(lib, w, a).confirmers[k].writes
  {
  }

  lemma {:induction false} WritesAreCounted(lib: Library, actions: seq<Action>, j: nat, k: nat)
    requires j <= |actions| && k in Run(lib, actions[..j]).confirmers
    ensures k in Run(lib, actions).confirmers
    ensures Run(lib, actions[..j]).confirmers[k].writes <= Run(lib, actions).confirmers[k].writes
  {
    if j == |actions| {
      assert actions[..j] == actions;
    } else {
      var n := |actions| - 1;
      assert actions[..n][..j] == actions[..j];
      WritesAreCounted(lib, actions[..n], j, k);
      StepCountsWrites(lib, Run(lib, actions[..n]), actions[n], k);
    }
  }

  lemma RunAt(lib: Library, actions: seq<Action>, j: nat)
    requires j < |actions|
    ensures Run(lib, actions[..j + 1]) == Step(lib, Run(lib, actions[..j]), actions[j])
  {
    assert actions[..j + 1][..j] == actions[..j];
  }

  /** A step after which a confirmation call still counts no write left the tables alone. */
  lemma UncountedStep(lib: Library, w: World, k: nat, i: ConfirmInput)
    requires k in w.confirmers ==> Step(lib, w, ConfirmSteps(k, i)).confirmers[k].writes == 0
    ensures Step(lib, w, ConfirmSteps(k, i)).d.rows == w.d.rows && Step(lib, w, ConfirmSteps(k, i)).d.rules == w.d.rules
  {
    if k in w.confirmers {
      StepCountsWrites(lib, w, ConfirmSteps(k, i), k);
      OnlyCountedStepsWrite(lib, w.d, w.confirmers[k], i);
    }
  }

  lemma RejectedCountsNothing(lib: Library, actions: seq<Action>, k: nat)
    requires k in Run(lib, actions).confirmers
    requires
      var pc := Run(lib, actions).confirmers[k].pc;
      pc.Answered? && pc.answer.PromisesNoWrites()
    ensures Run(lib, actions).confirmers[k].writes == 0
  {
    InvariantHolds(lib, actions);
    assert ConfirmerOk(Run(lib, actions).d, Run(lib, actions).confirmers[k]);
  }

  /** A rejected confirmation wrote nothing: every single step it took in the whole run
      left both tables exactly as they were. */
  lemma RejectionWritesNothing(lib: Library, actions: seq<Action>, k: nat, j: nat)
    requires k in Run(lib, actions).confirmers
    requires
      var pc := Run(lib, actions).confirmers[k].pc;
      pc.Answered? && pc.answer.PromisesNoWrites()
    requires j < |actions| && actions[j].ConfirmSteps? && actions[j].k == k
    ensures Run(lib, actions).confirmers[k].writes == 0
    ensures DataAfter(lib, actions[..j + 1]).rows == DataAfter(lib, actions[..j]).rows
    ensures DataAfter(lib, actions[..j + 1]).rules == DataAfter(lib, actions[..j]).rules
  {
    RejectedCountsNothing(lib, actions, k);
    RunAt(lib, actions, j);
    var w := Run(lib, actions[..j]);
    if k in w.confirmers {
      StepCountsWrites(lib, w, actions[j], k);
      WritesAreCounted(lib, actions, j + 1, k);
    }
    UncountedStep(lib, w, k, actions[j].confirmInput);
  }

  // ---- Rules as stored -----------------------------------------------------------------------------

  ghost predicate RulesIntact(lib: Library, rules: Rules) {
    forall id :: id in rules ==> Intact(lib, rules[id]) && id == HexLower(rules[id].rule.ruleId)
  }

  /** Every stored rule passes the integrity check of reading, in every run. */
  lemma {:induction false} RulesStayIntact(lib: Library, actions: seq<Action>)
    ensures RulesIntact(lib, DataAfter(lib, actions).rules)
  {
    if actions != [] {
      var n := |actions| - 1;
      RulesStayIntact(lib, actions[..n]);
      StepKeepsRulesIntact(lib, Run(lib, actions[..n]), actions[n], DataAfter(lib, actions).rules);
    }
  }

  lemma InsertKeepsIntact(lib: Library, rules: Rules, rule: WatchRule)
    requires RulesIntact(lib, rules)
    ensures RulesIntact(lib, RuleInserted(rules, lib, rule))
  {
    FreshRowIsIntact(lib, rule);
  }

  lemma CompletionKeepsIntact(lib: Library, rules: Rules, id: string, used: u64, slot: u64)
    requires RulesIntact(lib, rules)
    ensures RulesIntact(lib, RuleWritten(rules, id, used, slot))
  {
  }

  lemma MoveKeepsIntact(lib: Library, d: Data, v: Watcher, i: WatcherInput)
    requires RulesIntact(lib, d.rules)
    ensures RulesIntact(lib, WatcherMove(d, v, i).0.rules)
  {
    if v.pc.AtCompleteRule? {
      CompletionKeepsIntact(lib, d.rules, RuleKey(v.candidate), v.candidate.amountRaw, v.pc.slot);
    } else {
      assert WatcherMove(d, v, i).0.rules == d.rules;
    }
  }

  /** Rules change by inserts and by watchers' moves only. */
  lemma OthersKeepRules(lib: Library, w: World, a: Action)
    requires !a.InsertWatchRule? && !(a.WatcherSteps? && a.k in w.watchers)
    ensures Step(lib, w, a).d.rules == w.d.rules
  {
  }

  lemma StepKeepsRulesIntact(lib: Library, w: World, a: Action, rules: Rules)
    requires RulesIntact(lib, w.d.rules) && rules == Step(lib, w, a).d.rules
    ensures RulesIntact(lib, rules)
  {
    if a.InsertWatchRule? {
      InsertKeepsIntact(lib, w.d.rules, a.rule);
    } else if a.WatcherSteps? && a.k in w.watchers {
      MoveKeepsIntact(lib, w.d, w.watchers[a.k], a.input);
    } else {
      OthersKeepRules(lib, w, a);
    }
  }

  // ---- The interleaved programs are the sequential ones ----------------------------------------------

  /** One confirmation call left alone in the system takes exactly the steps of
      the sequential tool. */
  function ConfirmAlone(lib: Library, d: Data, f: Confirmer, o: ConfirmOutside, n: nat): (Data, Confirmer)
    decreases n
  {
    if n == 0 then (d, f)
    else
      var move := ConfirmMove(lib, d, f, InputOf(o, f.pc));
      ConfirmAlone(lib, move.0, move.1, o, n - 1)
  }

  /** The outside as seen by the next call of the program. */
  function InputOf(o: ConfirmOutside, pc: ConfirmPc): ConfirmInput {
    var fault :=
      match pc
      case GettingRow => o.faults.getRow
      case GettingRule(_) => o.faults.getRule
      case Submitting(_, _, _) => o.faults.submit
      case Reserving(_, _, _) => o.faults.reserve
      case _ => o.faults.reread;
    ConfirmInput(fault, o.reader, o.nowMs)
  }

  lemma {:induction false} ConfirmAloneIsSolo(lib: Library, d: Data, f: Confirmer, o: ConfirmOutside, n: nat)
    ensures
      var (rows, pc) := SoloConfirm(lib, f.params, o, d.rows, d.rules, f.pc, n);
      var (d', f') := ConfirmAlone(lib, d, f, o, n);
      d'.rows == rows && d'.rules == d.rules && f'.pc == pc && f'.params == f.params
    decreases n
  {
    if n > 0 {
      var move := ConfirmMove(lib, d, f, InputOf(o, f.pc));
      ConfirmStepIsSolo(lib, d, f, o);
      ConfirmAloneIsSolo(lib, move.0, move.1, o, n - 1);
    }
  }

  lemma ConfirmStepIsSolo(lib: Library, d: Data, f: Confirmer, o: ConfirmOutside)
    ensures
      var (rows, pc) := SoloConfirmStep(lib, f.params, o, d.rows, d.rules, f.pc);
      var move := ConfirmMove(lib, d, f, InputOf(o, f.pc));
      move.0.rows == rows && move.0.rules == d.rules && move.1.pc == pc && move.1.params == f.params
  {
  }

  /** A watcher move is the matching step of the sequential attempt. The one call
      "submit and observe" is two moves here: the send and the last poll. */
  lemma WatcherMoveIsSolo(d: Data, v: Watcher, i: WatcherInput, o: Outside)
    requires !v.pc.AtSubmit? && !v.pc.AtPoll?
    requires i.nowMs == o.nowMs && i.review == o.review
    requires v.pc.AtLease? ==> i.fault == o.faults.lease
    requires v.pc.AtRelease? ==> i.fault == o.faults.release
    requires v.pc.AtFail? ==> i.fault == o.faults.fail
    requires v.pc.AtCompleteRule? ==> i.fault == o.faults.rule
    requires v.pc.AtCompleteFunding? ==> i.fault == o.faults.complete
    ensures
      var (durable, pc) := SoloStep(v.candidate, o, Durable(d.rows, d.rules), v.pc);
      var move := WatcherMove(d, v, i);
      Durable(move.0.rows, move.0.rules) == durable && move.1.pc == pc && move.1.candidate == v.candidate
  {
  }

  /** What the call "submit and observe" returns, from its two halves. */
  function AttemptOutcome(signature: string, i: WatcherInput): NetworkOutcome {
    var decided := AfterSend(i.writable, signature, i.send);
    if decided.Some? then decided.value else PollOutcome(signature, i.poll)
  }

  lemma SubmitThenPollIsSolo(d: Data, v: Watcher, i: WatcherInput, o: Outside)
    requires v.pc.AtSubmit? && o.network == AttemptOutcome(v.pc.payload.signature, i)
    ensures
      var (durable, pc) := SoloStep(v.candidate, o, Durable(d.rows, d.rules), v.pc);
      var sent := WatcherMove(d, v, i);
      var end := if sent.1.pc.AtPoll? then WatcherMove(sent.0, sent.1, i) else sent;
      && Durable(end.0.rows, end.0.rules) == durable && end.1.pc == pc
      && (o.network.PreBroadcastFailure? <==> end.0.sends == d.sends)
  {
    var id := v.candidate.intentId;
    var sends := d.sends[id := d.Log(id) + [v.pc.payload.signature]];
    assert |sends[id]| == |d.Log(id)| + 1;
  }

  // ---- Recovery -----------------------------------------------------------------------------------------

  /** Whatever happened before, crashes between the two writes included: while the
      row still waits for this payment, one undisturbed retry with the same
      verified signature reserves it. */
  lemma RetryAfterAnyRun(lib: Library, actions: seq<Action>, f: Confirmer, o: ConfirmOutside, tx: Observation)
    requires f.pc == Start(lib, f.params) == GettingRow
    requires o.faults == ConfirmFaults(NoFault, NoFault, NoFault, NoFault, NoFault)
    requires
      var d := DataAfter(lib, actions);
      var id := f.params.intentId;
      && id in d.rows && id in d.rules && RuleMatchesIntent(lib, d.rules[id], d.rows[id].terms)
      && (d.rows[id].status == FundingRequired
          || (d.rows[id].status == FundingSubmitted && d.rows[id].fundingSignature == Some(f.params.txSignature)))
      && o.reader == Some(ReadConfirmed(tx)) && Paid(lib, tx, d.rows[id].terms)
    ensures
      var (d', f') := ConfirmAlone(lib, DataAfter(lib, actions), f, o, CONFIRM_STEPS);
      var id := f.params.intentId;
      && f'.pc.Answered? && f'.pc.answer.Reserved? && f'.pc.answer.slot == Some(tx.slot)
      && id in d'.rows && d'.rows[id].status == BudgetReserved
      && d'.rows[id].fundingSignature == Some(f.params.txSignature)
      && d'.rows[id].terms == DataAfter(lib, actions).rows[id].terms && d'.rules == DataAfter(lib, actions).rules
  {
    var d, id := DataAfter(lib, actions), f.params.intentId;
    InvariantHolds(lib, actions);
    assert RowOk(d, id);
    RulesStayIntact(lib, actions);
    RetryReachesReserved(lib, f.params, o, d.rows, d.rules, tx);
    ConfirmAloneIsSolo(lib, d, f, o, CONFIRM_STEPS);
  }
}
