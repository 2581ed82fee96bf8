// The invariant of the interleaved lifecycle, and the proof that every step of
// every action keeps it. The proof is local: each move of one watcher or one
// confirmation call is judged on the data alone and then lifted to the system.
module LifecycleInvariant {
  import opened Prelude
  import opened Codecs
  import opened WatchRules
  import opened StateStore
  import opened Submission
  import opened FundingProof
  import opened ConfirmFunding
  import opened Execution
  import opened Lifecycle

  // ---- The invariant ---------------------------------------------------------------------

  ghost predicate SettledStatus(s: Status) {
    s == Executing || s == Completed || s == Failed
  }

  /** Every payment on record verifies against the row it was made for. */
  ghost predicate ProofsOk(lib: Library, d: Data) {
    forall key :: key in d.proofs ==>
      key.0 in d.rows && VerifyFundingTransaction(lib, d.proofs[key], d.rows[key.0].terms).Ok?
  }

  ghost predicate RowOk(d: Data, id: string)
    requires id in d.rows
  {
    var row := d.rows[id];
    && (row.status == FundingRequired <==> row.fundingSignature.None?)
    && (row.fundingSignature.Some? ==> (id, row.fundingSignature.value) in d.proofs)
    && (row.status != FundingRequired && row.status != FundingSubmitted && row.status != FundingInvalid ==>
          (id, row.fundingSignature.value) in d.reserved)
    && |d.Log(id)| <= 1
    && (d.Log(id) != [] ==> SettledStatus(row.status))
    && (row.status == Completed ==>
          && d.Log(id) != [] && row.executionSignature == Some(d.Log(id)[0])
          && d.Log(id)[0] in d.landed
          && id in d.rules && d.rules[id].completed)
    && (row.status == Failed && row.lastError == Some(OnchainFailed) ==>
          d.Log(id) != [] && d.Log(id)[0] in d.reverted)
    && (row.refundSignature.Some? ==> row.status == Refunded)
  }

  /** Answers that a lease holder's store calls can never give. */
  ghost predicate UnexpectedError(e: ReportError) {
    e.StoreProblem?
    && (e.code.ReleaseNotApplied? || e.code.FailureNotRecorded? || e.code.RuleCompletionNotApplied?
        || e.code.FundingCompletionNotAppliedAfterRule? || e.code.RuleCompletionEvidenceMissing?)
  }

  ghost predicate WatcherOk(d: Data, v: Watcher) {
    var id := v.candidate.intentId;
    && MayStart(d, v.candidate)
    && (v.pc.HoldsLease() ==> d.rows[id].status == Executing)
    && (v.pc.HoldsLease() && !v.pc.PastSend() ==> d.Log(id) == [])
    && (v.pc.PastSend() ==> d.Log(id) == [v.pc.signature])
    && (v.pc.AtFail? ==> v.pc.signature in d.reverted)
    && (v.pc.AtCompleteRule? || v.pc.AtCompleteFunding? ==> v.pc.signature in d.landed)
    && (v.pc.AtCompleteFunding? ==> d.rules[id].completed)
    && (!v.pc.Done? && !v.pc.Crashed? && !v.pc.AtCompleteFunding? ==> v.ruleWrites == 0)
    && (v.pc.Done? ==> !UnexpectedError(v.pc.report.error) && !v.pc.report.status.FinalizedInvariantBroken?)
  }

  /** A row read earlier, compared with the row now. */
  ghost predicate StillTrue(d: Data, id: string, row: FundingRow) {
    && id in d.rows && d.rows[id].terms == row.terms
    && (row.fundingSignature.Some? ==> d.rows[id].fundingSignature == row.fundingSignature)
    && (row.status == BudgetReserved ==> row.fundingSignature.Some? && (id, row.fundingSignature.value) in d.reserved)
  }

  ghost predicate ConfirmerOk(d: Data, f: Confirmer) {
    var id, signature := f.params.intentId, f.params.txSignature;
    match f.pc
    case GettingRow => f.writes == 0
    case GettingRule(row) => f.writes == 0 && StillTrue(d, id, row)
    case Reading(row, rule, already) =>
      f.writes == 0 && StillTrue(d, id, row)
      && (already ==> row.status == BudgetReserved && row.fundingSignature == Some(signature))
    case Submitting(row, rule, tx) => f.writes == 0 && (id, signature) in d.proofs
    case Reserving(row, rule, tx) => (id, signature) in d.proofs
    case Rechecking(rule, tx) => true
    case Rereading(rule, tx) => (id, signature) in d.reserved
    case Answered(answer) =>
      && (answer.PromisesNoWrites() ==> f.writes == 0)
      && (answer.Reserved? ==> answer.signature == signature && (id, signature) in d.reserved)
    case ConfirmCrashed => true
  }

  ghost predicate LogsOk(d: Data) {
    && (forall id :: d.Log(id) != [] ==> id in d.rows)
    && (forall r :: r in d.reserved ==> r.0 in d.rows && d.rows[r.0].fundingSignature == Some(r.1))
  }

  ghost predicate DataOk(d: Data) {
    LogsOk(d) && forall id :: id in d.rows ==> RowOk(d, id)
  }

  ghost predicate BothHold(a: Watcher, b: Watcher) {
    a.pc.HoldsLease() && b.pc.HoldsLease() && a.candidate.intentId == b.candidate.intentId
  }

  /** No two watchers hold the lease of one intent. */
  ghost predicate LeaseIsExclusive(watchers: map<nat, Watcher>) {
    forall j, k :: j in watchers && k in watchers && BothHold(watchers[j], watchers[k]) ==> j == k
  }

  ghost predicate Inv(lib: Library, w: World) {
    && DataOk(w.d) && ProofsOk(lib, w.d)
    && (forall k :: k in w.watchers ==> WatcherOk(w.d, w.watchers[k]))
    && LeaseIsExclusive(w.watchers)
    && (forall k :: k in w.confirmers ==> ConfirmerOk(w.d, w.confirmers[k]))
  }

  // ---- What no step undoes ------------------------------------------------------------------

  ghost predicate RowKept(before: FundingRow, after: FundingRow) {
    && after.terms == before.terms
    && (before.fundingSignature.Some? ==> after.fundingSignature == before.fundingSignature)
    && (after.status == before.status || Edge(before.status, after.status))
  }

  /** Rows and their terms stay, a funding signature once set is never replaced,
      statuses follow the lifecycle, rules stay and stay completed, and every
      record only grows. */
  ghost predicate Keeps(d: Data, d': Data) {
    && (forall id :: id in d.rows ==> id in d'.rows && RowKept(d.rows[id], d'.rows[id]))
    && (forall id :: id in d.rules ==> id in d'.rules && (d.rules[id].completed ==> d'.rules[id].completed))
    && (forall id :: d.Log(id) <= d'.Log(id))
    && d.landed <= d'.landed && d.reverted <= d'.reverted && d.reserved <= d'.reserved
    && d.proofs.Keys <= d'.proofs.Keys
  }

  /** Only the row and the log of one intent change. */
  ghost predicate OnlyTouches(d: Data, d': Data, hot: string) {
    && (forall id :: id in d'.rows && id != hot ==> id in d.rows && d'.rows[id] == d.rows[id])
    && (forall id :: id != hot ==> d'.Log(id) == d.Log(id))
  }

  ghost predicate Untouched(d: Data, d': Data, hot: string) {
    hot in d.rows && hot in d'.rows && d'.rows[hot] == d.rows[hot] && d'.Log(hot) == d.Log(hot)
  }

  /** One move of the data, seen from outside. */
  ghost predicate MoveOk(d: Data, d': Data, hot: string) {
    && Keeps(d, d') && OnlyTouches(d, d', hot) && LogsOk(d')
    && (hot in d'.rows ==> RowOk(d', hot))
  }

  lemma RowStill(d: Data, d': Data, id: string)
    requires Keeps(d, d') && id in d.rows && RowOk(d, id) && Untouched(d, d', id)
    ensures RowOk(d', id)
  {
  }

  lemma WatcherStill(d: Data, d': Data, v: Watcher)
    requires Keeps(d, d') && WatcherOk(d, v)
    requires v.pc.HoldsLease() ==> Untouched(d, d', v.candidate.intentId)
    ensures WatcherOk(d', v)
  {
  }

  lemma ConfirmerStill(d: Data, d': Data, f: Confirmer)
    requires Keeps(d, d') && ConfirmerOk(d, f)
    ensures ConfirmerOk(d', f)
  {
  }

  lemma DataStill(d: Data, d': Data, hot: string)
    requires DataOk(d) && MoveOk(d, d', hot)
    ensures DataOk(d')
  {
    forall id | id in d'.rows ensures RowOk(d', id) {
      if id != hot {
        RowStill(d, d', id);
      }
    }
  }

  // ---- One watcher move ------------------------------------------------------------------------

  /** What each label of a finished attempt says about the store. */
  ghost predicate ReportFits(d: Data, id: string, report: Report, ruleWrites: nat)
    requires id in d.rows && id in d.rules
  {
    FundingFits(d.rows[id].status, report.funding) && RuleFits(d.rules[id], report.rule, ruleWrites)
    && (report.signature.Some? ==> d.Log(id) == [report.signature.value])
  }

  ghost predicate FundingFits(status: Status, says: FundingLabel) {
    match says
    case SaysReserved => status == BudgetReserved
    case SaysUnknownOrNotReserved => true
    case SaysExecuting => status == Executing
    case SaysFailed => status == Failed
    case SaysExecutingOrFailed => status == Executing || status == Failed
    case SaysExecutingOrReserved => status == Executing || status == BudgetReserved
    case SaysCompleted => status == Completed
    case SaysExecutingOrCompleted => status == Executing || status == Completed
  }

  ghost predicate RuleFits(rule: RuleRow, says: RuleLabel, ruleWrites: nat) {
    match says
    case SaysUnchanged => ruleWrites == 0
    case SaysUnchangedOrUnknown => true
    case SaysRuleCompleted => rule.completed
    case SaysRuleUnknown => false
  }

  /** Where a move leaves its watcher. Without the lease a watcher leaves the row
      alone or takes the lease of a reserved row. */
  ghost predicate WatcherAfter(d: Data, v: Watcher, move: (Data, Watcher)) {
    var id, d', v' := v.candidate.intentId, move.0, move.1;
    && WatcherOk(d', v') && v'.candidate == v.candidate
    && (!v.pc.HoldsLease() ==>
          (Untouched(d, d', id) && !v'.pc.HoldsLease()) || (id in d.rows && d.rows[id].status == BudgetReserved))
    && (v'.pc.Done? && !v.pc.Done? ==> ReportFits(d', id, v'.pc.report, v'.ruleWrites))
  }

  /** What the writer of a row has to know about it. */
  ghost predicate Justified(d: Data, id: string, write: FundingWrite)
    requires id in d.rows
  {
    match write
    case MarkSubmitted(signature) => (id, signature) in d.proofs
    case MarkReserved(_, _) => false
    case ReleaseLease(_) => d.Log(id) == []
    case MarkCompleted(signature) =>
      d.Log(id) == [signature] && signature in d.landed && id in d.rules && d.rules[id].completed
    case MarkFailed(reason) =>
      if reason == OnchainFailed then d.Log(id) != [] && d.Log(id)[0] in d.reverted
      else d.rows[id].status == Refunding
    case _ => true
  }

  lemma UpdatedRowKept(row: FundingRow, write: FundingWrite)
    requires Allowed(row, write)
    requires row.status == FundingRequired ==> row.fundingSignature.None?
    ensures RowKept(row, Updated(row, write))
  {
    WritesFollowEdges(row, write);
  }

  lemma RowSetKeeps(d: Data, id: string, row: FundingRow)
    requires id in d.rows && RowKept(d.rows[id], row)
    ensures Keeps(d, d.(rows := d.rows[id := row])) && OnlyTouches(d, d.(rows := d.rows[id := row]), id)
  {
    assert forall other :: other in d.rows ==> RowKept(d.rows[other], d.rows[other]);
  }

  lemma NothingKeeps(d: Data, id: string)
    ensures Keeps(d, d) && OnlyTouches(d, d, id)
  {
  }

  lemma RowWriteKeeps(d: Data, id: string, write: FundingWrite, fault: Fault)
    requires id in d.rows && RowOk(d, id)
    ensures Keeps(d, WriteRow(d, id, write, fault)) && OnlyTouches(d, WriteRow(d, id, write, fault), id)
  {
    NothingKeeps(d, id);
    WriteIsUpdate(d, id, write, fault);
    if Allowed(d.rows[id], write) {
      UpdatedRowKept(d.rows[id], write);
      RowSetKeeps(d, id, Updated(d.rows[id], write));
    }
  }

  lemma WriteIsUpdate(d: Data, id: string, write: FundingWrite, fault: Fault)
    requires id in d.rows
    ensures
      || WriteRow(d, id, write, fault) == d
      || (Allowed(d.rows[id], write)
          && WriteRow(d, id, write, fault) == d.(rows := d.rows[id := Updated(d.rows[id], write)]))
  {
  }

  lemma WrittenRowOk(d: Data, id: string, write: FundingWrite, fault: Fault)
    requires id in d.rows && RowOk(d, id) && Justified(d, id, write)
    ensures RowOk(WriteRow(d, id, write, fault), id)
  {
    var row, d' := d.rows[id], WriteRow(d, id, write, fault);
    assert d'.Log(id) == d.Log(id);
  }

  lemma RowWriteOk(d: Data, id: string, write: FundingWrite, fault: Fault)
    requires DataOk(d) && id in d.rows && Justified(d, id, write)
    ensures MoveOk(d, WriteRow(d, id, write, fault), id)
  {
    RowWriteKeeps(d, id, write, fault);
    WrittenRowOk(d, id, write, fault);
    var d' := WriteRow(d, id, write, fault);
    assert LogsOk(d') by {
      assert forall other :: d'.Log(other) == d.Log(other);
    }
  }

  /** Records and rules may grow without touching any row or log. */
  lemma RowsUntouched(d: Data, d': Data, id: string)
    requires DataOk(d)
    requires d'.rows == d.rows && d'.sends == d.sends && d'.proofs.Keys >= d.proofs.Keys
    requires d.landed <= d'.landed && d.reverted <= d'.reverted && d'.reserved == d.reserved
    requires forall key :: key in d.rules ==> key in d'.rules && (d.rules[key].completed ==> d'.rules[key].completed)
    ensures MoveOk(d, d', id) && (id in d.rows ==> Untouched(d, d', id))
  {
    assert forall other :: d'.Log(other) == d.Log(other);
    if id in d.rows {
      RowStill(d, d', id);
    }
  }

  /** The first send of an intent, while its row is executing. */
  lemma FirstSend(d: Data, id: string, signature: string)
    requires DataOk(d) && id in d.rows && d.rows[id].status == Executing && d.Log(id) == []
    ensures
      var d' := d.(sends := d.sends[id := d.Log(id) + [signature]]);
      MoveOk(d, d', id) && d'.Log(id) == [signature]
  {
    var d' := d.(sends := d.sends[id := d.Log(id) + [signature]]);
    assert RowOk(d, id) && forall other :: other != id ==> d'.Log(other) == d.Log(other);
  }

  lemma LeaseMoveOk(d: Data, v: Watcher, i: WatcherInput)
    requires DataOk(d) && WatcherOk(d, v) && v.pc.AtLease?
    ensures MoveOk(d, LeaseMove(d, v, i).0, v.candidate.intentId)
  {
    RowWriteOk(d, v.candidate.intentId, LeaseExecution(i.nowMs), i.fault);
  }

  lemma SubmitMoveOk(d: Data, v: Watcher, i: WatcherInput)
    requires DataOk(d) && WatcherOk(d, v) && v.pc.AtSubmit?
    ensures MoveOk(d, SubmitMove(d, v, i).0, v.candidate.intentId)
  {
    RowsUntouched(d, d, v.candidate.intentId);
    FirstSend(d, v.candidate.intentId, v.pc.payload.signature);
  }

  lemma PollMoveOk(d: Data, v: Watcher, i: WatcherInput)
    requires DataOk(d) && WatcherOk(d, v) && v.pc.AtPoll?
    ensures MoveOk(d, PollMove(d, v, i).0, v.candidate.intentId)
  {
    RowsUntouched(d, PollMove(d, v, i).0, v.candidate.intentId);
  }

  lemma ReleaseMoveOk(d: Data, v: Watcher, i: WatcherInput)
    requires DataOk(d) && WatcherOk(d, v) && v.pc.AtRelease?
    ensures MoveOk(d, ReleaseMove(d, v, i).0, v.candidate.intentId)
  {
    RowWriteOk(d, v.candidate.intentId, ReleaseLease(PrebroadcastFailed), i.fault);
  }

  lemma FailMoveOk(d: Data, v: Watcher, i: WatcherInput)
    requires DataOk(d) && WatcherOk(d, v) && v.pc.AtFail?
    ensures MoveOk(d, FailMove(d, v, i).0, v.candidate.intentId)
  {
    RowWriteOk(d, v.candidate.intentId, MarkFailed(OnchainFailed), i.fault);
  }

  lemma CompleteRuleMoveOk(d: Data, v: Watcher, i: WatcherInput)
    requires DataOk(d) && WatcherOk(d, v) && v.pc.AtCompleteRule?
    ensures MoveOk(d, CompleteRuleMove(d, v, i).0, v.candidate.intentId)
  {
    RowsUntouched(d, CompleteRuleMove(d, v, i).0, v.candidate.intentId);
  }

  lemma CompleteFundingMoveOk(d: Data, v: Watcher, i: WatcherInput)
    requires DataOk(d) && WatcherOk(d, v) && v.pc.AtCompleteFunding?
    ensures MoveOk(d, CompleteFundingMove(d, v, i).0, v.candidate.intentId)
  {
    RowWriteOk(d, v.candidate.intentId, MarkCompleted(v.pc.signature), i.fault);
  }

  lemma WatcherMoveOk(d: Data, v: Watcher, i: WatcherInput)
    requires DataOk(d) && WatcherOk(d, v)
    ensures MoveOk(d, WatcherMove(d, v, i).0, v.candidate.intentId)
  {
    match v.pc
    case AtLease => LeaseMoveOk(d, v, i);
    case AtSubmit(_) => SubmitMoveOk(d, v, i);
    case AtPoll(_) => PollMoveOk(d, v, i);
    case AtRelease(_, _) => ReleaseMoveOk(d, v, i);
    case AtFail(_, _) => FailMoveOk(d, v, i);
    case AtCompleteRule(_, _) => CompleteRuleMoveOk(d, v, i);
    case AtCompleteFunding(_, _) => CompleteFundingMoveOk(d, v, i);
    case _ => RowsUntouched(d, d, v.candidate.intentId);
  }

  lemma WatcherMoveAfter(d: Data, v: Watcher, i: WatcherInput)
    requires DataOk(d) && WatcherOk(d, v)
    ensures WatcherAfter(d, v, WatcherMove(d, v, i))
  {
    match v.pc
    case AtLease => LeaseAfter(d, v, i);
    case AtSubmit(_) => SubmitAfter(d, v, i);
    case AtPoll(_) => PollAfter(d, v, i);
    case AtRelease(_, _) => ReleaseAfter(d, v, i);
    case AtFail(_, _) => FailAfter(d, v, i);
    case AtCompleteRule(_, _) => CompleteRuleAfter(d, v, i);
    case AtCompleteFunding(_, _) => CompleteFundingAfter(d, v, i);
    case _ =>
  }

  lemma LeaseAfter(d: Data, v: Watcher, i: WatcherInput)
    requires DataOk(d) && WatcherOk(d, v) && v.pc.AtLease?
    ensures WatcherAfter(d, v, LeaseMove(d, v, i))
  {
    assert RowOk(d, v.candidate.intentId);
  }

  lemma SubmitAfter(d: Data, v: Watcher, i: WatcherInput)
    requires DataOk(d) && WatcherOk(d, v) && v.pc.AtSubmit?
    ensures WatcherAfter(d, v, SubmitMove(d, v, i))
  {
    assert RowOk(d, v.candidate.intentId);
  }

  lemma PollAfter(d: Data, v: Watcher, i: WatcherInput)
    requires DataOk(d) && WatcherOk(d, v) && v.pc.AtPoll?
    ensures WatcherAfter(d, v, PollMove(d, v, i))
  {
    assert RowOk(d, v.candidate.intentId);
  }

  lemma ReleaseAfter(d: Data, v: Watcher, i: WatcherInput)
    requires DataOk(d) && WatcherOk(d, v) && v.pc.AtRelease?
    ensures WatcherAfter(d, v, ReleaseMove(d, v, i))
  {
    assert RowOk(d, v.candidate.intentId);
  }

  lemma FailAfter(d: Data, v: Watcher, i: WatcherInput)
    requires DataOk(d) && WatcherOk(d, v) && v.pc.AtFail?
    ensures WatcherAfter(d, v, FailMove(d, v, i))
  {
    assert RowOk(d, v.candidate.intentId);
  }

  lemma CompleteRuleAfter(d: Data, v: Watcher, i: WatcherInput)
    requires DataOk(d) && WatcherOk(d, v) && v.pc.AtCompleteRule?
    ensures WatcherAfter(d, v, CompleteRuleMove(d, v, i))
  {
    assert RowOk(d, v.candidate.intentId);
  }

  lemma CompleteFundingAfter(d: Data, v: Watcher, i: WatcherInput)
    requires DataOk(d) && WatcherOk(d, v) && v.pc.AtCompleteFunding?
    ensures WatcherAfter(d, v, CompleteFundingMove(d, v, i))
  {
    assert RowOk(d, v.candidate.intentId);
  }

  // ---- One confirmation move -------------------------------------------------------------------

  /** Payments speak of the terms of their row only. */
  lemma ProofsStay(lib: Library, d: Data, d': Data)
    requires ProofsOk(lib, d) && d'.proofs == d.proofs
    requires forall id :: id in d.rows ==> id in d'.rows && d'.rows[id].terms == d.rows[id].terms
    ensures ProofsOk(lib, d')
  {
    forall key | key in d'.proofs
      ensures key.0 in d'.rows && VerifyFundingTransaction(lib, d'.proofs[key], d'.rows[key.0].terms).Ok?
    {
      assert key.0 in d.rows;
    }
  }

  lemma RowWriteProofs(lib: Library, d: Data, id: string, write: FundingWrite, fault: Fault)
    requires ProofsOk(lib, d)
    ensures ProofsOk(lib, WriteRow(d, id, write, fault))
  {
    if id in d.rows {
      WriteIsUpdate(d, id, write, fault);
      if Allowed(d.rows[id], write) {
        WritesFollowEdges(d.rows[id], write);
      }
    }
    ProofsStay(lib, d, WriteRow(d, id, write, fault));
  }

  /** Where a move leaves its confirmation call; it never writes to a row whose
      execution lease is out. */
  ghost predicate ConfirmerAfter(d: Data, f: Confirmer, move: (Data, Confirmer)) {
    var id, d', f' := f.params.intentId, move.0, move.1;
    && ConfirmerOk(d', f') && f'.params == f.params
    && (id in d.rows ==> Untouched(d, d', id) || d.rows[id].status != Executing)
  }

  /** Reading a transaction changes the record of payments, if anything. */
  lemma ReadMoveData(lib: Library, d: Data, f: Confirmer, i: ConfirmInput, d': Data)
    requires f.pc.Reading? && d' == ReadMove(lib, d, f, i).0
    ensures d' == d.(proofs := d'.proofs) && d.proofs.Keys <= d'.proofs.Keys
  {
  }

  lemma ReadMoveOk(lib: Library, d: Data, f: Confirmer, i: ConfirmInput)
    requires DataOk(d) && f.pc.Reading?
    ensures MoveOk(d, ReadMove(lib, d, f, i).0, f.params.intentId)
  {
    ReadMoveData(lib, d, f, i, ReadMove(lib, d, f, i).0);
    RowsUntouched(d, ReadMove(lib, d, f, i).0, f.params.intentId);
  }

  lemma ReadAfter(lib: Library, d: Data, f: Confirmer, i: ConfirmInput, move: (Data, Confirmer))
    requires DataOk(d) && ConfirmerOk(d, f) && f.pc.Reading? && move == ReadMove(lib, d, f, i)
    ensures ConfirmerAfter(d, f, move)
  {
    var d', id := move.0, f.params.intentId;
    ReadMoveData(lib, d, f, i, d');
    assert d'.Log(id) == d.Log(id);
  }

  /** What goes on record was verified against the row as read, whose terms are the row's. */
  lemma ReadProofs(lib: Library, d: Data, f: Confirmer, i: ConfirmInput)
    requires ProofsOk(lib, d) && ConfirmerOk(d, f) && f.pc.Reading?
    ensures ProofsOk(lib, ReadMove(lib, d, f, i).0)
  {
  }

  lemma SubmittedMoveOk(lib: Library, d: Data, f: Confirmer, i: ConfirmInput)
    requires DataOk(d) && ProofsOk(lib, d) && ConfirmerOk(d, f) && f.pc.Submitting?
    ensures MoveOk(d, SubmittedMove(d, f, i).0, f.params.intentId)
  {
    RowWriteOk(d, f.params.intentId, MarkSubmitted(f.params.txSignature), i.fault);
  }

  lemma SubmittedAfter(lib: Library, d: Data, f: Confirmer, i: ConfirmInput, move: (Data, Confirmer))
    requires DataOk(d) && ProofsOk(lib, d) && ConfirmerOk(d, f) && f.pc.Submitting? && move == SubmittedMove(d, f, i)
    ensures ConfirmerAfter(d, f, move)
  {
    var id, write := f.params.intentId, MarkSubmitted(f.params.txSignature);
    assert move.0.proofs == d.proofs && move.0.Log(id) == d.Log(id);
    WriteIsUpdate(d, id, write, i.fault);
  }

  lemma ReservationOk(d: Data, id: string, signature: string, slot: u64)
    requires DataOk(d) && id in d.rows && Allowed(d.rows[id], MarkReserved(signature, slot))
    ensures
      var d' := d.(rows := d.rows[id := Updated(d.rows[id], MarkReserved(signature, slot))],
                   reserved := d.reserved + {(id, signature)});
      MoveOk(d, d', id)
  {
    var row := Updated(d.rows[id], MarkReserved(signature, slot));
    assert RowOk(d, id);
    UpdatedRowKept(d.rows[id], MarkReserved(signature, slot));
    RowSetKeeps(d, id, row);
    var d1 := d.(rows := d.rows[id := row]);
    var d' := d1.(reserved := d.reserved + {(id, signature)});
    assert forall other :: d'.Log(other) == d1.Log(other) == d.Log(other);
  }

  lemma ReservedMoveOk(lib: Library, d: Data, f: Confirmer, i: ConfirmInput)
    requires DataOk(d) && ProofsOk(lib, d) && ConfirmerOk(d, f) && f.pc.Reserving?
    ensures MoveOk(d, ReservedMove(d, f, i).0, f.params.intentId)
  {
    var id, signature, slot := f.params.intentId, f.params.txSignature, f.pc.tx.slot;
    if !i.fault.LostBefore? && Affected(d.rows, id, MarkReserved(signature, slot)) == 1 {
      ReservationOk(d, id, signature, slot);
    } else {
      RowsUntouched(d, d, id);
    }
  }

  lemma ReservedAfter(lib: Library, d: Data, f: Confirmer, i: ConfirmInput)
    requires DataOk(d) && ProofsOk(lib, d) && ConfirmerOk(d, f) && f.pc.Reserving?
    ensures ConfirmerAfter(d, f, ReservedMove(d, f, i))
  {
    assert RowOk(d, f.params.intentId);
  }

  lemma FirstLookups(lib: Library, d: Data, f: Confirmer, i: ConfirmInput)
    requires DataOk(d) && ConfirmerOk(d, f) && (f.pc.GettingRow? || f.pc.GettingRule?)
    ensures ConfirmerAfter(d, f, ConfirmMove(lib, d, f, i))
  {
    if f.params.intentId in d.rows {
      assert RowOk(d, f.params.intentId);
    }
  }

  lemma LastLookups(lib: Library, d: Data, f: Confirmer, i: ConfirmInput)
    requires DataOk(d) && ConfirmerOk(d, f) && (f.pc.Rechecking? || f.pc.Rereading?)
    ensures ConfirmerAfter(d, f, ConfirmMove(lib, d, f, i))
  {
    if f.params.intentId in d.rows {
      assert RowOk(d, f.params.intentId);
    }
  }

  lemma ConfirmMoveOk(lib: Library, d: Data, f: Confirmer, i: ConfirmInput)
    requires DataOk(d) && ProofsOk(lib, d) && ConfirmerOk(d, f)
    ensures MoveOk(d, ConfirmMove(lib, d, f, i).0, f.params.intentId)
  {
    match f.pc
    case Reading(_, _, _) => ReadMoveOk(lib, d, f, i);
    case Submitting(_, _, _) => SubmittedMoveOk(lib, d, f, i);
    case Reserving(_, _, _) => ReservedMoveOk(lib, d, f, i);
    case _ => RowsUntouched(d, d, f.params.intentId);
  }

  lemma ConfirmMoveAfter(lib: Library, d: Data, f: Confirmer, i: ConfirmInput)
    requires DataOk(d) && ProofsOk(lib, d) && ConfirmerOk(d, f)
    ensures ConfirmerAfter(d, f, ConfirmMove(lib, d, f, i))
  {
    match f.pc
    case GettingRow => FirstLookups(lib, d, f, i);
    case GettingRule(_) => FirstLookups(lib, d, f, i);
    case Reading(_, _, _) => ReadAfter(lib, d, f, i, ReadMove(lib, d, f, i));
    case Submitting(_, _, _) => SubmittedAfter(lib, d, f, i, SubmittedMove(d, f, i));
    case Reserving(_, _, _) => ReservedAfter(lib, d, f, i);
    case Rechecking(_, _) => LastLookups(lib, d, f, i);
    case Rereading(_, _) => LastLookups(lib, d, f, i);
    case _ =>
  }

  lemma ConfirmMoveProofs(lib: Library, d: Data, f: Confirmer, i: ConfirmInput)
    requires DataOk(d) && ProofsOk(lib, d) && ConfirmerOk(d, f)
    ensures ProofsOk(lib, ConfirmMove(lib, d, f, i).0)
  {
    match f.pc
    case Reading(_, _, _) => ReadProofs(lib, d, f, i);
    case Submitting(_, _, _) =>
      RowWriteProofs(lib, d, f.params.intentId, MarkSubmitted(f.params.txSignature), i.fault);
    case Reserving(_, _, tx) =>
      RowWriteProofs(lib, d, f.params.intentId, MarkReserved(f.params.txSignature, tx.slot), i.fault);
    case _ =>
  }

  // ---- Steps of the whole system ------------------------------------------------------------------

  /** Everybody except the mover finds the world as it was. */
  ghost predicate OthersSame(w: World, w': World, kw: Option<nat>, kc: Option<nat>) {
    && (forall k :: k in w'.watchers && Some(k) != kw ==> k in w.watchers && w'.watchers[k] == w.watchers[k])
    && (forall k :: k in w'.confirmers && Some(k) != kc ==> k in w.confirmers && w'.confirmers[k] == w.confirmers[k])
  }

  ghost predicate MoversOk(w': World, kw: Option<nat>, kc: Option<nat>) {
    && (kw.Some? && kw.value in w'.watchers ==> WatcherOk(w'.d, w'.watchers[kw.value]))
    && (kc.Some? && kc.value in w'.confirmers ==> ConfirmerOk(w'.d, w'.confirmers[kc.value]))
  }

  ghost predicate Holds(v: Watcher, id: string) {
    v.pc.HoldsLease() && v.candidate.intentId == id
  }

  /** No other watcher's lease is disturbed. */
  ghost predicate LeaseRespected(w: World, w': World, hot: string, kw: Option<nat>) {
    forall j :: j in w.watchers && Some(j) != kw && Holds(w.watchers[j], hot) ==> Untouched(w.d, w'.d, hot)
  }

  lemma Lift(lib: Library, w: World, w': World, hot: string, kw: Option<nat>, kc: Option<nat>)
    requires Inv(lib, w) && MoveOk(w.d, w'.d, hot) && ProofsOk(lib, w'.d)
    requires OthersSame(w, w', kw, kc) && MoversOk(w', kw, kc)
    requires LeaseRespected(w, w', hot, kw) && LeaseIsExclusive(w'.watchers)
    ensures Inv(lib, w')
  {
    DataStill(w.d, w'.d, hot);
    forall k | k in w'.watchers ensures WatcherOk(w'.d, w'.watchers[k]) {
      if Some(k) != kw {
        WatcherStill(w.d, w'.d, w.watchers[k]);
      }
    }
    forall k | k in w'.confirmers ensures ConfirmerOk(w'.d, w'.confirmers[k]) {
      if Some(k) != kc {
        ConfirmerStill(w.d, w'.d, w.confirmers[k]);
      }
    }
  }

  ghost predicate HoldersExecute(d: Data, watchers: map<nat, Watcher>) {
    forall j :: j in watchers && watchers[j].pc.HoldsLease() ==>
      var id := watchers[j].candidate.intentId; id in d.rows && d.rows[id].status == Executing
  }

  lemma HoldersHoldExecuting(lib: Library, w: World)
    requires Inv(lib, w)
    ensures HoldersExecute(w.d, w.watchers)
  {
    forall j | j in w.watchers && w.watchers[j].pc.HoldsLease()
      ensures
        var id := w.watchers[j].candidate.intentId; id in w.d.rows && w.d.rows[id].status == Executing
    {
      assert WatcherOk(w.d, w.watchers[j]);
    }
  }

  /** A move that starts holding found the row reserved, so nobody else holds. */
  lemma LeaseStaysExclusive(d: Data, watchers: map<nat, Watcher>, k: nat, v: Watcher)
    requires LeaseIsExclusive(watchers) && HoldersExecute(d, watchers) && k in watchers
    requires v.candidate == watchers[k].candidate
    requires
      v.pc.HoldsLease() ==>
        || watchers[k].pc.HoldsLease()
        || (v.candidate.intentId in d.rows && d.rows[v.candidate.intentId].status == BudgetReserved)
    ensures LeaseIsExclusive(watchers[k := v])
  {
    var watchers' := watchers[k := v];
    forall j | j in watchers && j != k && v.pc.HoldsLease() ensures !Holds(watchers[j], v.candidate.intentId) {
      assert !BothHold(watchers[k], watchers[j]);
    }
    forall a, b | a in watchers' && b in watchers' && BothHold(watchers'[a], watchers'[b]) ensures a == b {
      if a != k && b != k {
        assert BothHold(watchers[a], watchers[b]);
      }
    }
  }

  lemma LeaseStaysRespected(w: World, w': World, k: nat)
    requires LeaseIsExclusive(w.watchers) && HoldersExecute(w.d, w.watchers) && k in w.watchers
    requires
      var v := w.watchers[k];
      var id := v.candidate.intentId;
      v.pc.HoldsLease() || Untouched(w.d, w'.d, id) || (id in w.d.rows && w.d.rows[id].status == BudgetReserved)
    ensures LeaseRespected(w, w', w.watchers[k].candidate.intentId, Some(k))
  {
    var id := w.watchers[k].candidate.intentId;
    forall j | j in w.watchers && Some(j) != Some(k) && Holds(w.watchers[j], id) ensures Untouched(w.d, w'.d, id) {
      assert !BothHold(w.watchers[j], w.watchers[k]);
    }
  }

  lemma NobodyHolds(lib: Library, w: World, id: string)
    requires Inv(lib, w) && (id in w.d.rows ==> w.d.rows[id].status != Executing)
    ensures forall j :: j in w.watchers ==> !Holds(w.watchers[j], id)
  {
    HoldersHoldExecuting(lib, w);
  }

  lemma WatcherKeepsLeases(lib: Library, w: World, k: nat, move: (Data, Watcher))
    requires Inv(lib, w) && k in w.watchers && WatcherAfter(w.d, w.watchers[k], move)
    ensures LeaseIsExclusive(w.watchers[k := move.1])
    ensures LeaseRespected(w, WithWatcher(w, k, move), w.watchers[k].candidate.intentId, Some(k))
  {
    HoldersHoldExecuting(lib, w);
    LeaseStaysExclusive(w.d, w.watchers, k, move.1);
    LeaseStaysRespected(w, WithWatcher(w, k, move), k);
  }

  lemma OthersStay(w: World, k: nat, move: (Data, Watcher), w': World)
    requires w' == WithWatcher(w, k, move) && WatcherOk(move.0, move.1)
    ensures OthersSame(w, w', Some(k), None) && MoversOk(w', Some(k), None)
  {
  }

  lemma WatcherMoves(lib: Library, w: World, k: nat, move: (Data, Watcher), w': World)
    requires Inv(lib, w) && k in w.watchers && ProofsOk(lib, move.0)
    requires MoveOk(w.d, move.0, w.watchers[k].candidate.intentId) && WatcherOk(move.0, move.1)
    requires LeaseIsExclusive(w.watchers[k := move.1])
    requires LeaseRespected(w, w', w.watchers[k].candidate.intentId, Some(k)) && w' == WithWatcher(w, k, move)
    ensures Inv(lib, w')
  {
    OthersStay(w, k, move, w');
    Lift(lib, w, w', w.watchers[k].candidate.intentId, Some(k), None);
  }

  lemma ConfirmerRespectsLeases(lib: Library, w: World, k: nat, move: (Data, Confirmer), w': World)
    requires Inv(lib, w) && k in w.confirmers && ConfirmerAfter(w.d, w.confirmers[k], move)
    requires w' == WithConfirmer(w, k, move)
    ensures LeaseRespected(w, w', w.confirmers[k].params.intentId, None)
  {
    var id := w.confirmers[k].params.intentId;
    if !Untouched(w.d, move.0, id) {
      NobodyHolds(lib, w, id);
    }
  }

  lemma ConfirmerMoves(lib: Library, w: World, k: nat, move: (Data, Confirmer), w': World)
    requires Inv(lib, w) && k in w.confirmers && ProofsOk(lib, move.0)
    requires MoveOk(w.d, move.0, w.confirmers[k].params.intentId) && ConfirmerAfter(w.d, w.confirmers[k], move)
    requires w' == WithConfirmer(w, k, move)
    ensures Inv(lib, w')
  {
    ConfirmerRespectsLeases(lib, w, k, move, w');
    Lift(lib, w, w', w.confirmers[k].params.intentId, None, Some(k));
  }

  lemma WatcherMoveProofs(lib: Library, d: Data, v: Watcher, i: WatcherInput)
    requires ProofsOk(lib, d)
    ensures ProofsOk(lib, WatcherMove(d, v, i).0)
  {
    var id := v.candidate.intentId;
    match v.pc
    case AtLease => RowWriteProofs(lib, d, id, LeaseExecution(i.nowMs), i.fault);
    case AtRelease(_, _) => RowWriteProofs(lib, d, id, ReleaseLease(PrebroadcastFailed), i.fault);
    case AtFail(_, _) => RowWriteProofs(lib, d, id, MarkFailed(OnchainFailed), i.fault);
    case AtCompleteFunding(signature, _) => RowWriteProofs(lib, d, id, MarkCompleted(signature), i.fault);
    case _ =>
  }

  lemma WatcherStepOk(lib: Library, w: World, k: nat, i: WatcherInput)
    requires Inv(lib, w) && k in w.watchers
    ensures Inv(lib, WithWatcher(w, k, WatcherMove(w.d, w.watchers[k], i)))
  {
    var v := w.watchers[k];
    WatcherMoveOk(w.d, v, i);
    WatcherMoveAfter(w.d, v, i);
    WatcherMoveProofs(lib, w.d, v, i);
    var move := WatcherMove(w.d, v, i);
    WatcherKeepsLeases(lib, w, k, move);
    WatcherMoves(lib, w, k, move, WithWatcher(w, k, move));
  }

  lemma ConfirmStepOk(lib: Library, w: World, k: nat, i: ConfirmInput)
    requires Inv(lib, w) && k in w.confirmers
    ensures Inv(lib, WithConfirmer(w, k, ConfirmMove(lib, w.d, w.confirmers[k], i)))
  {
    var f := w.confirmers[k];
    ConfirmMoveOk(lib, w.d, f, i);
    ConfirmMoveAfter(lib, w.d, f, i);
    ConfirmMoveProofs(lib, w.d, f, i);
    var move := ConfirmMove(lib, w.d, f, i);
    ConfirmerMoves(lib, w, k, move, WithConfirmer(w, k, move));
  }

  /** A change of the data alone that disturbs no lease. */
  lemma DataMoves(lib: Library, w: World, d': Data, hot: string)
    requires Inv(lib, w) && MoveOk(w.d, d', hot) && ProofsOk(lib, d')
    requires hot in w.d.rows ==> Untouched(w.d, d', hot) || w.d.rows[hot].status != Executing
    ensures Inv(lib, w.(d := d'))
  {
    if !Untouched(w.d, d', hot) {
      NobodyHolds(lib, w, hot);
    }
    Lift(lib, w, w.(d := d'), hot, None, None);
  }

  lemma FreshRowOk(d: Data, terms: FundingTerms)
    requires DataOk(d) && terms.intentId !in d.rows
    ensures MoveOk(d, d.(rows := d.rows[terms.intentId := FreshFundingRow(terms)]), terms.intentId)
  {
    var d' := d.(rows := d.rows[terms.intentId := FreshFundingRow(terms)]);
    assert forall other :: d'.Log(other) == d.Log(other);
    assert d.Log(terms.intentId) == [];
  }

  lemma InsertRowOk(lib: Library, w: World, terms: FundingTerms)
    requires Inv(lib, w) && terms.intentId !in w.d.rows
    ensures Inv(lib, w.(d := w.d.(rows := w.d.rows[terms.intentId := FreshFundingRow(terms)])))
  {
    FreshRowOk(w.d, terms);
    DataMoves(lib, w, w.d.(rows := w.d.rows[terms.intentId := FreshFundingRow(terms)]), terms.intentId);
  }

  lemma InsertRuleOk(lib: Library, w: World, rule: WatchRule)
    requires Inv(lib, w)
    ensures Inv(lib, w.(d := w.d.(rules := RuleInserted(w.d.rules, lib, rule))))
  {
    var d' := w.d.(rules := RuleInserted(w.d.rules, lib, rule));
    RowsUntouched(w.d, d', "");
    DataMoves(lib, w, d', "");
  }

  lemma OtherWriterOk(lib: Library, w: World, id: string, write: FundingWrite)
    requires Inv(lib, w) && id in w.d.rows && OthersMay(w.d.rows[id], write)
    ensures Inv(lib, w.(d := WriteRow(w.d, id, write, NoFault)))
  {
    RowWriteOk(w.d, id, write, NoFault);
    RowWriteProofs(lib, w.d, id, write, NoFault);
    DataMoves(lib, w, WriteRow(w.d, id, write, NoFault), id);
  }

  lemma IdleStaysExclusive(watchers: map<nat, Watcher>, k: nat, v: Watcher)
    requires LeaseIsExclusive(watchers) && !v.pc.HoldsLease()
    ensures LeaseIsExclusive(watchers[k := v])
  {
    var watchers' := watchers[k := v];
    forall a, b | a in watchers' && b in watchers' && BothHold(watchers'[a], watchers'[b]) ensures a == b {
      assert BothHold(watchers[a], watchers[b]);
    }
  }

  /** Starting or losing a watcher changes no data and hands out no lease. */
  lemma IdleWatcherOk(lib: Library, w: World, k: nat, v: Watcher, w': World)
    requires Inv(lib, w) && WatcherOk(w.d, v) && !v.pc.HoldsLease() && w' == WithWatcher(w, k, (w.d, v))
    ensures Inv(lib, w')
  {
    IdleStaysExclusive(w.watchers, k, v);
    forall j | j in w'.watchers ensures WatcherOk(w'.d, w'.watchers[j]) {
      assert j != k ==> w'.watchers[j] == w.watchers[j];
    }
  }

  lemma IdleConfirmerOk(lib: Library, w: World, k: nat, f: Confirmer)
    requires Inv(lib, w) && ConfirmerOk(w.d, f)
    ensures Inv(lib, WithConfirmer(w, k, (w.d, f)))
  {
    RowsUntouched(w.d, w.d, "");
    Lift(lib, w, WithConfirmer(w, k, (w.d, f)), "", None, Some(k));
  }

  lemma DataActionOk(lib: Library, w: World, a: Action)
    requires Inv(lib, w) && (a.InsertFundingRow? || a.InsertWatchRule? || a.OtherWriter?)
    ensures Inv(lib, Step(lib, w, a))
  {
    match a
    case InsertFundingRow(terms) =>
      if terms.intentId !in w.d.rows {
        InsertRowOk(lib, w, terms);
      } else {
        assert Step(lib, w, a) == w;
      }
    case InsertWatchRule(rule) => InsertRuleOk(lib, w, rule);
    case OtherWriter(id, write) =>
      if id in w.d.rows && OthersMay(w.d.rows[id], write) {
        OtherWriterOk(lib, w, id, write);
      }
  }

  lemma WatcherStartOk(lib: Library, w: World, k: nat, c: Candidate)
    requires Inv(lib, w) && MayStart(w.d, c)
    ensures Inv(lib, WithWatcher(w, k, (w.d, Watcher(c, AtLease, 0))))
  {
    IdleWatcherOk(lib, w, k, Watcher(c, AtLease, 0), WithWatcher(w, k, (w.d, Watcher(c, AtLease, 0))));
  }

  lemma WatcherCrashOk(lib: Library, w: World, k: nat)
    requires Inv(lib, w) && k in w.watchers
    ensures Inv(lib, WithWatcher(w, k, (w.d, w.watchers[k].(pc := Crashed))))
  {
    assert WatcherOk(w.d, w.watchers[k]);
    var v := w.watchers[k].(pc := Crashed);
    IdleWatcherOk(lib, w, k, v, WithWatcher(w, k, (w.d, v)));
  }

  lemma StartStep(lib: Library, w: World, k: nat, c: Candidate, started: World)
    requires started == WithWatcher(w, k, (w.d, Watcher(c, AtLease, 0)))
    ensures
      Step(lib, w, WatcherStarts(k, c)) == if k !in w.watchers && MayStart(w.d, c) then started else w
  {
  }

  lemma WatcherStartsOk(lib: Library, w: World, k: nat, c: Candidate, w': World)
    requires Inv(lib, w) && w' == Step(lib, w, WatcherStarts(k, c))
    ensures Inv(lib, w')
  {
    var started := WithWatcher(w, k, (w.d, Watcher(c, AtLease, 0)));
    StartStep(lib, w, k, c, started);
    if MayStart(w.d, c) {
      WatcherStartOk(lib, w, k, c);
    }
    assert (w' == started && MayStart(w.d, c)) || w' == w;
  }

  lemma WatcherStepsOk(lib: Library, w: World, k: nat, i: WatcherInput)
    requires Inv(lib, w)
    ensures Inv(lib, Step(lib, w, WatcherSteps(k, i)))
  {
    if k in w.watchers {
      WatcherStepOk(lib, w, k, i);
    }
  }

  lemma WatcherCrashesOk(lib: Library, w: World, k: nat)
    requires Inv(lib, w)
    ensures Inv(lib, Step(lib, w, WatcherCrashes(k)))
  {
    if k in w.watchers {
      WatcherCrashOk(lib, w, k);
    }
  }

  lemma WatcherActionOk(lib: Library, w: World, a: Action)
    requires Inv(lib, w) && (a.WatcherStarts? || a.WatcherSteps? || a.WatcherCrashes?)
    ensures Inv(lib, Step(lib, w, a))
  {
    match a
    case WatcherStarts(k, c) => WatcherStartsOk(lib, w, k, c, Step(lib, w, a));
    case WatcherSteps(k, i) => WatcherStepsOk(lib, w, k, i);
    case WatcherCrashes(k) => WatcherCrashesOk(lib, w, k);
  }

  lemma ConfirmStartOk(lib: Library, w: World, k: nat, p: Params)
    requires Inv(lib, w)
    ensures Inv(lib, WithConfirmer(w, k, (w.d, Confirmer(p, Start(lib, p), 0))))
  {
    IdleConfirmerOk(lib, w, k, Confirmer(p, Start(lib, p), 0));
  }

  lemma ConfirmCrashOk(lib: Library, w: World, k: nat)
    requires Inv(lib, w) && k in w.confirmers
    ensures Inv(lib, WithConfirmer(w, k, (w.d, w.confirmers[k].(pc := ConfirmCrashed))))
  {
    IdleConfirmerOk(lib, w, k, w.confirmers[k].(pc := ConfirmCrashed));
  }

  lemma ConfirmActionOk(lib: Library, w: World, a: Action, w': World)
    requires Inv(lib, w) && (a.ConfirmStarts? || a.ConfirmSteps? || a.ConfirmCrashes?) && w' == Step(lib, w, a)
    ensures Inv(lib, w')
  {
    match a
    case ConfirmStarts(k, p) => ConfirmStartsOk(lib, w, k, p, w');
    case ConfirmSteps(k, i) => ConfirmStepsOk(lib, w, k, i, w');
    case ConfirmCrashes(k) => ConfirmCrashesOk(lib, w, k, w');
  }

  lemma ConfirmStartsOk(lib: Library, w: World, k: nat, p: Params, w': World)
    requires Inv(lib, w) && w' == Step(lib, w, ConfirmStarts(k, p))
    ensures Inv(lib, w')
  {
    if k !in w.confirmers {
      ConfirmStartOk(lib, w, k, p);
    }
  }

  lemma ConfirmStepsOk(lib: Library, w: World, k: nat, i: ConfirmInput, w': World)
    requires Inv(lib, w) && w' == Step(lib, w, ConfirmSteps(k, i))
    ensures Inv(lib, w')
  {
    if k in w.confirmers {
      ConfirmStepOk(lib, w, k, i);
    }
  }

  lemma ConfirmCrashesOk(lib: Library, w: World, k: nat, w': World)
    requires Inv(lib, w) && w' == Step(lib, w, ConfirmCrashes(k))
    ensures Inv(lib, w')
  {
    if k in w.confirmers {
      ConfirmCrashOk(lib, w, k);
    }
  }

  /** Every step of every action keeps the invariant. */
  lemma StepKeepsInvariant(lib: Library, w: World, a: Action)
    requires Inv(lib, w)
    ensures Inv(lib, Step(lib, w, a))
  {
    if a.InsertFundingRow? || a.InsertWatchRule? || a.OtherWriter? {
      DataActionOk(lib, w, a);
    } else if a.WatcherStarts? || a.WatcherSteps? || a.WatcherCrashes? {
      WatcherActionOk(lib, w, a);
    } else {
      ConfirmActionOk(lib, w, a, Step(lib, w, a));
    }
  }

  lemma DataActionKeeps(lib: Library, w: World, a: Action, d': Data)
    requires Inv(lib, w) && (a.InsertFundingRow? || a.InsertWatchRule? || a.OtherWriter?) && d' == Step(lib, w, a).d
    ensures Keeps(w.d, d')
  {
    NothingKeeps(w.d, "");
    match a
    case InsertFundingRow(terms) =>
      if terms.intentId !in w.d.rows {
        FreshRowOk(w.d, terms);
      }
    case InsertWatchRule(rule) => RowsUntouched(w.d, d', "");
    case OtherWriter(id, write) =>
      if id in w.d.rows && OthersMay(w.d.rows[id], write) {
        assert d' == WriteRow(w.d, id, write, NoFault);
        RowWriteKeeps(w.d, id, write, NoFault);
      }
  }

  lemma WatcherMoveKeeps(d: Data, v: Watcher, i: WatcherInput, d': Data)
    requires DataOk(d) && WatcherOk(d, v) && d' == WatcherMove(d, v, i).0
    ensures Keeps(d, d')
  {
    WatcherMoveOk(d, v, i);
  }

  lemma ConfirmMoveKeeps(lib: Library, d: Data, f: Confirmer, i: ConfirmInput, d': Data)
    requires DataOk(d) && ProofsOk(lib, d) && ConfirmerOk(d, f) && d' == ConfirmMove(lib, d, f, i).0
    ensures Keeps(d, d')
  {
    ConfirmMoveOk(lib, d, f, i);
  }

  lemma WatcherStepKeeps(lib: Library, w: World, k: nat, i: WatcherInput, d': Data)
    requires Inv(lib, w) && k in w.watchers && d' == WatcherMove(w.d, w.watchers[k], i).0
    ensures Keeps(w.d, d')
  {
    assert WatcherOk(w.d, w.watchers[k]);
    WatcherMoveKeeps(w.d, w.watchers[k], i, d');
  }

  lemma ConfirmStepKeeps(lib: Library, w: World, k: nat, i: ConfirmInput, d': Data)
    requires Inv(lib, w) && k in w.confirmers && d' == ConfirmMove(lib, w.d, w.confirmers[k], i).0
    ensures Keeps(w.d, d')
  {
    assert ConfirmerOk(w.d, w.confirmers[k]);
    ConfirmMoveKeeps(lib, w.d, w.confirmers[k], i, d');
  }

  /** Without a mover or a write to make, a step leaves the data alone. */
  lemma OtherStepsKeepData(lib: Library, w: World, a: Action)
    requires !a.InsertFundingRow? && !a.InsertWatchRule? && !a.OtherWriter?
    requires !(a.WatcherSteps? && a.k in w.watchers) && !(a.ConfirmSteps? && a.k in w.confirmers)
    ensures Step(lib, w, a).d == w.d
  {
  }

  /** Every step of every action keeps what is already on record. */
  lemma StepKeepsRecords(lib: Library, w: World, a: Action)
    requires Inv(lib, w)
    ensures Keeps(w.d, Step(lib, w, a).d)
  {
    var d' := Step(lib, w, a).d;
    if a.InsertFundingRow? || a.InsertWatchRule? || a.OtherWriter? {
      DataActionKeeps(lib, w, a, d');
    } else if a.WatcherSteps? && a.k in w.watchers {
      WatcherStepKeeps(lib, w, a.k, a.input, d');
    } else if a.ConfirmSteps? && a.k in w.confirmers {
      ConfirmStepKeeps(lib, w, a.k, a.confirmInput, d');
    } else {
      OtherStepsKeepData(lib, w, a);
      NothingKeeps(w.d, "");
    }
  }

  lemma {:induction false} InvariantHolds(lib: Library, actions: seq<Action>)
    ensures Inv(lib, Run(lib, actions))
  {
    if actions == [] {
      assert forall id :: EMPTY.d.Log(id) == [];
    } else {
      var n := |actions| - 1;
      InvariantHolds(lib, actions[..n]);
      StepKeepsInvariant(lib, Run(lib, actions[..n]), actions[n]);
    }
  }
}
