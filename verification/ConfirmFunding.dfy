// Confirming a funding payment: read the row and its rule, verify the observed
// transaction, then advance funding_required -> funding_submitted ->
// budget_reserved by two separate writes. As for execution, the tool is given as
// a state machine of pure transitions and as a method that follows it.
module ConfirmFunding {
  import opened Prelude
  import opened Codecs
  import opened WatchRules
  import opened StateStore
  import opened FundingProof

  datatype Params = Params(intentId: string, txSignature: string)

  datatype ReadAnswer = ReadPending | ReadConfirmed(tx: Observation) | ReadFailed

  datatype ConfirmAnswer =
    | InvalidInput
    | NotFound
    | RuleUnavailable
    | IntentIntegrityError
    | SignatureConflict
    | WrongState
    | ConfigMissing
    | PendingConfirmation
    | RpcFailure
    | VerificationFailed(error: ProofError)
    | Reserved(signature: string, slot: Option<u64>, arrivalMs: i64, late: bool, ruleExpired: bool, idempotent: bool)
    | SubmittedRetryable
    | RacedAway
    | StoreFailure
  {
    /** The answers that promise "database_writes": 0, in so many words or by
        being given before any write is attempted. */
    predicate PromisesNoWrites() {
      || InvalidInput? || NotFound? || RuleUnavailable? || IntentIntegrityError? || SignatureConflict?
      || WrongState? || ConfigMissing? || PendingConfirmation? || RpcFailure? || VerificationFailed?
    }
  }

  datatype ConfirmPc =
    | GettingRow
    | GettingRule(row: FundingRow)
    | Reading(row: FundingRow, rule: RuleRow, alreadyReserved: bool)
    | Submitting(row: FundingRow, rule: RuleRow, tx: Observation)
    | Reserving(row: FundingRow, rule: RuleRow, tx: Observation)
    | Rechecking(rule: RuleRow, tx: Observation)
    | Rereading(rule: RuleRow, tx: Observation)
    | Answered(answer: ConfirmAnswer)
    | ConfirmCrashed

  function Start(lib: Library, p: Params): ConfirmPc {
    if DecodeRuleId(p.intentId).None? || !lib.isSignature(p.txSignature) then Answered(InvalidInput) else GettingRow
  }

  type RowAnswer = Result<Option<FundingRow>, StoreError>
  type RuleAnswer = Result<Option<RuleRow>, StoreError>

  function AfterGetRow(answer: RowAnswer): ConfirmPc {
    match answer
    case Err(_) => Answered(StoreFailure)
    case Ok(None) => Answered(NotFound)
    case Ok(Some(row)) => GettingRule(row)
  }

  /** Which states can be confirmed, and with which signature. */
  function AfterGetRule(lib: Library, p: Params, row: FundingRow, answer: RuleAnswer): ConfirmPc {
    match answer
    case Err(_) => Answered(StoreFailure)
    case Ok(None) => Answered(RuleUnavailable)
    case Ok(Some(rule)) =>
      if !RuleMatchesIntent(lib, rule, row.terms) then Answered(IntentIntegrityError)
      else
        var same := row.fundingSignature == Some(p.txSignature);
        match row.status
        case FundingRequired => Reading(row, rule, false)
        case FundingSubmitted => if same then Reading(row, rule, false) else Answered(SignatureConflict)
        case BudgetReserved => if same then Reading(row, rule, true) else Answered(SignatureConflict)
        case _ => Answered(WrongState)
  }

  function Or(a: Option<u64>, b: Option<u64>): Option<u64> {
    if a.Some? then a else b
  }

  function Success(row: FundingRow, rule: RuleRow, p: Params, slot: Option<u64>, tx: Observation, nowMs: i64,
                   idempotent: bool): ConfirmAnswer {
    var arrivalMs := if tx.blockTimeMs.Some? then tx.blockTimeMs.value else nowMs;
    Reserved(p.txSignature, slot, arrivalMs, arrivalMs >= row.terms.expiresAtMs,
             slot.Some? && slot.value >= rule.rule.expiresAtSlot, idempotent)
  }

  /** A reserved answer tells when the funds arrived, by the block's own time if it is known
      and by the clock otherwise; whether that was too late for the row; and whether the
      rule had expired by the slot. Both deadlines are themselves too late. */
  predicate TellsLateness(answer: ConfirmAnswer, terms: FundingTerms, rule: WatchRule, tx: Observation, nowMs: i64) {
    && answer.Reserved?
    && (tx.blockTimeMs.Some? ==> Some(answer.arrivalMs) == tx.blockTimeMs)
    && (tx.blockTimeMs.None? ==> answer.arrivalMs == nowMs)
    && TellsDeadlines(answer, terms, rule)
  }

  predicate TellsDeadlines(answer: ConfirmAnswer, terms: FundingTerms, rule: WatchRule)
    requires answer.Reserved?
  {
    && (answer.late <==> !(answer.arrivalMs < terms.expiresAtMs))
    && (answer.ruleExpired <==> answer.slot.Some? && !(answer.slot.value < rule.expiresAtSlot))
  }

  /** `reader` is None when no RPC endpoint is configured. */
  function AfterRead(lib: Library, p: Params, row: FundingRow, rule: RuleRow, alreadyReserved: bool,
                     reader: Option<ReadAnswer>, nowMs: i64): ConfirmPc {
    match reader
    case None => Answered(ConfigMissing)
    case Some(ReadPending) => Answered(PendingConfirmation)
    case Some(ReadFailed) => Answered(RpcFailure)
    case Some(ReadConfirmed(tx)) =>
      match VerifyFundingTransaction(lib, tx, row.terms)
      case Err(error) => Answered(VerificationFailed(error))
      case Ok(_) =>
        if !alreadyReserved then Submitting(row, rule, tx)
        else if row.fundingSlot.Some? && row.fundingSlot.value != tx.slot then Answered(IntentIntegrityError)
        else Answered(Success(row, rule, p, Or(row.fundingSlot, Some(tx.slot)), tx, nowMs, true))
  }

  function AfterSubmit(row: FundingRow, rule: RuleRow, tx: Observation, answer: Answer): ConfirmPc {
    match answer
    case Err(_) => Answered(StoreFailure)
    case Ok(n) => if n == 0 then Rechecking(rule, tx) else Reserving(row, rule, tx)
  }

  function AfterReserve(rule: RuleRow, tx: Observation, answer: Answer): ConfirmPc {
    match answer
    case Err(_) => Answered(StoreFailure)
    case Ok(n) => if n == 0 then Rechecking(rule, tx) else Rereading(rule, tx)
  }

  /** Someone else moved the row first: say what it is now. */
  function AfterRecheck(p: Params, rule: RuleRow, tx: Observation, answer: RowAnswer, nowMs: i64): ConfirmPc {
    match answer
    case Err(_) => Answered(StoreFailure)
    case Ok(None) => Answered(RacedAway)
    case Ok(Some(row)) =>
      if row.status == BudgetReserved && row.fundingSignature == Some(p.txSignature) then
        Answered(Success(row, rule, p, Or(row.fundingSlot, Some(tx.slot)), tx, nowMs, true))
      else if row.status == FundingSubmitted && row.fundingSignature == Some(p.txSignature) then
        Answered(SubmittedRetryable)
      else Answered(RacedAway)
  }

  function AfterReread(p: Params, rule: RuleRow, tx: Observation, answer: RowAnswer, nowMs: i64): ConfirmPc {
    match answer
    case Err(_) => Answered(StoreFailure)
    case Ok(None) => Answered(RacedAway)
    case Ok(Some(row)) => Answered(Success(row, rule, p, Some(tx.slot), tx, nowMs, false))
  }

  // ---- One call, alone -----------------------------------------------------------------

  datatype ConfirmFaults = ConfirmFaults(getRow: Fault, getRule: Fault, submit: Fault, reserve: Fault, reread: Fault)

  datatype ConfirmOutside = ConfirmOutside(reader: Option<ReadAnswer>, nowMs: i64, faults: ConfirmFaults)

  function SoloConfirmStep(lib: Library, p: Params, o: ConfirmOutside, rows: Rows, rules: Rules, pc: ConfirmPc)
    : (Rows, ConfirmPc)
  {
    match pc
    case GettingRow => (rows, AfterGetRow(Lookup(rows, p.intentId, o.faults.getRow)))
    case GettingRule(row) =>
      (rows, AfterGetRule(lib, p, row, RuleLookup(lib, rules, p.intentId, o.faults.getRule)))
    case Reading(row, rule, already) => (rows, AfterRead(lib, p, row, rule, already, o.reader, o.nowMs))
    case Submitting(row, rule, tx) =>
      (if o.faults.submit.LostBefore? then rows else Written(rows, p.intentId, MarkSubmitted(p.txSignature)),
       AfterSubmit(row, rule, tx, Reply(Affected(rows, p.intentId, MarkSubmitted(p.txSignature)), o.faults.submit)))
    case Reserving(row, rule, tx) =>
      (if o.faults.reserve.LostBefore? then rows else Written(rows, p.intentId, MarkReserved(p.txSignature, tx.slot)),
       AfterReserve(rule, tx,
                    Reply(Affected(rows, p.intentId, MarkReserved(p.txSignature, tx.slot)), o.faults.reserve)))
    case Rechecking(rule, tx) =>
      (rows, AfterRecheck(p, rule, tx, Lookup(rows, p.intentId, o.faults.reread), o.nowMs))
    case Rereading(rule, tx) =>
      (rows, AfterReread(p, rule, tx, Lookup(rows, p.intentId, o.faults.reread), o.nowMs))
    case Answered(_) => (rows, pc)
    case ConfirmCrashed => (rows, pc)
  }

  function SoloConfirm(lib: Library, p: Params, o: ConfirmOutside, rows: Rows, rules: Rules, pc: ConfirmPc, n: nat)
    : (Rows, ConfirmPc)
    decreases n
  {
    if n == 0 then (rows, pc)
    else
      var (rows', pc') := SoloConfirmStep(lib, p, o, rows, rules, pc);
      SoloConfirm(lib, p, o, rows', rules, pc', n - 1)
  }

  /** Two reads, the transaction read, two writes, one final read. */
  const CONFIRM_STEPS: nat := 6

  /** The tool itself: text is trimmed, then the state machine runs to its end. */
  method ConfirmFundingJson(store: Store, intentText: string, signatureText: string, o: ConfirmOutside)
    returns (answer: ConfirmAnswer)
    modifies store`funding
    ensures
      var p := Params(Trim(intentText), Trim(signatureText));
      SoloConfirm(store.lib, p, o, old(store.funding), store.rules, Start(store.lib, p), CONFIRM_STEPS)
      == (store.funding, Answered(answer))
    ensures
      var p := Params(Trim(intentText), Trim(signatureText));
      answer.Reserved? ==> ReservedFor(store.lib, p, o, old(store.funding), store.funding, store.rules, answer)
  {
    var p := Params(Trim(intentText), Trim(signatureText));
    ReservedMeans(store.lib, p, o, store.funding, store.rules);
    var ruleId := DecodeRuleIdInPlace(p.intentId);
    if ruleId.None? || !store.lib.isSignature(p.txSignature) {
      return InvalidInput;
    }
    answer := ConfirmWellFormed(store, p, o);
  }

  /** The same for parameters that are an id and a signature. */
  method ConfirmWellFormed(store: Store, p: Params, o: ConfirmOutside) returns (answer: ConfirmAnswer)
    modifies store`funding
    ensures SoloConfirm(store.lib, p, o, old(store.funding), store.rules, GettingRow, CONFIRM_STEPS)
         == (store.funding, Answered(answer))
  {
    var found := store.GetFunding(p.intentId, o.faults.getRow);
    var afterRow := AfterGetRow(found);
    if afterRow.Answered? {
      return afterRow.answer;
    }
    var stored := store.GetRule(p.intentId, o.faults.getRule);
    var afterRule := AfterGetRule(store.lib, p, afterRow.row, stored);
    if afterRule.Answered? {
      return afterRule.answer;
    }
    var afterRead :=
      AfterRead(store.lib, p, afterRule.row, afterRule.rule, afterRule.alreadyReserved, o.reader, o.nowMs);
    if afterRead.Answered? {
      return afterRead.answer;
    }
    answer := SubmitAndReserve(store, p, o, afterRead);
  }

  /** What a call that ran alone and answered "reserved" did: the transaction it read pays
      for the row, which is now reserved under its signature; the answer's slot is the
      row's; and it says "idempotent" exactly when there was nothing left to do. */
  predicate ReservedFor(lib: Library, p: Params, o: ConfirmOutside, before: Rows, after: Rows, rules: Rules,
                        answer: ConfirmAnswer) {
    && p.intentId in before && p.intentId in after && p.intentId in rules
    && o.reader.Some? && o.reader.value.ReadConfirmed?
    && Paid(lib, o.reader.value.tx, before[p.intentId].terms)
    && TellsLateness(answer, before[p.intentId].terms, rules[p.intentId].rule, o.reader.value.tx, o.nowMs)
    && answer.signature == p.txSignature && answer.slot == Some(o.reader.value.tx.slot)
    && after[p.intentId].status == BudgetReserved && after[p.intentId].fundingSignature == Some(p.txSignature)
    && (answer.idempotent <==> before[p.intentId].status == BudgetReserved)
    && (answer.idempotent ==> after == before)
    && (!answer.idempotent ==> after[p.intentId].fundingSlot == answer.slot)
  }

  method SubmitAndReserve(store: Store, p: Params, o: ConfirmOutside, pc: ConfirmPc) returns (answer: ConfirmAnswer)
    requires pc.Submitting?
    modifies store`funding
    ensures SoloConfirm(store.lib, p, o, old(store.funding), store.rules, pc, 3) == (store.funding, Answered(answer))
  {
    var rule, tx := pc.rule, pc.tx;
    var submitted := store.WriteFunding(p.intentId, MarkSubmitted(p.txSignature), o.faults.submit);
    if submitted.Err? {
      return StoreFailure;
    }
    if submitted.value == 0 {
      answer := ResolveTransitionRace(store, p, o, rule, tx);
      return;
    }
    var reserved := store.WriteFunding(p.intentId, MarkReserved(p.txSignature, tx.slot), o.faults.reserve);
    if reserved.Err? {
      return StoreFailure;
    }
    if reserved.value == 0 {
      answer := ResolveTransitionRace(store, p, o, rule, tx);
      return;
    }
    var current := store.GetFunding(p.intentId, o.faults.reread);
    var last := AfterReread(p, rule, tx, current, o.nowMs);
    answer := last.answer;
  }

  /** Somebody else moved the row first. The answer tells what the row is now: reserved
      by this very signature, submitted with it and worth a retry, or out of reach. */
  method ResolveTransitionRace(store: Store, p: Params, o: ConfirmOutside, rule: RuleRow, tx: Observation)
    returns (answer: ConfirmAnswer)
    ensures Answered(answer) ==
              AfterRecheck(p, rule, tx, Lookup(store.funding, p.intentId, o.faults.reread), o.nowMs)
    ensures
      var mine := p.intentId in store.funding && store.funding[p.intentId].fundingSignature == Some(p.txSignature);
      var readable := o.faults.reread.NoFault?;
      && (answer.StoreFailure? <==> !readable)
      && (answer.Reserved? <==> readable && mine && store.funding[p.intentId].status == BudgetReserved)
      && (answer.SubmittedRetryable? <==> readable && mine && store.funding[p.intentId].status == FundingSubmitted)
      && (answer.RacedAway? <==>
            readable && !(mine && (store.funding[p.intentId].status == BudgetReserved
                                   || store.funding[p.intentId].status == FundingSubmitted)))
    ensures answer.Reserved? ==>
              && answer.signature == p.txSignature && answer.idempotent
              && answer.slot == (if store.funding[p.intentId].fundingSlot.Some? then store.funding[p.intentId].fundingSlot
                                 else Some(tx.slot))
              && TellsLateness(answer, store.funding[p.intentId].terms, rule.rule, tx, o.nowMs)
  {
    var current := store.GetFunding(p.intentId, o.faults.reread);
    var last := AfterRecheck(p, rule, tx, current, o.nowMs);
    answer := last.answer;
  }

  // ---- What each answer means ---------------------------------------------------------------

  /** A row that this signature may still fund, or has funded. */
  predicate Confirmable(row: FundingRow, signature: string) {
    || row.status == FundingRequired
    || (row.status in {FundingSubmitted, BudgetReserved} && row.fundingSignature == Some(signature))
  }

  predicate NoFaults(o: ConfirmOutside) {
    o.faults == ConfirmFaults(NoFault, NoFault, NoFault, NoFault, NoFault)
  }

  /** Which answers come before any transaction is read: unless all is well, exactly one
      of these, by the first test that fails. */
  lemma AnswersBeforeReading(lib: Library, p: Params, o: ConfirmOutside, rows: Rows, rules: Rules)
    requires NoFaults(o)
    ensures
      var (rows', end) := SoloConfirm(lib, p, o, rows, rules, Start(lib, p), CONFIRM_STEPS);
      var valid := (exists id :: |id| == 16 && p.intentId == HexLower(id)) && lib.isSignature(p.txSignature);
      if !valid then (rows', end) == (rows, Answered(InvalidInput))
      else if p.intentId !in rows then (rows', end) == (rows, Answered(NotFound))
      else if p.intentId !in rules then (rows', end) == (rows, Answered(RuleUnavailable))
      else if !Intact(lib, rules[p.intentId]) then (rows', end) == (rows, Answered(StoreFailure))
      else if !RuleMatchesIntent(lib, rules[p.intentId], rows[p.intentId].terms) then
        (rows', end) == (rows, Answered(IntentIntegrityError))
      else
        Confirmable(rows[p.intentId], p.txSignature)
        || (rows', end) == (rows, Answered(if rows[p.intentId].status in {FundingSubmitted, BudgetReserved}
                                           then SignatureConflict else WrongState))
  {
    var pc := Start(lib, p);
    StartsIff(lib, p);
    if pc.Answered? {
      AnsweredStays(lib, p, o, rows, rules, pc.answer, CONFIRM_STEPS);
    } else {
      var pc1 := SoloConfirmStep(lib, p, o, rows, rules, pc).1;
      assert SoloConfirm(lib, p, o, rows, rules, pc, 6) == SoloConfirm(lib, p, o, rows, rules, pc1, 5);
      if pc1.Answered? {
        AnsweredStays(lib, p, o, rows, rules, pc1.answer, 5);
      } else {
        var pc2 := SoloConfirmStep(lib, p, o, rows, rules, pc1).1;
        assert SoloConfirm(lib, p, o, rows, rules, pc1, 5) == SoloConfirm(lib, p, o, rows, rules, pc2, 4);
        if pc2.Answered? {
          AnsweredStays(lib, p, o, rows, rules, pc2.answer, 4);
        }
      }
    }
  }

  /** A row or a rule that cannot be read is a store failure, and nothing is written. */
  lemma UnreadableIsStoreFailure(lib: Library, p: Params, o: ConfirmOutside, rows: Rows, rules: Rules)
    requires Start(lib, p) == GettingRow && p.intentId in rows
    requires !o.faults.getRow.NoFault? || !o.faults.getRule.NoFault?
    ensures SoloConfirm(lib, p, o, rows, rules, GettingRow, CONFIRM_STEPS) == (rows, Answered(StoreFailure))
  {
    var pc1 := SoloConfirmStep(lib, p, o, rows, rules, GettingRow).1;
    assert SoloConfirm(lib, p, o, rows, rules, GettingRow, 6) == SoloConfirm(lib, p, o, rows, rules, pc1, 5);
    if o.faults.getRow.NoFault? {
      var pc2 := SoloConfirmStep(lib, p, o, rows, rules, pc1).1;
      assert SoloConfirm(lib, p, o, rows, rules, pc1, 5) == SoloConfirm(lib, p, o, rows, rules, pc2, 4);
      AnsweredStays(lib, p, o, rows, rules, StoreFailure, 4);
    } else {
      AnsweredStays(lib, p, o, rows, rules, StoreFailure, 5);
    }
  }

  lemma StartsIff(lib: Library, p: Params)
    ensures
      Start(lib, p) ==
      if (exists id :: |id| == 16 && p.intentId == HexLower(id)) && lib.isSignature(p.txSignature) then GettingRow
      else Answered(InvalidInput)
  {
    if DecodeRuleId(p.intentId).Some? {
      DecodeRuleIdIff(p.intentId, DecodeRuleId(p.intentId).value);
    }
    if id :| |id| == 16 && p.intentId == HexLower(id) {
      DecodeRuleIdIff(p.intentId, id);
    }
  }

  /** A call alone answers "reserved" only as ReservedFor says, whatever calls fail on it. */
  lemma ReservedMeans(lib: Library, p: Params, o: ConfirmOutside, rows: Rows, rules: Rules)
    ensures
      var (rows', end) := SoloConfirm(lib, p, o, rows, rules, Start(lib, p), CONFIRM_STEPS);
      end.Answered? && end.answer.Reserved? ==> ReservedFor(lib, p, o, rows, rows', rules, end.answer)
  {
    var pc := Start(lib, p);
    if pc.Answered? {
      AnsweredStays(lib, p, o, rows, rules, pc.answer, CONFIRM_STEPS);
    } else {
      var pc1 := SoloConfirmStep(lib, p, o, rows, rules, pc).1;
      assert SoloConfirm(lib, p, o, rows, rules, pc, 6) == SoloConfirm(lib, p, o, rows, rules, pc1, 5);
      if pc1.Answered? {
        AnsweredStays(lib, p, o, rows, rules, pc1.answer, 5);
      } else {
        RuleThenReserved(lib, p, o, rows, rules, pc1.row);
      }
    }
  }

  lemma RuleThenReserved(lib: Library, p: Params, o: ConfirmOutside, rows: Rows, rules: Rules, row: FundingRow)
    requires p.intentId in rows && rows[p.intentId] == row
    ensures
      var (rows', end) := SoloConfirm(lib, p, o, rows, rules, GettingRule(row), 5);
      end.Answered? && end.answer.Reserved? ==> ReservedFor(lib, p, o, rows, rows', rules, end.answer)
  {
    var pc := SoloConfirmStep(lib, p, o, rows, rules, GettingRule(row)).1;
    assert SoloConfirm(lib, p, o, rows, rules, GettingRule(row), 5) == SoloConfirm(lib, p, o, rows, rules, pc, 4);
    if pc.Answered? {
      AnsweredStays(lib, p, o, rows, rules, pc.answer, 4);
    } else {
      ReadThenReserved(lib, p, o, rows, rules, row, pc.rule);
    }
  }

  lemma ReadThenReserved(lib: Library, p: Params, o: ConfirmOutside, rows: Rows, rules: Rules, row: FundingRow,
                         rule: RuleRow)
    requires p.intentId in rows && rows[p.intentId] == row && p.intentId in rules && rules[p.intentId] == rule
    requires Confirmable(row, p.txSignature)
    ensures
      var (rows', end) := SoloConfirm(lib, p, o, rows, rules, Reading(row, rule, row.status == BudgetReserved), 4);
      end.Answered? && end.answer.Reserved? ==> ReservedFor(lib, p, o, rows, rows', rules, end.answer)
  {
    var already := row.status == BudgetReserved;
    var done := AfterRead(lib, p, row, rule, already, o.reader, o.nowMs);
    assert SoloConfirm(lib, p, o, rows, rules, Reading(row, rule, already), 4)
        == SoloConfirm(lib, p, o, rows, rules, done, 3);
    if o.reader.Some? && o.reader.value.ReadConfirmed? {
      VerifiedIffPaid(lib, o.reader.value.tx, row.terms);
    }
    if done.Answered? {
      AnsweredStays(lib, p, o, rows, rules, done.answer, 3);
    } else {
      WritesReserveOrFail(lib, p, o, rows, rules, row, rule, o.reader.value.tx);
    }
  }

  /** A row that can be confirmed, with its matching rule. */
  predicate ReadyToRead(lib: Library, p: Params, rows: Rows, rules: Rules) {
    && Start(lib, p) == GettingRow
    && p.intentId in rows && p.intentId in rules && Intact(lib, rules[p.intentId])
    && RuleMatchesIntent(lib, rules[p.intentId], rows[p.intentId].terms)
    && Confirmable(rows[p.intentId], p.txSignature)
  }

  /** And which answers follow the reading: without a reservation nothing is written, and
      a reservation is answered exactly for a transaction that pays, unless a row already
      reserved names another slot. */
  lemma AnswersAfterReading(lib: Library, p: Params, o: ConfirmOutside, rows: Rows, rules: Rules)
    requires NoFaults(o) && ReadyToRead(lib, p, rows, rules)
    ensures
      var (rows', end) := SoloConfirm(lib, p, o, rows, rules, Start(lib, p), CONFIRM_STEPS);
      var row := rows[p.intentId];
      match o.reader
      case None => (rows', end) == (rows, Answered(ConfigMissing))
      case Some(ReadPending) => (rows', end) == (rows, Answered(PendingConfirmation))
      case Some(ReadFailed) => (rows', end) == (rows, Answered(RpcFailure))
      case Some(ReadConfirmed(tx)) =>
        if !Paid(lib, tx, row.terms) then
          VerifyFundingTransaction(lib, tx, row.terms).Err?
          && (rows', end) == (rows, Answered(VerificationFailed(VerifyFundingTransaction(lib, tx, row.terms).error)))
        else if row.status == BudgetReserved && row.fundingSlot.Some? && row.fundingSlot.value != tx.slot then
          (rows', end) == (rows, Answered(IntentIntegrityError))
        else end.Answered? && end.answer.Reserved?
  {
    var row, rule := rows[p.intentId], rules[p.intentId];
    var already := row.status == BudgetReserved;
    ReadsComeFirst(lib, p, o, rows, rules);
    var done := AfterRead(lib, p, row, rule, already, o.reader, o.nowMs);
    if o.reader.Some? && o.reader.value.ReadConfirmed? {
      VerifiedIffPaid(lib, o.reader.value.tx, row.terms);
    }
    assert SoloConfirm(lib, p, o, rows, rules, Reading(row, rule, already), 4)
        == SoloConfirm(lib, p, o, rows, rules, done, 3);
    if done.Answered? {
      AnsweredStays(lib, p, o, rows, rules, done.answer, 3);
    } else {
      WritesReserve(lib, p, o, rows, rules, row, rule, o.reader.value.tx);
    }
  }

  // ---- Recovery ---------------------------------------------------------------------------

  /** The first two steps read the row and its rule and find nothing wrong. */
  lemma ReadsComeFirst(lib: Library, p: Params, o: ConfirmOutside, rows: Rows, rules: Rules)
    requires NoFaults(o)
    requires p.intentId in rows && Confirmable(rows[p.intentId], p.txSignature)
    requires p.intentId in rules && Intact(lib, rules[p.intentId])
    requires RuleMatchesIntent(lib, rules[p.intentId], rows[p.intentId].terms)
    ensures
      var row, rule := rows[p.intentId], rules[p.intentId];
      SoloConfirm(lib, p, o, rows, rules, GettingRow, CONFIRM_STEPS)
      == SoloConfirm(lib, p, o, rows, rules, Reading(row, rule, row.status == BudgetReserved), 4)
  {
    var row := rows[p.intentId];
    assert SoloConfirm(lib, p, o, rows, rules, GettingRow, 6)
        == SoloConfirm(lib, p, o, rows, rules, GettingRule(row), 5);
  }

  /** Wherever an earlier attempt stopped, an undisturbed retry with the same
      verified signature leaves the row reserved and says so. */
  lemma RetryReachesReserved(lib: Library, p: Params, o: ConfirmOutside, rows: Rows, rules: Rules, tx: Observation)
    requires Start(lib, p) == GettingRow
    requires NoFaults(o)
    requires p.intentId in rows && Confirmable(rows[p.intentId], p.txSignature)
    requires p.intentId in rules && Intact(lib, rules[p.intentId])
    requires RuleMatchesIntent(lib, rules[p.intentId], rows[p.intentId].terms)
    requires o.reader == Some(ReadConfirmed(tx)) && Paid(lib, tx, rows[p.intentId].terms)
    requires
      rows[p.intentId].status == BudgetReserved && rows[p.intentId].fundingSlot.Some? ==>
        rows[p.intentId].fundingSlot.value == tx.slot
    ensures
      var (rows', pc) := SoloConfirm(lib, p, o, rows, rules, Start(lib, p), CONFIRM_STEPS);
      && pc.Answered? && pc.answer.Reserved?
      && pc.answer.signature == p.txSignature && pc.answer.slot == Some(tx.slot)
      && TellsLateness(pc.answer, rows[p.intentId].terms, rules[p.intentId].rule, tx, o.nowMs)
      && p.intentId in rows'
      && rows'[p.intentId].status == BudgetReserved
      && rows'[p.intentId].fundingSignature == Some(p.txSignature)
      && rows'[p.intentId].terms == rows[p.intentId].terms
      && (forall id :: id in rows && id != p.intentId ==> id in rows' && rows'[id] == rows[id])
  {
    var row, rule := rows[p.intentId], rules[p.intentId];
    VerifiedIffPaid(lib, tx, row.terms);
    var already := row.status == BudgetReserved;
    ReadsComeFirst(lib, p, o, rows, rules);
    if already {
      var done := AfterRead(lib, p, row, rule, already, o.reader, o.nowMs);
      assert SoloConfirm(lib, p, o, rows, rules, Reading(row, rule, already), 4)
          == SoloConfirm(lib, p, o, rows, rules, done, 3);
      AnsweredStays(lib, p, o, rows, rules, done.answer, 3);
    } else {
      WritesReserve(lib, p, o, rows, rules, row, rule, tx);
    }
  }

  lemma {:induction false} AnsweredStays(lib: Library, p: Params, o: ConfirmOutside, rows: Rows, rules: Rules,
                                         answer: ConfirmAnswer, n: nat)
    ensures SoloConfirm(lib, p, o, rows, rules, Answered(answer), n) == (rows, Answered(answer))
  {
    if n > 0 {
      AnsweredStays(lib, p, o, rows, rules, answer, n - 1);
    }
  }

  /** A failing call ends the confirmation with a store failure. */
  lemma WritesReserveOrFail(lib: Library, p: Params, o: ConfirmOutside, rows: Rows, rules: Rules, row: FundingRow,
                            rule: RuleRow, tx: Observation)
    requires p.intentId in rows && rows[p.intentId] == row
    requires row.status == FundingRequired
             || (row.status == FundingSubmitted && row.fundingSignature == Some(p.txSignature))
    ensures
      var row' := row.(status := BudgetReserved, fundingSignature := Some(p.txSignature), fundingSlot := Some(tx.slot));
      var run := SoloConfirm(lib, p, o, rows, rules, Submitting(row, rule, tx), 3);
      run.1 == Answered(StoreFailure)
      || run == (rows[p.intentId := row'], Answered(Success(row', rule, p, Some(tx.slot), tx, o.nowMs, false)))
  {
    var step := SoloConfirmStep(lib, p, o, rows, rules, Submitting(row, rule, tx));
    if !o.faults.submit.NoFault? {
      AnsweredStays(lib, p, o, step.0, rules, StoreFailure, 2);
    } else {
      var row1 := row.(status := FundingSubmitted, fundingSignature := Some(p.txSignature));
      var rows1 := rows[p.intentId := row1];
      assert step == (rows1, Reserving(row, rule, tx));
      var next := SoloConfirmStep(lib, p, o, rows1, rules, Reserving(row, rule, tx));
      if !o.faults.reserve.NoFault? {
        AnsweredStays(lib, p, o, next.0, rules, StoreFailure, 1);
      } else {
        var row2 := row1.(status := BudgetReserved, fundingSlot := Some(tx.slot));
        var rows2 := rows1[p.intentId := row2];
        assert next == (rows2, Rereading(rule, tx));
        assert rows2 == rows[p.intentId := row2];
      }
    }
  }

  lemma WritesReserve(lib: Library, p: Params, o: ConfirmOutside, rows: Rows, rules: Rules, row: FundingRow,
                      rule: RuleRow, tx: Observation)
    requires NoFaults(o)
    requires p.intentId in rows && rows[p.intentId] == row
    requires row.status == FundingRequired
             || (row.status == FundingSubmitted && row.fundingSignature == Some(p.txSignature))
    ensures
      var row' := row.(status := BudgetReserved, fundingSignature := Some(p.txSignature), fundingSlot := Some(tx.slot));
      SoloConfirm(lib, p, o, rows, rules, Submitting(row, rule, tx), 3)
      == (rows[p.intentId := row'], Answered(Success(row', rule, p, Some(tx.slot), tx, o.nowMs, false)))
  {
    var row1 := row.(status := FundingSubmitted, fundingSignature := Some(p.txSignature));
    var rows1 := rows[p.intentId := row1];
    assert SoloConfirmStep(lib, p, o, rows, rules, Submitting(row, rule, tx)) == (rows1, Reserving(row, rule, tx));
    var row2 := row1.(status := BudgetReserved, fundingSlot := Some(tx.slot));
    var rows2 := rows1[p.intentId := row2];
    assert SoloConfirmStep(lib, p, o, rows1, rules, Reserving(row, rule, tx)) == (rows2, Rereading(rule, tx));
    assert rows2 == rows[p.intentId := row2];
  }

  /** A row that can be confirmed: it waits, and its rule is stored and matches. */
  predicate Waits(lib: Library, rows: Rows, rules: Rules, id: string) {
    && id in rows && rows[id].status == FundingRequired && rows[id].fundingSignature.None?
    && id in rules && Intact(lib, rules[id]) && RuleMatchesIntent(lib, rules[id], rows[id].terms)
  }

  /** Nothing in the tool or the tables makes a payment exclusive: two confirmations
      with one signature, whose transaction carries both memos, reserve both rows. */
  lemma SharedPaymentReservesBoth(lib: Library, a: string, b: string, signature: string, o: ConfirmOutside, rows: Rows,
                                  rules: Rules, tx: Observation)
    requires a != b && Waits(lib, rows, rules, a) && Waits(lib, rows, rules, b)
    requires Start(lib, Params(a, signature)) == GettingRow && Start(lib, Params(b, signature)) == GettingRow
    requires NoFaults(o)
    requires o.reader == Some(ReadConfirmed(tx)) && Paid(lib, tx, rows[a].terms)
    requires SameParties(rows[a].terms, rows[b].terms) && rows[a].terms.amountRaw == rows[b].terms.amountRaw
    requires Memo(rows[b].terms) in tx.memos
    ensures
      var (rows1, first) :=
        SoloConfirm(lib, Params(a, signature), o, rows, rules, Start(lib, Params(a, signature)), CONFIRM_STEPS);
      var (rows2, second) :=
        SoloConfirm(lib, Params(b, signature), o, rows1, rules, Start(lib, Params(b, signature)), CONFIRM_STEPS);
      && first.Answered? && first.answer.Reserved? && second.Answered? && second.answer.Reserved?
      && a in rows2 && rows2[a].status == BudgetReserved && rows2[a].fundingSignature == Some(signature)
      && b in rows2 && rows2[b].status == BudgetReserved && rows2[b].fundingSignature == Some(signature)
  {
    PaysForBothIff(lib, tx, rows[a].terms, rows[b].terms);
    RetryReachesReserved(lib, Params(a, signature), o, rows, rules, tx);
    var rows1 := SoloConfirm(lib, Params(a, signature), o, rows, rules, GettingRow, CONFIRM_STEPS).0;
    RetryReachesReserved(lib, Params(b, signature), o, rows1, rules, tx);
  }
}
