// The two durable tables and every write the store offers on them. Each write
// is a compare-and-set: it names the row states it may start from, changes the
// row only from those, and answers with the number of rows it changed.
module StateStore {
  import opened Prelude
  import opened WatchRules
  import opened Codecs

  datatype Status =
    | FundingRequired
    | FundingSubmitted
    | FundingInvalid
    | BudgetReserved
    | Executing
    | Completed
    | Expired
    | Refunding
    | Refunded
    | Failed
  {
    predicate IsTerminal() {
      FundingInvalid? || Completed? || Refunded? || Failed?
    }
  }

  datatype Reason = PrebroadcastFailed | OnchainFailed | OtherReason(text: string)

  /** What is fixed when the row is inserted and never changes afterwards. */
  datatype FundingTerms = FundingTerms(
    intentId: string,
    ruleIdHex: string,
    canonicalRuleHashHex: string,
    userWallet: string,
    userUsdcAta: string,
    controlledWallet: string,
    controlledUsdcAta: string,
    amountRaw: u64,
    thresholdBps: u32,
    saveDisplayApyBps: u32,
    nativeOnchainAprBps: u32,
    createdAtMs: i64,
    expiresAtMs: i64)

  datatype FundingRow = FundingRow(
    terms: FundingTerms,
    status: Status,
    fundingSignature: Option<string>,
    fundingSlot: Option<u64>,
    executionSignature: Option<string>,
    refundSignature: Option<string>,
    lastError: Option<Reason>)

  function FreshFundingRow(terms: FundingTerms): FundingRow {
    FundingRow(terms, FundingRequired, None, None, None, None, None)
  }

  /** The status-guarded updates of the funding table. */
  datatype FundingWrite =
    | MarkSubmitted(signature: string)
    | MarkReserved(signature: string, slot: u64)
    | MarkInvalid(signature: string, reason: Reason)
    | LeaseExecution(nowMs: i64)
    | ReleaseLease(reason: Reason)
    | MarkCompleted(signature: string)
    | MarkExpired(nowMs: i64)
    | LeaseRefund(nowMs: i64)
    | MarkRefunded(signature: string)
    | MarkFailed(reason: Reason)

  predicate Allowed(row: FundingRow, write: FundingWrite) {
    match write
    case MarkSubmitted(signature) =>
      row.status == FundingRequired
      || (row.status == FundingSubmitted && (row.fundingSignature == None || row.fundingSignature == Some(signature)))
    case MarkReserved(signature, _) => row.status == FundingSubmitted && row.fundingSignature == Some(signature)
    case MarkInvalid(signature, _) => row.status == FundingSubmitted && row.fundingSignature == Some(signature)
    case LeaseExecution(nowMs) => row.status == BudgetReserved && row.terms.expiresAtMs > nowMs
    case ReleaseLease(_) => row.status == Executing
    case MarkCompleted(_) => row.status == Executing
    case MarkExpired(nowMs) => row.status == BudgetReserved && row.terms.expiresAtMs <= nowMs
    case LeaseRefund(nowMs) =>
      (row.status == BudgetReserved || row.status == Expired) && row.terms.expiresAtMs <= nowMs
    case MarkRefunded(_) => row.status == Refunding
    case MarkFailed(_) => !row.status.IsTerminal()
  }

  function Updated(row: FundingRow, write: FundingWrite): FundingRow {
    match write
    case MarkSubmitted(signature) => row.(status := FundingSubmitted, fundingSignature := Some(signature))
    case MarkReserved(_, slot) => row.(status := BudgetReserved, fundingSlot := Some(slot))
    case MarkInvalid(_, reason) => row.(status := FundingInvalid, lastError := Some(reason))
    case LeaseExecution(_) => row.(status := Executing)
    case ReleaseLease(reason) => row.(status := BudgetReserved, lastError := Some(reason))
    case MarkCompleted(signature) => row.(status := Completed, executionSignature := Some(signature))
    case MarkExpired(_) => row.(status := Expired)
    case LeaseRefund(_) => row.(status := Refunding)
    case MarkRefunded(signature) => row.(status := Refunded, refundSignature := Some(signature))
    case MarkFailed(reason) => row.(status := Failed, lastError := Some(reason))
  }

  type Rows = map<string, FundingRow>
  type Rules = map<string, RuleRow>

  function Affected(rows: Rows, id: string, write: FundingWrite): nat {
    if id in rows && Allowed(rows[id], write) then 1 else 0
  }

  function Written(rows: Rows, id: string, write: FundingWrite): Rows {
    if id in rows && Allowed(rows[id], write) then rows[id := Updated(rows[id], write)] else rows
  }

  /** Completing a rule has no status guard: it hits whenever the row exists. */
  function RuleAffected(rules: Rules, id: string): nat {
    if id in rules then 1 else 0
  }

  function RuleWritten(rules: Rules, id: string, usedAmountRaw: u64, slot: u64): Rules {
    if id in rules then
      rules[id := rules[id].(status := RuleCompleted, completed := true,
                             usedAmountRaw := usedAmountRaw, lastCheckedSlot := Some(slot))]
    else rules
  }

  /** How a store call can go wrong: the error may come before or after the
      write took effect. */
  datatype Fault = NoFault | LostBefore | LostAfter

  datatype StoreError = StoreUnavailable
  type Answer = Result<nat, StoreError>

  function Reply(affected: nat, fault: Fault): Answer {
    if fault.NoFault? then Ok(affected) else Err(StoreUnavailable)
  }

  /** The durable state, mutated one call at a time. */
  class Store {
    const lib: Library
    var funding: Rows
    var rules: Rules

    constructor (lib: Library)
      ensures this.lib == lib && funding == map[] && rules == map[]
    {
      this.lib := lib;
      funding, rules := map[], map[];
    }

    method WriteFunding(id: string, write: FundingWrite, fault: Fault) returns (answer: Answer)
      modifies this`funding
      ensures funding == if fault.LostBefore? then old(funding) else Written(old(funding), id, write)
      ensures answer == Reply(Affected(old(funding), id, write), fault)
    {
      var affected := 0;
      if !fault.LostBefore? && id in funding && Allowed(funding[id], write) {
        funding := funding[id := Updated(funding[id], write)];
        affected := 1;
      }
      answer := if fault.NoFault? then Ok(affected) else Err(StoreUnavailable);
    }

    method CompleteRule(id: string, usedAmountRaw: u64, slot: u64, fault: Fault) returns (answer: Answer)
      modifies this`rules
      ensures rules == if fault.LostBefore? then old(rules) else RuleWritten(old(rules), id, usedAmountRaw, slot)
      ensures answer == Reply(RuleAffected(old(rules), id), fault)
    {
      var affected := 0;
      if !fault.LostBefore? && id in rules {
        var completed := rules[id].(status := RuleCompleted, completed := true);
        rules := rules[id := completed.(usedAmountRaw := usedAmountRaw, lastCheckedSlot := Some(slot))];
        affected := 1;
      }
      answer := if fault.NoFault? then Ok(affected) else Err(StoreUnavailable);
    }

    /** A second insert of the same id violates the primary key and errors. */
    method InsertFunding(terms: FundingTerms, fault: Fault) returns (answer: Result<(), StoreError>)
      modifies this`funding
      ensures funding == if fault.LostBefore? then old(funding) else Inserted(old(funding), terms)
      ensures answer.Ok? <==> fault.NoFault? && terms.intentId !in old(funding)
    {
      answer := Err(StoreUnavailable);
      if !fault.LostBefore? && terms.intentId !in funding {
        funding := funding[terms.intentId := FreshFundingRow(terms)];
        answer := if fault.NoFault? then Ok(()) else Err(StoreUnavailable);
      }
    }

    method InsertRule(rule: WatchRule, fault: Fault) returns (answer: Result<(), StoreError>)
      modifies this`rules
      ensures rules == if fault.LostBefore? then old(rules) else RuleInserted(old(rules), lib, rule)
      ensures answer.Ok? <==> fault.NoFault? && FreshRuleRow(lib, rule).ruleIdHex !in old(rules)
    {
      answer := Err(StoreUnavailable);
      var row := FreshRuleRow(lib, rule);
      if !fault.LostBefore? && row.ruleIdHex !in rules {
        rules := rules[row.ruleIdHex := row];
        answer := if fault.NoFault? then Ok(()) else Err(StoreUnavailable);
      }
    }

    method GetFunding(id: string, fault: Fault) returns (answer: Result<Option<FundingRow>, StoreError>)
      ensures answer == Lookup(funding, id, fault)
    {
      if !fault.NoFault? {
        return Err(StoreUnavailable);
      }
      answer := if id in funding then Ok(Some(funding[id])) else Ok(None);
    }

    /** Reading a rule recomputes its hash and rejects a row that drifted. */
    method GetRule(id: string, fault: Fault) returns (answer: Result<Option<RuleRow>, StoreError>)
      ensures answer == RuleLookup(lib, rules, id, fault)
    {
      if !fault.NoFault? {
        return Err(StoreUnavailable);
      }
      if id !in rules {
        return Ok(None);
      }
      if !Intact(lib, rules[id]) {
        return Err(StoreUnavailable);
      }
      answer := Ok(Some(rules[id]));
    }
  }

  function Inserted(rows: Rows, terms: FundingTerms): Rows {
    if terms.intentId in rows then rows else rows[terms.intentId := FreshFundingRow(terms)]
  }

  function RuleInserted(rules: Rules, lib: Library, rule: WatchRule): Rules {
    var row := FreshRuleRow(lib, rule);
    if row.ruleIdHex in rules then rules else rules[row.ruleIdHex := row]
  }

  function Lookup(rows: Rows, id: string, fault: Fault): Result<Option<FundingRow>, StoreError> {
    if !fault.NoFault? then Err(StoreUnavailable)
    else if id in rows then Ok(Some(rows[id]))
    else Ok(None)
  }

  function RuleLookup(lib: Library, rules: Rules, id: string, fault: Fault): Result<Option<RuleRow>, StoreError> {
    if !fault.NoFault? then Err(StoreUnavailable)
    else if id !in rules then Ok(None)
    else if !Intact(lib, rules[id]) then Err(StoreUnavailable)
    else Ok(Some(rules[id]))
  }

  // ---- What the guards alone guarantee ------------------------------------------

  /** Every edge of the lifecycle; nothing leaves a terminal state, and the
      lease can only be taken from, and given back to, the reserved state. */
  predicate Edge(from: Status, to: Status) {
    match to
    case FundingRequired => false
    case FundingSubmitted => from == FundingRequired || from == FundingSubmitted
    case FundingInvalid => from == FundingSubmitted
    case BudgetReserved => from == FundingSubmitted || from == Executing
    case Executing => from == BudgetReserved
    case Completed => from == Executing
    case Expired => from == BudgetReserved
    case Refunding => from == BudgetReserved || from == Expired
    case Refunded => from == Refunding
    case Failed => !from.IsTerminal()
  }

  lemma WritesFollowEdges(row: FundingRow, write: FundingWrite)
    requires Allowed(row, write)
    ensures Edge(row.status, Updated(row, write).status)
    ensures !row.status.IsTerminal()
    ensures Updated(row, write).terms == row.terms
  {
  }

  /** No edge is there in vain: a row can be taken along each by some write, if it carries
      the signature that funding binds it to, and to execution if some clock reading lies
      before its deadline. */
  lemma EveryEdgeHasAWrite(row: FundingRow, to: Status)
    requires Edge(row.status, to) && (row.status == FundingSubmitted ==> row.fundingSignature.Some?)
    requires to == Executing ==> row.terms.expiresAtMs > -TWO_63
    ensures exists write :: Allowed(row, write) && Updated(row, write).status == to
  {
    var signature := if row.fundingSignature.Some? then row.fundingSignature.value else "";
    var early, late := -TWO_63, row.terms.expiresAtMs;
    match to
    case FundingSubmitted => assert Allowed(row, MarkSubmitted(signature));
    case FundingInvalid => assert Allowed(row, MarkInvalid(signature, OnchainFailed));
    case BudgetReserved =>
      if row.status == Executing {
        assert Allowed(row, ReleaseLease(PrebroadcastFailed));
      } else {
        assert Allowed(row, MarkReserved(signature, 0));
      }
    case Executing => assert Allowed(row, LeaseExecution(early));
    case Completed => assert Allowed(row, MarkCompleted(""));
    case Expired => assert Allowed(row, MarkExpired(late));
    case Refunding => assert Allowed(row, LeaseRefund(late));
    case Refunded => assert Allowed(row, MarkRefunded(""));
    case Failed => assert Allowed(row, MarkFailed(OnchainFailed));
  }

  /** The terminal states are these four, and in them no write is ever allowed. */
  lemma TerminalIff(row: FundingRow)
    ensures row.status.IsTerminal() <==> row.status in {FundingInvalid, Completed, Refunded, Failed}
    ensures row.status.IsTerminal() <==> forall write :: !Allowed(row, write)
  {
    if !row.status.IsTerminal() {
      assert Allowed(row, MarkFailed(OnchainFailed));
    }
  }

  /** The deadline, itself already too late, divides a reserved row's future: before it the
      row can be executed and nothing else, from then on it can be expired or refunded and
      not executed. */
  lemma DeadlineDecides(row: FundingRow, nowMs: i64)
    requires row.status == BudgetReserved
    ensures Allowed(row, LeaseExecution(nowMs)) <==> nowMs < row.terms.expiresAtMs
    ensures Allowed(row, MarkExpired(nowMs)) <==> nowMs >= row.terms.expiresAtMs
    ensures Allowed(row, LeaseRefund(nowMs)) <==> nowMs >= row.terms.expiresAtMs
  {
  }

  /** A signature binds: only the transaction a row was submitted with can be confirmed or
      rejected for it. */
  lemma SignatureBinds(row: FundingRow, signature: string, slot: u64, reason: Reason)
    requires row.status == FundingSubmitted && row.fundingSignature.Some?
    ensures Allowed(row, MarkSubmitted(signature)) <==> row.fundingSignature.value == signature
    ensures Allowed(row, MarkReserved(signature, slot)) <==> row.fundingSignature.value == signature
    ensures Allowed(row, MarkInvalid(signature, reason)) <==> row.fundingSignature.value == signature
  {
  }

  /** Each write records what it was given, in its own column, and leaves the others. */
  lemma WritesRecord(row: FundingRow, write: FundingWrite)
    ensures
      var r := Updated(row, write);
      && r.terms == row.terms
      && r.fundingSignature == (if write.MarkSubmitted? then Some(write.signature) else row.fundingSignature)
      && r.fundingSlot == (if write.MarkReserved? then Some(write.slot) else row.fundingSlot)
      && r.executionSignature == (if write.MarkCompleted? then Some(write.signature) else row.executionSignature)
      && r.refundSignature == (if write.MarkRefunded? then Some(write.signature) else row.refundSignature)
      && r.lastError == (if write.MarkInvalid? || write.ReleaseLease? || write.MarkFailed? then Some(write.reason)
                         else row.lastError)
  {
  }

  /** What an insert adds waits for its funding, unsigned; a rule starts active, unused. */
  lemma InsertsAreFresh(lib: Library, rows: Rows, terms: FundingTerms, rules: Rules, rule: WatchRule)
    ensures
      terms.intentId !in rows ==>
        Inserted(rows, terms)
        == rows[terms.intentId := FundingRow(terms, FundingRequired, None, None, None, None, None)]
    ensures
      var id := HexLower(rule.ruleId);
      id !in rules ==>
        && id in RuleInserted(rules, lib, rule) && RuleInserted(rules, lib, rule)[id].rule == rule
        && RuleInserted(rules, lib, rule)[id].status == Active && !RuleInserted(rules, lib, rule)[id].completed
        && Intact(lib, RuleInserted(rules, lib, rule)[id])
  {
    FreshRowIsIntact(lib, rule);
  }

  /** At one instant at most one of the execution and the refund lease can be
      granted, and granting either shuts out the other. */
  lemma LeasesExclude(row: FundingRow, a: i64, b: i64)
    ensures !(Allowed(row, LeaseExecution(a)) && Allowed(row, LeaseRefund(a)))
    ensures Allowed(row, LeaseExecution(a)) ==> !Allowed(Updated(row, LeaseExecution(a)), LeaseRefund(b))
    ensures Allowed(row, LeaseRefund(a)) ==> !Allowed(Updated(row, LeaseRefund(a)), LeaseExecution(b))
  {
  }
}
