// Watch rules: the canonical rule, its stored form, and the outside functions
// (hashing, key text, account derivation) that the model leaves uninterpreted.
module WatchRules {
  import opened Prelude
  import opened Codecs

  type PubkeyBytes = b: bytes | |b| == 32 witness seq(32, _ => 0)
  type RuleId = b: bytes | |b| == 16 witness seq(16, _ => 0)

  datatype Comparison = Lt | Lte | Gt | Gte
  datatype RateKind = Apr | Apy
  datatype ConditionLogic = AllOf | AnyOf

  datatype Condition =
    | SolendReserveSupplyRate(
        reservePubkey: PubkeyBytes,
        lendingMarket: PubkeyBytes,
        solendProgramId: PubkeyBytes,
        comparison: Comparison,
        thresholdBps: u32,
        rateKind: RateKind,
        formulaVersion: u8,
        maxReserveStalenessSlots: u32,
        requiredRefreshSameTx: bool)
    | OtherCondition(encoding: bytes)

  datatype ActionSpec =
    | SolendDeposit(
        targetObligation: PubkeyBytes,
        reservePubkey: PubkeyBytes,
        lendingMarket: PubkeyBytes,
        solendProgramId: PubkeyBytes,
        inputMint: PubkeyBytes,
        inputAmountRaw: u64)
    | OtherAction(encoding: bytes)

  datatype WatchRule = WatchRule(
    schemaVersion: u8,
    ruleId: RuleId,
    user: PubkeyBytes,
    executor: PubkeyBytes,
    delegatedWallet: PubkeyBytes,
    createdAtSlot: u64,
    expiresAtSlot: u64,
    oneShot: bool,
    conditionLogic: ConditionLogic,
    conditions: seq<Condition>,
    action: ActionSpec,
    maxInputAmountRaw: u64,
    usedAmountRaw: u64,
    destination: PubkeyBytes,
    slippageBps: nat)

  datatype RuleStatus = Active | ConditionMet | RuleExecuting | RuleCompleted | RuleExpired | RuleRevoked | RuleFailed

  /** A row of the rule table. */
  datatype RuleRow = RuleRow(
    ruleIdHex: string,
    rule: WatchRule,
    canonicalHash: bytes,
    status: RuleStatus,
    completed: bool,
    usedAmountRaw: u64,
    lastCheckedSlot: Option<u64>)

  /** Library code: canonical hashing, base58 keys and signatures, token accounts. */
  datatype Library = Library(
    ruleHash: WatchRule -> bytes,
    keyText: PubkeyBytes -> string,
    parseKey: string -> Option<PubkeyBytes>,
    isSignature: string -> bool,
    tokenAccount: (PubkeyBytes, PubkeyBytes) -> PubkeyBytes)

  /** A row that reading accepts: hash and id agree with the stored rule. */
  predicate Intact(lib: Library, row: RuleRow) {
    row.canonicalHash == lib.ruleHash(row.rule) && Lower(row.ruleIdHex) == HexLower(row.rule.ruleId)
  }

  function FreshRuleRow(lib: Library, rule: WatchRule): (row: RuleRow) {
    RuleRow(HexLower(rule.ruleId), rule, lib.ruleHash(rule), Active, false, rule.usedAmountRaw, None)
  }

  lemma FreshRowIsIntact(lib: Library, rule: WatchRule)
    ensures Intact(lib, FreshRuleRow(lib, rule))
  {
    var s := HexLower(rule.ruleId);
    assert Lower(s) == s;
  }
}
