// Two-phase validation of one deposit candidate: static checks that need no
// chain data, then checks against decoded accounts at a later clock reading.
module Candidates {
  import opened Prelude
  import opened Codecs
  import opened WatchRules
  import opened CandidateReports

  const SCHEMA_V2: u8 := 2
  const SUPPORTED_FORMULA_VERSION: u8 := 1
  const REQUIRED_STALENESS_SLOTS: u32 := 16
  const REQUIRED_MINT_DECIMALS: u8 := 6
  const MAX_THRESHOLD_BPS: u32 := 10_000

  /** The reviewed protocol identities. */
  datatype Pins = Pins(solendProgram: PubkeyBytes, tokenProgram: PubkeyBytes, usdcMint: PubkeyBytes)

  datatype FundingSnapshot = FundingSnapshot(
    intentId: string,
    ruleIdHex: string,
    canonicalRuleHashHex: string,
    controlledWallet: PubkeyBytes,
    controlledUsdcAta: PubkeyBytes,
    amountRaw: u64,
    thresholdBps: u32,
    expiresAtMs: i64)

  datatype CandidateInput = CandidateInput(funding: Option<FundingSnapshot>, rule: Option<WatchRule>)

  datatype PreflightClocks = PreflightClocks(nowMs: i64, slot: Option<u64>)
  datatype Clocks = Clocks(nowMs: i64, slot: u64)

  datatype ClockReport = ClockReport(
    nowMs: i64,
    fundingExpiresAtMs: Option<i64>,
    wallClockEligible: Option<bool>,
    currentSlot: Option<u64>,
    ruleExpiresAtSlot: Option<u64>,
    slotClockEligible: Option<bool>,
    reserveLastUpdateSlot: Option<u64>,
    reserveAgeSlots: Option<u64>,
    maxStalenessSlots: Option<u32>)

  datatype AmountReport = AmountReport(
    action: Option<u64>, ruleMax: Option<u64>, funding: Option<u64>, allEqualAndNonzero: bool)

  datatype ConditionReport = ConditionReport(
    comparison: Comparison, thresholdBps: u32, thresholdWad: u128, observedAprWad: Option<u128>,
    observedAprFloorBps: Option<nat>, met: Option<bool>)

  datatype CandidateReport = CandidateReport(
    classification: Classification,
    intentId: Option<string>,
    ruleIdHex: Option<string>,
    findings: Findings,
    clocks: ClockReport,
    amounts: Option<AmountReport>,
    condition: Option<ConditionReport>)

  datatype RateCondition = RateCondition(comparison: Comparison, thresholdBps: u32, maxStalenessSlots: u32)

  datatype Prepared = Prepared(
    funding: FundingSnapshot,
    delegatedWallet: PubkeyBytes,
    action: ActionSpec,
    condition: RateCondition,
    report: CandidateReport)

  datatype PreflightOutcome = PreflightBlocked(report: CandidateReport) | NeedsChain(prepared: Prepared)

  // ---- Static findings, in the order they are reported ----------------------------------

  function When(holds: bool, code: FindingCode): Findings {
    if holds then [code] else []
  }

  function EnvelopeFindings(r: WatchRule): Findings {
    When(r.schemaVersion != SCHEMA_V2, UnsupportedSchemaVersion)
    + When(!r.oneShot, MultiUseRule)
    + When(r.usedAmountRaw != 0, UsedAmountNonZero)
    + When(r.executor != r.delegatedWallet || r.destination != r.delegatedWallet, ControlledWalletEnvelopeMismatch)
  }

  function IdentityFindings(lib: Library, f: FundingSnapshot, r: WatchRule): Findings {
    When(f.intentId != HexLower(r.ruleId) || f.ruleIdHex != HexLower(r.ruleId), RuleIdMismatch)
    + When(f.canonicalRuleHashHex != HexLower(lib.ruleHash(r)), CanonicalHashMismatch)
    + When(f.controlledWallet != r.delegatedWallet, ControlledWalletMismatch)
  }

  predicate AmountsEqual(f: FundingSnapshot, r: WatchRule) {
    r.action.SolendDeposit? && r.action.inputAmountRaw == r.maxInputAmountRaw == f.amountRaw
  }

  function ActionFindings(pins: Pins, f: FundingSnapshot, r: WatchRule): Findings {
    if !r.action.SolendDeposit? then [UnsupportedAction]
    else
      When(!AmountsEqual(f, r), AmountMismatch)
      + When(r.action.inputAmountRaw == 0 || r.maxInputAmountRaw == 0 || f.amountRaw == 0, AmountZero)
      + When(r.action.solendProgramId != pins.solendProgram, UnsupportedSolendProgram)
      + When(r.action.inputMint != pins.usdcMint, UnsupportedInputMint)
  }

  function ClockFindings(f: FundingSnapshot, r: WatchRule, clocks: PreflightClocks): Findings {
    When(clocks.nowMs >= f.expiresAtMs, WallClockExpired)
    + match clocks.slot
      case Some(slot) => When(slot >= r.expiresAtSlot, SlotExpired)
      case None => [ConfirmedSlotUnavailable]
  }

  function ConditionFindings(r: WatchRule): Findings {
    if !r.action.SolendDeposit? then []
    else if r.conditionLogic != AllOf || |r.conditions| != 1 then [UnsupportedConditionShape]
    else
      match r.conditions[0]
      case OtherCondition(_) => [UnsupportedConditionShape]
      case SolendReserveSupplyRate(reserve, market, program, _, _, kind, version, staleness, refresh) =>
        When(reserve != r.action.reservePubkey || market != r.action.lendingMarket
             || program != r.action.solendProgramId, ConditionActionMismatch)
        + When(kind != Apr, UnsupportedRateKind)
        + When(version != SUPPORTED_FORMULA_VERSION, UnsupportedFormulaVersion)
        + When(staleness != REQUIRED_STALENESS_SLOTS, UnsupportedConditionShape)
        + When(!refresh, RefreshNotRequired)
  }

  /** The condition, if every condition check passed. */
  function SupportedCondition(r: WatchRule): Option<RateCondition> {
    if r.action.SolendDeposit? && ConditionFindings(r) == [] then
      var c := r.conditions[0];
      Some(RateCondition(c.comparison, c.thresholdBps, c.maxReserveStalenessSlots))
    else None
  }

  function ThresholdFindings(f: FundingSnapshot, condition: Option<RateCondition>): Findings {
    match condition
    case None => []
    case Some(c) =>
      When(c.thresholdBps != f.thresholdBps, ConditionFundingMismatch)
      + When(!(1 <= c.thresholdBps <= MAX_THRESHOLD_BPS), ThresholdOutOfRange)
  }

  /** Everything found before the condition is looked at. */
  function EarlyFindings(lib: Library, pins: Pins, f: FundingSnapshot, r: WatchRule, clocks: PreflightClocks)
    : Findings
  {
    EnvelopeFindings(r) + IdentityFindings(lib, f, r) + ActionFindings(pins, f, r) + ClockFindings(f, r, clocks)
  }

  function StaticFindings(lib: Library, pins: Pins, f: FundingSnapshot, r: WatchRule, clocks: PreflightClocks)
    : Findings
  {
    EarlyFindings(lib, pins, f, r, clocks) + ConditionFindings(r) + ThresholdFindings(f, SupportedCondition(r))
  }

  // ---- Static readiness as one conjunction -------------------------------------------------

  predicate EnvelopeOk(r: WatchRule) {
    && r.schemaVersion == 2 && r.oneShot && r.usedAmountRaw == 0
    && r.executor == r.destination == r.delegatedWallet
  }

  predicate IdentityOk(lib: Library, f: FundingSnapshot, r: WatchRule) {
    && f.intentId == f.ruleIdHex == HexLower(r.ruleId)
    && f.canonicalRuleHashHex == HexLower(lib.ruleHash(r))
    && f.controlledWallet == r.delegatedWallet
  }

  predicate DepositOk(pins: Pins, f: FundingSnapshot, r: WatchRule) {
    && r.action.SolendDeposit?
    && r.action.inputAmountRaw == r.maxInputAmountRaw == f.amountRaw > 0
    && r.action.solendProgramId == pins.solendProgram && r.action.inputMint == pins.usdcMint
  }

  predicate InTime(f: FundingSnapshot, r: WatchRule, nowMs: i64, slot: u64) {
    nowMs < f.expiresAtMs && slot < r.expiresAtSlot
  }

  /** One rate condition on the action's own reserve, of the reviewed kind. */
  predicate RateConditionOk(r: WatchRule) {
    && r.action.SolendDeposit? && r.conditionLogic == AllOf && |r.conditions| == 1
    && r.conditions[0].SolendReserveSupplyRate?
    && var c := r.conditions[0];
       && c.reservePubkey == r.action.reservePubkey
       && c.lendingMarket == r.action.lendingMarket
       && c.solendProgramId == r.action.solendProgramId
       && c.rateKind == Apr && c.formulaVersion == 1
       && c.maxReserveStalenessSlots == 16 && c.requiredRefreshSameTx
  }

  predicate ConditionOk(f: FundingSnapshot, r: WatchRule) {
    RateConditionOk(r) && r.conditions[0].thresholdBps == f.thresholdBps && 1 <= f.thresholdBps <= 10_000
  }

  predicate StaticallyReady(lib: Library, pins: Pins, f: FundingSnapshot, r: WatchRule, clocks: PreflightClocks) {
    && EnvelopeOk(r) && IdentityOk(lib, f, r) && DepositOk(pins, f, r)
    && clocks.slot.Some? && InTime(f, r, clocks.nowMs, clocks.slot.value)
    && ConditionOk(f, r)
  }

  lemma NoFindingsIffReady(lib: Library, pins: Pins, f: FundingSnapshot, r: WatchRule, clocks: PreflightClocks)
    ensures StaticFindings(lib, pins, f, r, clocks) == [] <==> StaticallyReady(lib, pins, f, r, clocks)
  {
    assert EnvelopeFindings(r) == [] <==> EnvelopeOk(r);
    assert IdentityFindings(lib, f, r) == [] <==> IdentityOk(lib, f, r);
    assert ActionFindings(pins, f, r) == [] <==> DepositOk(pins, f, r);
    if r.action.SolendDeposit? {
      ConditionPartsOk(f, r);
    }
  }

  lemma ConditionPartsOk(f: FundingSnapshot, r: WatchRule)
    requires r.action.SolendDeposit?
    ensures ConditionFindings(r) + ThresholdFindings(f, SupportedCondition(r)) == [] <==> ConditionOk(f, r)
  {
  }

  /** A missing action or condition never goes unnoticed. */
  lemma MissingPartsLeaveFindings(lib: Library, pins: Pins, f: FundingSnapshot, r: WatchRule, clocks: PreflightClocks)
    ensures
      !r.action.SolendDeposit? || SupportedCondition(r).None? ==> StaticFindings(lib, pins, f, r, clocks) != []
  {
    NoFindingsIffReady(lib, pins, f, r, clocks);
    if r.action.SolendDeposit? {
      ConditionPartsOk(f, r);
    }
  }

  // ---- The static phase ----------------------------------------------------------------------

  method PushEnvelope(r: WatchRule) returns (out: Findings)
    ensures out == EnvelopeFindings(r)
  {
    out := [];
    if r.schemaVersion != SCHEMA_V2 {
      out := out + [UnsupportedSchemaVersion];
    }
    if !r.oneShot {
      out := out + [MultiUseRule];
    }
    if r.usedAmountRaw != 0 {
      out := out + [UsedAmountNonZero];
    }
    if r.executor != r.delegatedWallet || r.destination != r.delegatedWallet {
      out := out + [ControlledWalletEnvelopeMismatch];
    }
  }

  method PushIdentity(lib: Library, f: FundingSnapshot, r: WatchRule, findings: Findings) returns (out: Findings)
    ensures out == findings + IdentityFindings(lib, f, r)
  {
    out := findings;
    if f.intentId != HexLower(r.ruleId) || f.ruleIdHex != HexLower(r.ruleId) {
      out := out + [RuleIdMismatch];
    }
    if f.canonicalRuleHashHex != HexLower(lib.ruleHash(r)) {
      out := out + [CanonicalHashMismatch];
    }
    if f.controlledWallet != r.delegatedWallet {
      out := out + [ControlledWalletMismatch];
    }
  }

  method PushAction(pins: Pins, f: FundingSnapshot, r: WatchRule, findings: Findings) returns (out: Findings)
    ensures out == findings + ActionFindings(pins, f, r)
  {
    out := findings;
    match r.action
    case OtherAction(_) => out := out + [UnsupportedAction];
    case SolendDeposit(_, _, _, program, mint, amount) =>
      if !(amount == r.maxInputAmountRaw && r.maxInputAmountRaw == f.amountRaw) {
        out := out + [AmountMismatch];
      }
      if amount == 0 || r.maxInputAmountRaw == 0 || f.amountRaw == 0 {
        out := out + [AmountZero];
      }
      if program != pins.solendProgram {
        out := out + [UnsupportedSolendProgram];
      }
      if mint != pins.usdcMint {
        out := out + [UnsupportedInputMint];
      }
  }

  method PushClocks(f: FundingSnapshot, r: WatchRule, clocks: PreflightClocks, findings: Findings)
    returns (out: Findings)
    ensures out == findings + ClockFindings(f, r, clocks)
  {
    out := findings;
    if clocks.nowMs >= f.expiresAtMs {
      out := out + [WallClockExpired];
    }
    match clocks.slot
    case Some(slot) =>
      if slot >= r.expiresAtSlot {
        out := out + [SlotExpired];
      }
    case None => out := out + [ConfirmedSlotUnavailable];
  }

  predicate IsConditionCode(code: FindingCode) {
    code.UnsupportedConditionShape? || code.UnsupportedFormulaVersion? || code.UnsupportedRateKind?
    || code.RefreshNotRequired? || code.ConditionActionMismatch?
  }

  predicate NoConditionCode(findings: Findings) {
    forall i :: 0 <= i < |findings| ==> !IsConditionCode(findings[i])
  }

  /** The test at the end looks at every finding so far; it may, because nothing
      pushed earlier is a condition finding. */
  method PushCondition(r: WatchRule, findings: Findings) returns (out: Findings, condition: Option<RateCondition>)
    requires r.action.SolendDeposit? && NoConditionCode(findings)
    ensures out == findings + ConditionFindings(r)
    ensures condition == SupportedCondition(r)
  {
    out, condition := findings, None;
    if r.conditionLogic != AllOf || |r.conditions| != 1 {
      out := out + [UnsupportedConditionShape];
      return;
    }
    var c := r.conditions[0];
    if c.OtherCondition? {
      out := out + [UnsupportedConditionShape];
      return;
    }
    out := PushConditionParts(r, c, findings);
    if NoConditionCode(out) {
      condition := Some(RateCondition(c.comparison, c.thresholdBps, c.maxReserveStalenessSlots));
    }
    CleanIffNoParts(r, findings);
  }

  method PushConditionParts(r: WatchRule, c: Condition, findings: Findings) returns (out: Findings)
    requires r.action.SolendDeposit? && c.SolendReserveSupplyRate?
    requires r.conditionLogic == AllOf && r.conditions == [c]
    ensures out == findings + ConditionFindings(r)
  {
    out := findings;
    if c.reservePubkey != r.action.reservePubkey || c.lendingMarket != r.action.lendingMarket
       || c.solendProgramId != r.action.solendProgramId
    {
      out := out + [ConditionActionMismatch];
    }
    if c.rateKind != Apr {
      out := out + [UnsupportedRateKind];
    }
    if c.formulaVersion != SUPPORTED_FORMULA_VERSION {
      out := out + [UnsupportedFormulaVersion];
    }
    if c.maxReserveStalenessSlots != REQUIRED_STALENESS_SLOTS {
      out := out + [UnsupportedConditionShape];
    }
    if !c.requiredRefreshSameTx {
      out := out + [RefreshNotRequired];
    }
  }

  lemma CleanIffNoParts(r: WatchRule, findings: Findings)
    requires NoConditionCode(findings)
    ensures NoConditionCode(findings + ConditionFindings(r)) <==> ConditionFindings(r) == []
  {
    var all, added := findings + ConditionFindings(r), ConditionFindings(r);
    assert forall i :: 0 <= i < |added| ==> IsConditionCode(added[i]);
    if added != [] {
      assert all[|findings|] == added[0];
    } else {
      assert all == findings;
    }
  }

  lemma EarlierPartsAreClean(lib: Library, pins: Pins, f: FundingSnapshot, r: WatchRule, clocks: PreflightClocks)
    ensures NoConditionCode(EarlyFindings(lib, pins, f, r, clocks))
  {
    var envelope, identity := EnvelopeFindings(r), IdentityFindings(lib, f, r);
    var action, clock := ActionFindings(pins, f, r), ClockFindings(f, r, clocks);
    EnvelopeIsClean(r);
    IdentityIsClean(lib, f, r);
    ActionIsClean(pins, f, r);
    ClockIsClean(f, r, clocks);
    CleanTogether(envelope, identity);
    CleanTogether(envelope + identity, action);
    CleanTogether(envelope + identity + action, clock);
  }

  lemma EnvelopeIsClean(r: WatchRule)
    ensures NoConditionCode(EnvelopeFindings(r))
  {
  }

  lemma IdentityIsClean(lib: Library, f: FundingSnapshot, r: WatchRule)
    ensures NoConditionCode(IdentityFindings(lib, f, r))
  {
  }

  lemma ActionIsClean(pins: Pins, f: FundingSnapshot, r: WatchRule)
    ensures NoConditionCode(ActionFindings(pins, f, r))
  {
  }

  lemma ClockIsClean(f: FundingSnapshot, r: WatchRule, clocks: PreflightClocks)
    ensures NoConditionCode(ClockFindings(f, r, clocks))
  {
  }

  lemma CleanTogether(a: Findings, b: Findings)
    requires NoConditionCode(a) && NoConditionCode(b)
    ensures NoConditionCode(a + b)
  {
  }

  method PushThreshold(f: FundingSnapshot, condition: Option<RateCondition>, findings: Findings)
    returns (out: Findings)
    ensures out == findings + ThresholdFindings(f, condition)
  {
    out := findings;
    if condition.Some? && condition.value.thresholdBps != f.thresholdBps {
      out := out + [ConditionFundingMismatch];
    }
    if condition.Some? && !(1 <= condition.value.thresholdBps <= MAX_THRESHOLD_BPS) {
      out := out + [ThresholdOutOfRange];
    }
  }

  /** Blocked by one finding, classified by it, with the ids and clock readings there are. */
  predicate BlockedBy(outcome: PreflightOutcome, code: FindingCode, intentId: Option<string>,
                      ruleIdHex: Option<string>, clocks: PreflightClocks) {
    && outcome.PreflightBlocked? && outcome.report.findings == [code]
    && outcome.report.classification == PrimaryClassification([code])
    && outcome.report.intentId == intentId && outcome.report.ruleIdHex == ruleIdHex
    && outcome.report.clocks.nowMs == clocks.nowMs && outcome.report.clocks.currentSlot == clocks.slot
    && outcome.report.amounts.None? && outcome.report.condition.None?
  }

  lemma BareClassification(code: FindingCode)
    ensures PrimaryClassification([code]) == ClassOf(code)
  {
    CascadeIsMostUrgent([code]);
    assert [code][1..] == [];
    assert Rank(MostUrgent([code])) <= Rank(ClassOf([code][0]));
  }

  function BareReport(classification: Classification, code: FindingCode, intentId: Option<string>,
                      ruleIdHex: Option<string>, clocks: PreflightClocks): CandidateReport {
    CandidateReport(classification, intentId, ruleIdHex, [code],
                    ClockReport(clocks.nowMs, None, None, clocks.slot, None, None, None, None, None), None, None)
  }

  function ActionAmount(r: WatchRule): Option<u64> {
    if r.action.SolendDeposit? then Some(r.action.inputAmountRaw) else None
  }

  function ReportOf(f: FundingSnapshot, r: WatchRule, clocks: PreflightClocks, findings: Findings): CandidateReport {
    var condition := SupportedCondition(r);
    CandidateReport(
      PrimaryClassification(findings), Some(f.intentId), Some(HexLower(r.ruleId)), findings,
      ClockReport(clocks.nowMs, Some(f.expiresAtMs), Some(clocks.nowMs < f.expiresAtMs), clocks.slot,
                  Some(r.expiresAtSlot),
                  if clocks.slot.Some? then Some(clocks.slot.value < r.expiresAtSlot) else None, None, None,
                  if condition.Some? then Some(condition.value.maxStalenessSlots) else None),
      Some(AmountReport(ActionAmount(r), Some(r.maxInputAmountRaw), Some(f.amountRaw),
                        AmountsEqual(f, r) && f.amountRaw != 0)),
      if condition.Some? then
        Some(ConditionReport(condition.value.comparison, condition.value.thresholdBps,
                             ThresholdWad(condition.value.thresholdBps), None, None, None))
      else None)
  }

  method CollectEarly(lib: Library, pins: Pins, f: FundingSnapshot, r: WatchRule, clocks: PreflightClocks)
    returns (findings: Findings)
    ensures findings == EarlyFindings(lib, pins, f, r, clocks)
  {
    findings := PushEnvelope(r);
    findings := PushIdentity(lib, f, r, findings);
    findings := PushAction(pins, f, r, findings);
    findings := PushClocks(f, r, clocks, findings);
  }

  method CollectStatic(lib: Library, pins: Pins, f: FundingSnapshot, r: WatchRule, clocks: PreflightClocks)
    returns (findings: Findings, condition: Option<RateCondition>)
    ensures findings == StaticFindings(lib, pins, f, r, clocks)
    ensures condition == SupportedCondition(r)
  {
    findings := CollectEarly(lib, pins, f, r, clocks);
    EarlierPartsAreClean(lib, pins, f, r, clocks);
    condition := None;
    if r.action.SolendDeposit? {
      findings, condition := PushCondition(r, findings);
    }
    findings := PushThreshold(f, condition, findings);
  }

  /** What the static phase answers for a funding row and its rule. */
  function PreflightAnswer(lib: Library, pins: Pins, f: FundingSnapshot, r: WatchRule, clocks: PreflightClocks)
    : PreflightOutcome
  {
    var findings := StaticFindings(lib, pins, f, r, clocks);
    var report := ReportOf(f, r, clocks, findings);
    if findings == [] && SupportedCondition(r).Some? then
      NeedsChain(Prepared(f, r.delegatedWallet, r.action, SupportedCondition(r).value, report))
    else PreflightBlocked(report)
  }

  /** The chain is read exactly when the whole static conjunction holds, and the
      report is ready exactly then. */
  lemma NeedsChainIffReady(lib: Library, pins: Pins, f: FundingSnapshot, r: WatchRule, clocks: PreflightClocks)
    ensures PreflightAnswer(lib, pins, f, r, clocks).NeedsChain? <==> StaticallyReady(lib, pins, f, r, clocks)
    ensures
      PreflightAnswer(lib, pins, f, r, clocks).PreflightBlocked? ==>
        PreflightAnswer(lib, pins, f, r, clocks).report.findings != []
        && PreflightAnswer(lib, pins, f, r, clocks).report.classification != Ready
  {
    var findings := StaticFindings(lib, pins, f, r, clocks);
    NoFindingsIffReady(lib, pins, f, r, clocks);
    MissingPartsLeaveFindings(lib, pins, f, r, clocks);
    ReadyIffNoFindings(findings);
  }

  /** All blockers are gathered before one classification is chosen. */
  method PreflightCandidate(lib: Library, pins: Pins, input: CandidateInput, clocks: PreflightClocks)
    returns (outcome: PreflightOutcome)
    ensures
      match input
      case CandidateInput(None, None) => BlockedBy(outcome, EmptyCandidate, None, None, clocks)
      case CandidateInput(Some(f), None) =>
        BlockedBy(outcome, OrphanFundingOnly, Some(f.intentId), Some(f.ruleIdHex), clocks)
      case CandidateInput(None, Some(r)) =>
        BlockedBy(outcome, OrphanRuleOnly, None, Some(HexLower(r.ruleId)), clocks)
      case CandidateInput(Some(f), Some(r)) => outcome == PreflightAnswer(lib, pins, f, r, clocks)
  {
    BareClassification(EmptyCandidate);
    BareClassification(OrphanFundingOnly);
    BareClassification(OrphanRuleOnly);
    match input {
      case CandidateInput(Some(f), None) =>
        return PreflightBlocked(BareReport(OrphanFundingOnlyClass, OrphanFundingOnly, Some(f.intentId),
                                           Some(f.ruleIdHex), clocks));
      case CandidateInput(None, Some(r)) =>
        return PreflightBlocked(BareReport(OrphanRuleOnlyClass, OrphanRuleOnly, None,
                                           Some(HexLower(r.ruleId)), clocks));
      case CandidateInput(None, None) =>
        return PreflightBlocked(BareReport(EmptyCandidateClass, EmptyCandidate, None, None, clocks));
      case CandidateInput(Some(f), Some(r)) =>
        var findings, condition := CollectStatic(lib, pins, f, r, clocks);
        var report := ReportOf(f, r, clocks, findings);
        outcome :=
          if findings == [] && condition.Some? then
            NeedsChain(Prepared(f, r.delegatedWallet, r.action, condition.value, report))
          else PreflightBlocked(report);
    }
  }

  // ---- The chain phase ------------------------------------------------------------------------

  datatype ReserveFacts = ReserveFacts(
    address: PubkeyBytes,
    accountOwner: PubkeyBytes,
    lastUpdateSlot: u64,
    lastUpdateStale: bool,
    lendingMarket: PubkeyBytes,
    liquidityMint: PubkeyBytes,
    liquidityMintDecimals: u8,
    liquiditySupply: PubkeyBytes,
    pythOracle: PubkeyBytes,
    switchboardOracle: PubkeyBytes,
    collateralMint: PubkeyBytes,
    collateralSupply: PubkeyBytes)

  datatype ObligationFacts = ObligationFacts(
    address: PubkeyBytes, accountOwner: PubkeyBytes, lendingMarket: PubkeyBytes, obligationOwner: PubkeyBytes)

  datatype TokenFacts = TokenFacts(
    address: PubkeyBytes,
    accountOwner: PubkeyBytes,
    mint: PubkeyBytes,
    tokenOwner: PubkeyBytes,
    amountRaw: u64,
    initialized: bool,
    frozen: bool)

  datatype Derived = Derived(tokenProgram: PubkeyBytes, sourceLiquidityAta: PubkeyBytes, collateralAta: PubkeyBytes)

  datatype ChainFacts = ChainFacts(
    reserve: ReserveFacts,
    obligation: ObligationFacts,
    sourceLiquidity: Option<TokenFacts>,
    collateral: Option<TokenFacts>,
    derived: Derived,
    nativeSupplyAprWad: u128)

  datatype PlanInputs = PlanInputs(
    solendProgramId: PubkeyBytes,
    inputMint: PubkeyBytes,
    inputAmountRaw: u64,
    sourceLiquidity: PubkeyBytes,
    userCollateral: PubkeyBytes,
    reserve: PubkeyBytes,
    reserveLiquiditySupply: PubkeyBytes,
    reserveCollateralMint: PubkeyBytes,
    lendingMarket: PubkeyBytes,
    destinationDepositCollateral: PubkeyBytes,
    obligation: PubkeyBytes,
    obligationOwner: PubkeyBytes,
    pythOracle: PubkeyBytes,
    switchboardOracle: PubkeyBytes,
    userTransferAuthority: PubkeyBytes,
    tokenProgram: PubkeyBytes,
    report: CandidateReport)

  datatype ChainOutcome = ChainBlocked(report: CandidateReport) | PlanReady(plan: PlanInputs)

  predicate TokenAccountOk(t: TokenFacts, program: PubkeyBytes, mint: PubkeyBytes, owner: PubkeyBytes) {
    t.accountOwner == program && t.mint == mint && t.tokenOwner == owner && t.initialized && !t.frozen
  }

  function DeadlineFindings(fundingExpiresAtMs: i64, ruleExpiresAtSlot: u64, clocks: Clocks): Findings {
    When(clocks.nowMs >= fundingExpiresAtMs, WallClockExpired) + When(clocks.slot >= ruleExpiresAtSlot, SlotExpired)
  }

  function AccountFindings(a: ActionSpec, wallet: PubkeyBytes, reserve: ReserveFacts, obligation: ObligationFacts)
    : Findings
    requires a.SolendDeposit?
  {
    When(reserve.address != a.reservePubkey || reserve.accountOwner != a.solendProgramId
         || reserve.lendingMarket != a.lendingMarket || reserve.liquidityMint != a.inputMint, ReserveIdentityMismatch)
    + When(reserve.liquidityMintDecimals != REQUIRED_MINT_DECIMALS, UnsupportedMintDecimals)
    + When(obligation.address != a.targetObligation || obligation.accountOwner != a.solendProgramId
           || obligation.lendingMarket != a.lendingMarket || obligation.obligationOwner != wallet,
           ObligationIdentityMismatch)
  }

  function SourceAccountFindings(p: Prepared, derived: Derived, source: TokenFacts): Findings
    requires p.action.SolendDeposit?
  {
    When(source.address != derived.sourceLiquidityAta, SourceAtaMismatch)
    + When(!TokenAccountOk(source, derived.tokenProgram, p.action.inputMint, p.delegatedWallet), SourceTokenMismatch)
    + When(source.amountRaw < p.action.inputAmountRaw, SourceBalanceInsufficient)
  }

  function SourceFindings(pins: Pins, p: Prepared, facts: ChainFacts): Findings
    requires p.action.SolendDeposit?
  {
    When(facts.derived.sourceLiquidityAta != p.funding.controlledUsdcAta, SourceAtaMismatch)
    + When(facts.derived.tokenProgram != pins.tokenProgram, UnsupportedTokenProgram)
    + match facts.sourceLiquidity
      case None => [AccountMissing]
      case Some(source) => SourceAccountFindings(p, facts.derived, source)
  }

  function CollateralFindings(p: Prepared, facts: ChainFacts): Findings {
    match facts.collateral
    case None => [AtaMissing]
    case Some(collateral) =>
      When(collateral.address != facts.derived.collateralAta, CollateralAtaMismatch)
      + When(!TokenAccountOk(collateral, facts.derived.tokenProgram, facts.reserve.collateralMint, p.delegatedWallet),
             CollateralTokenMismatch)
  }

  function ReserveAge(reserve: ReserveFacts, clocks: Clocks): Option<u64> {
    if reserve.lastUpdateSlot <= clocks.slot then Some(clocks.slot - reserve.lastUpdateSlot) else None
  }

  function FreshnessFindings(reserve: ReserveFacts, maxStalenessSlots: u32, clocks: Clocks): Findings {
    var age := ReserveAge(reserve, clocks);
    When(age.None?, ReserveSlotAhead)
    + When(reserve.lastUpdateStale, ReserveExplicitlyStale)
    + When(age.Some? && age.value > maxStalenessSlots, ReserveTooOld)
  }

  predicate ReserveCode(code: FindingCode) {
    code.ReserveIdentityMismatch? || code.UnsupportedMintDecimals? || code.ReserveExplicitlyStale?
    || code.ReserveSlotAhead? || code.ReserveTooOld?
  }

  /** The rate is looked at only when nothing found so far is about the reserve. */
  predicate ReserveTrusted(findings: Findings) {
    forall i :: 0 <= i < |findings| ==> !ReserveCode(findings[i])
  }

  function AccountsAndClocks(pins: Pins, p: Prepared, facts: ChainFacts, expiresAtMs: i64, expiresAtSlot: u64,
                             clocks: Clocks): Findings
    requires p.action.SolendDeposit?
  {
    p.report.findings
    + DeadlineFindings(expiresAtMs, expiresAtSlot, clocks)
    + AccountFindings(p.action, p.delegatedWallet, facts.reserve, facts.obligation)
    + SourceFindings(pins, p, facts)
    + CollateralFindings(p, facts)
    + FreshnessFindings(facts.reserve, p.condition.maxStalenessSlots, clocks)
  }

  function RateMet(p: Prepared, facts: ChainFacts): bool {
    CompareWad(facts.nativeSupplyAprWad, p.condition.comparison, p.condition.thresholdBps)
  }

  function ChainFindings(pins: Pins, p: Prepared, facts: ChainFacts, expiresAtMs: i64, expiresAtSlot: u64,
                         clocks: Clocks): Findings
    requires p.action.SolendDeposit?
  {
    var findings := AccountsAndClocks(pins, p, facts, expiresAtMs, expiresAtSlot, clocks);
    findings + When(ReserveTrusted(findings) && !RateMet(p, facts), ConditionNotMet)
  }

  // ---- Chain readiness as one conjunction -------------------------------------------------------

  predicate AccountsOk(pins: Pins, p: Prepared, facts: ChainFacts)
    requires p.action.SolendDeposit?
  {
    var a, reserve, obligation := p.action, facts.reserve, facts.obligation;
    && reserve.address == a.reservePubkey && reserve.accountOwner == a.solendProgramId
    && reserve.lendingMarket == a.lendingMarket && reserve.liquidityMint == a.inputMint
    && reserve.liquidityMintDecimals == 6
    && obligation.address == a.targetObligation && obligation.accountOwner == a.solendProgramId
    && obligation.lendingMarket == a.lendingMarket && obligation.obligationOwner == p.delegatedWallet
  }

  predicate TokensOk(pins: Pins, p: Prepared, facts: ChainFacts)
    requires p.action.SolendDeposit?
  {
    && facts.derived.tokenProgram == pins.tokenProgram
    && facts.sourceLiquidity.Some?
    && facts.sourceLiquidity.value.address == facts.derived.sourceLiquidityAta == p.funding.controlledUsdcAta
    && TokenAccountOk(facts.sourceLiquidity.value, pins.tokenProgram, p.action.inputMint, p.delegatedWallet)
    && facts.sourceLiquidity.value.amountRaw >= p.action.inputAmountRaw
    && facts.collateral.Some?
    && facts.collateral.value.address == facts.derived.collateralAta
    && TokenAccountOk(facts.collateral.value, pins.tokenProgram, facts.reserve.collateralMint, p.delegatedWallet)
  }

  predicate FreshEnough(reserve: ReserveFacts, maxStalenessSlots: u32, slot: u64) {
    !reserve.lastUpdateStale && reserve.lastUpdateSlot <= slot <= reserve.lastUpdateSlot + maxStalenessSlots
  }

  predicate ChainReady(pins: Pins, p: Prepared, facts: ChainFacts, expiresAtMs: i64, expiresAtSlot: u64, clocks: Clocks)
    requires p.action.SolendDeposit?
  {
    && clocks.nowMs < expiresAtMs && clocks.slot < expiresAtSlot
    && AccountsOk(pins, p, facts) && TokensOk(pins, p, facts)
    && FreshEnough(facts.reserve, p.condition.maxStalenessSlots, clocks.slot)
    && RateHolds(facts.nativeSupplyAprWad, p.condition.comparison, p.condition.thresholdBps)
  }

  lemma AccountsIff(pins: Pins, p: Prepared, facts: ChainFacts)
    requires p.action.SolendDeposit?
    ensures
      AccountFindings(p.action, p.delegatedWallet, facts.reserve, facts.obligation) == [] <==> AccountsOk(pins, p, facts)
  {
  }

  lemma TokensIff(pins: Pins, p: Prepared, facts: ChainFacts)
    requires p.action.SolendDeposit?
    ensures SourceFindings(pins, p, facts) + CollateralFindings(p, facts) == [] <==> TokensOk(pins, p, facts)
  {
  }

  lemma FreshIff(reserve: ReserveFacts, maxStalenessSlots: u32, clocks: Clocks)
    ensures
      FreshnessFindings(reserve, maxStalenessSlots, clocks) == [] <==>
        FreshEnough(reserve, maxStalenessSlots, clocks.slot)
  {
  }

  lemma NoChainFindingsIffReady(pins: Pins, p: Prepared, facts: ChainFacts, expiresAtMs: i64, expiresAtSlot: u64,
                                clocks: Clocks)
    requires p.action.SolendDeposit? && p.report.findings == []
    ensures
      ChainFindings(pins, p, facts, expiresAtMs, expiresAtSlot, clocks) == [] <==>
        ChainReady(pins, p, facts, expiresAtMs, expiresAtSlot, clocks)
  {
    AccountsIff(pins, p, facts);
    TokensIff(pins, p, facts);
    FreshIff(facts.reserve, p.condition.maxStalenessSlots, clocks);
    CompareIsExact(facts.nativeSupplyAprWad, p.condition.comparison, p.condition.thresholdBps);
    assert ReserveTrusted([]);
  }

  // ---- The chain phase as a program ---------------------------------------------------------------

  method PushAccounts(p: Prepared, facts: ChainFacts, findings: Findings) returns (out: Findings)
    requires p.action.SolendDeposit?
    ensures out == findings + AccountFindings(p.action, p.delegatedWallet, facts.reserve, facts.obligation)
  {
    out := findings;
    var a, reserve, obligation := p.action, facts.reserve, facts.obligation;
    if reserve.address != a.reservePubkey || reserve.accountOwner != a.solendProgramId
       || reserve.lendingMarket != a.lendingMarket || reserve.liquidityMint != a.inputMint
    {
      out := out + [ReserveIdentityMismatch];
    }
    if reserve.liquidityMintDecimals != REQUIRED_MINT_DECIMALS {
      out := out + [UnsupportedMintDecimals];
    }
    if obligation.address != a.targetObligation || obligation.accountOwner != a.solendProgramId
       || obligation.lendingMarket != a.lendingMarket || obligation.obligationOwner != p.delegatedWallet
    {
      out := out + [ObligationIdentityMismatch];
    }
  }

  method PushSource(pins: Pins, p: Prepared, facts: ChainFacts, findings: Findings) returns (out: Findings)
    requires p.action.SolendDeposit?
    ensures out == findings + SourceFindings(pins, p, facts)
  {
    out := findings;
    if facts.derived.sourceLiquidityAta != p.funding.controlledUsdcAta {
      out := out + [SourceAtaMismatch];
    }
    if facts.derived.tokenProgram != pins.tokenProgram {
      out := out + [UnsupportedTokenProgram];
    }
    match facts.sourceLiquidity
    case None => out := out + [AccountMissing];
    case Some(source) => out := PushSourceAccount(p, facts.derived, source, out);
  }

  method PushSourceAccount(p: Prepared, derived: Derived, source: TokenFacts, findings: Findings)
    returns (out: Findings)
    requires p.action.SolendDeposit?
    ensures out == findings + SourceAccountFindings(p, derived, source)
  {
    out := findings;
    if source.address != derived.sourceLiquidityAta {
      out := out + [SourceAtaMismatch];
    }
    if !TokenAccountOk(source, derived.tokenProgram, p.action.inputMint, p.delegatedWallet) {
      out := out + [SourceTokenMismatch];
    }
    if source.amountRaw < p.action.inputAmountRaw {
      out := out + [SourceBalanceInsufficient];
    }
  }

  method PushCollateral(p: Prepared, facts: ChainFacts, findings: Findings) returns (out: Findings)
    ensures out == findings + CollateralFindings(p, facts)
  {
    out := findings;
    match facts.collateral
    case None => out := out + [AtaMissing];
    case Some(collateral) =>
      if collateral.address != facts.derived.collateralAta {
        out := out + [CollateralAtaMismatch];
      }
      if !TokenAccountOk(collateral, facts.derived.tokenProgram, facts.reserve.collateralMint, p.delegatedWallet) {
        out := out + [CollateralTokenMismatch];
      }
  }

  method PushFreshness(p: Prepared, reserve: ReserveFacts, clocks: Clocks, findings: Findings)
    returns (out: Findings, age: Option<u64>)
    ensures out == findings + FreshnessFindings(reserve, p.condition.maxStalenessSlots, clocks)
    ensures age == ReserveAge(reserve, clocks)
  {
    out, age := findings, None;
    if reserve.lastUpdateSlot <= clocks.slot {
      age := Some(clocks.slot - reserve.lastUpdateSlot);
    } else {
      out := out + [ReserveSlotAhead];
    }
    if reserve.lastUpdateStale {
      out := out + [ReserveExplicitlyStale];
    }
    if age.Some? && age.value > p.condition.maxStalenessSlots {
      out := out + [ReserveTooOld];
    }
  }

  method CollectChain(pins: Pins, p: Prepared, facts: ChainFacts, expiresAtMs: i64, expiresAtSlot: u64, clocks: Clocks)
    returns (findings: Findings, age: Option<u64>)
    requires p.action.SolendDeposit?
    ensures findings == AccountsAndClocks(pins, p, facts, expiresAtMs, expiresAtSlot, clocks)
    ensures age == ReserveAge(facts.reserve, clocks)
  {
    findings := p.report.findings;
    if clocks.nowMs >= expiresAtMs {
      findings := findings + [WallClockExpired];
    }
    if clocks.slot >= expiresAtSlot {
      findings := findings + [SlotExpired];
    }
    assert findings == p.report.findings + DeadlineFindings(expiresAtMs, expiresAtSlot, clocks);
    findings := PushAccounts(p, facts, findings);
    findings := PushSource(pins, p, facts, findings);
    findings := PushCollateral(p, facts, findings);
    findings, age := PushFreshness(p, facts.reserve, clocks, findings);
  }

  /** A prepared deposit carries no finding and both deadlines of its report. */
  predicate WellPrepared(p: Prepared) {
    && p.action.SolendDeposit? && p.report.findings == [] && p.report.condition.Some?
    && p.report.clocks.fundingExpiresAtMs.Some? && p.report.clocks.ruleExpiresAtSlot.Some?
  }

  function WithObservation(c: Option<ConditionReport>, aprWad: u128, met: Option<bool>): Option<ConditionReport> {
    if c.Some? && met.Some? then
      Some(c.value.(observedAprWad := Some(aprWad), observedAprFloorBps := Some(aprWad / BPS_WAD), met := met))
    else c
  }

  /** The report after the chain phase. */
  function ChainReport(p: Prepared, facts: ChainFacts, clocks: Clocks, findings: Findings, met: Option<bool>)
    : CandidateReport
    requires WellPrepared(p)
  {
    var before := p.report.clocks;
    var expiresAtMs, expiresAtSlot := before.fundingExpiresAtMs.value, before.ruleExpiresAtSlot.value;
    p.report.(
      classification := PrimaryClassification(findings),
      findings := findings,
      clocks := before.(
        nowMs := clocks.nowMs, wallClockEligible := Some(clocks.nowMs < expiresAtMs),
        currentSlot := Some(clocks.slot), slotClockEligible := Some(clocks.slot < expiresAtSlot),
        reserveLastUpdateSlot := Some(facts.reserve.lastUpdateSlot), reserveAgeSlots := ReserveAge(facts.reserve, clocks)),
      condition := WithObservation(p.report.condition, facts.nativeSupplyAprWad, met))
  }

  function PlanOf(p: Prepared, facts: ChainFacts, report: CandidateReport): PlanInputs
    requires p.action.SolendDeposit?
  {
    var a, reserve := p.action, facts.reserve;
    PlanInputs(a.solendProgramId, a.inputMint, a.inputAmountRaw, facts.derived.sourceLiquidityAta,
               facts.derived.collateralAta, a.reservePubkey, reserve.liquiditySupply, reserve.collateralMint,
               a.lendingMarket, reserve.collateralSupply, a.targetObligation, p.delegatedWallet, reserve.pythOracle,
               reserve.switchboardOracle, p.delegatedWallet, facts.derived.tokenProgram, report)
  }

  /** A plan comes out exactly when the whole chain conjunction holds at the later
      clock reading; otherwise every blocker is in the report. */
  method ValidateChain(pins: Pins, p: Prepared, facts: ChainFacts, clocks: Clocks) returns (outcome: ChainOutcome)
    requires WellPrepared(p)
    ensures
      var expiresAtMs, expiresAtSlot := p.report.clocks.fundingExpiresAtMs.value, p.report.clocks.ruleExpiresAtSlot.value;
      var findings := ChainFindings(pins, p, facts, expiresAtMs, expiresAtSlot, clocks);
      var trusted := ReserveTrusted(AccountsAndClocks(pins, p, facts, expiresAtMs, expiresAtSlot, clocks));
      var report := ChainReport(p, facts, clocks, findings, if trusted then Some(RateMet(p, facts)) else None);
      && outcome == (if findings == [] then PlanReady(PlanOf(p, facts, report)) else ChainBlocked(report))
      && (outcome.PlanReady? <==> ChainReady(pins, p, facts, expiresAtMs, expiresAtSlot, clocks))
      && (report.classification == Ready <==> outcome.PlanReady?)
  {
    var expiresAtMs, expiresAtSlot := p.report.clocks.fundingExpiresAtMs.value, p.report.clocks.ruleExpiresAtSlot.value;
    var findings, age := CollectChain(pins, p, facts, expiresAtMs, expiresAtSlot, clocks);
    var met: Option<bool> := None;
    if ReserveTrusted(findings) {
      met := Some(CompareWad(facts.nativeSupplyAprWad, p.condition.comparison, p.condition.thresholdBps));
    }
    if met == Some(false) {
      findings := findings + [ConditionNotMet];
    }
    NoChainFindingsIffReady(pins, p, facts, expiresAtMs, expiresAtSlot, clocks);
    ReadyIffNoFindings(findings);
    assert findings == ChainFindings(pins, p, facts, expiresAtMs, expiresAtSlot, clocks);
    var report := ChainReport(p, facts, clocks, findings, met);
    outcome := if findings == [] then PlanReady(PlanOf(p, facts, report)) else ChainBlocked(report);
  }

  // ---- Both phases --------------------------------------------------------------------------------------

  lemma PreparedIsWellPrepared(lib: Library, pins: Pins, f: FundingSnapshot, r: WatchRule, clocks: PreflightClocks)
    requires PreflightAnswer(lib, pins, f, r, clocks).NeedsChain?
    ensures
      var p := PreflightAnswer(lib, pins, f, r, clocks).prepared;
      && WellPrepared(p)
      && p.report.clocks.fundingExpiresAtMs == Some(f.expiresAtMs)
      && p.report.clocks.ruleExpiresAtSlot == Some(r.expiresAtSlot)
      && p.condition == RateCondition(r.conditions[0].comparison, f.thresholdBps, 16)
  {
    NeedsChainIffReady(lib, pins, f, r, clocks);
  }

  /** A plan names the rule's own reserve, market and obligation, and the accounts read
      for them, each in its place. */
  predicate PlanNames(pins: Pins, a: ActionSpec, facts: ChainFacts, plan: PlanInputs) {
    && a.SolendDeposit? && plan.reserve == a.reservePubkey && plan.lendingMarket == a.lendingMarket
    && plan.obligation == a.targetObligation && plan.tokenProgram == pins.tokenProgram
    && facts.sourceLiquidity.Some? && plan.sourceLiquidity == facts.sourceLiquidity.value.address
    && facts.collateral.Some? && plan.userCollateral == facts.collateral.value.address
    && plan.reserve == facts.reserve.address && plan.obligation == facts.obligation.address
    && plan.reserveLiquiditySupply == facts.reserve.liquiditySupply
    && plan.reserveCollateralMint == facts.reserve.collateralMint
    && plan.destinationDepositCollateral == facts.reserve.collateralSupply
    && plan.pythOracle == facts.reserve.pythOracle && plan.switchboardOracle == facts.reserve.switchboardOracle
  }

  /** The validator from end to end. */
  method ValidateCandidate(lib: Library, pins: Pins, f: FundingSnapshot, r: WatchRule, before: PreflightClocks,
                           facts: ChainFacts, after: Clocks) returns (plan: Option<PlanInputs>)
    ensures
      plan.Some? <==>
        && StaticallyReady(lib, pins, f, r, before)
        && after.nowMs < f.expiresAtMs && after.slot < r.expiresAtSlot
        && var p := PreflightAnswer(lib, pins, f, r, before).prepared;
           && AccountsOk(pins, p, facts) && TokensOk(pins, p, facts)
           && FreshEnough(facts.reserve, 16, after.slot)
           && RateHolds(facts.nativeSupplyAprWad, r.conditions[0].comparison, f.thresholdBps)
    ensures
      plan.Some? ==>
        && plan.value.inputAmountRaw == f.amountRaw == r.maxInputAmountRaw == r.action.inputAmountRaw > 0
        && plan.value.solendProgramId == pins.solendProgram && plan.value.inputMint == pins.usdcMint
        && plan.value.sourceLiquidity == f.controlledUsdcAta && plan.value.obligationOwner == f.controlledWallet
        && plan.value.userTransferAuthority == f.controlledWallet
        && plan.value.report.classification == Ready && plan.value.report.findings == []
        && PlanNames(pins, r.action, facts, plan.value)
  {
    NeedsChainIffReady(lib, pins, f, r, before);
    var outcome := PreflightCandidate(lib, pins, CandidateInput(Some(f), Some(r)), before);
    if outcome.PreflightBlocked? {
      return None;
    }
    PreparedIsWellPrepared(lib, pins, f, r, before);
    var chain := ValidateChain(pins, outcome.prepared, facts, after);
    plan := if chain.PlanReady? then Some(chain.plan) else None;
  }

  /** Expiry is for ever: what blocks on a deadline now blocks at any later reading
      of the clocks, in either phase. */
  lemma ExpiryPersists(lib: Library, pins: Pins, f: FundingSnapshot, r: WatchRule, now: Clocks, later: Clocks)
    requires now.nowMs <= later.nowMs && now.slot <= later.slot
    requires !InTime(f, r, now.nowMs, now.slot)
    ensures PreflightAnswer(lib, pins, f, r, PreflightClocks(later.nowMs, Some(later.slot))).PreflightBlocked?
    ensures
      forall p: Prepared, facts: ChainFacts :: p.action.SolendDeposit? ==>
        !ChainReady(pins, p, facts, f.expiresAtMs, r.expiresAtSlot, later)
  {
    NeedsChainIffReady(lib, pins, f, r, PreflightClocks(later.nowMs, Some(later.slot)));
  }
}
