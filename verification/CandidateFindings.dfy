// What the validator's findings and reports say: each finding code stands for one
// condition of its own, and the rest of a report agrees with its findings.
module CandidateFindings {
  import opened Prelude
  import opened Codecs
  import opened WatchRules
  import opened CandidateReports
  import opened Candidates

  // ---- The static phase -----------------------------------------------------------------

  /** When a finding about the rule's envelope belongs in the report; likewise below for
      the other parts of a candidate. */
  predicate EnvelopeBlocks(code: FindingCode, r: WatchRule) {
    match code
    case UnsupportedSchemaVersion => r.schemaVersion != 2
    case MultiUseRule => !r.oneShot
    case UsedAmountNonZero => r.usedAmountRaw > 0
    case ControlledWalletEnvelopeMismatch => !(r.executor == r.destination == r.delegatedWallet)
    case _ => false
  }

  predicate IdentityBlocks(code: FindingCode, lib: Library, f: FundingSnapshot, r: WatchRule) {
    match code
    case RuleIdMismatch => !(f.intentId == f.ruleIdHex == HexLower(r.ruleId))
    case CanonicalHashMismatch => f.canonicalRuleHashHex != HexLower(lib.ruleHash(r))
    case ControlledWalletMismatch => f.controlledWallet != r.delegatedWallet
    case _ => false
  }

  predicate ActionBlocks(code: FindingCode, pins: Pins, f: FundingSnapshot, r: WatchRule) {
    if !r.action.SolendDeposit? then code.UnsupportedAction?
    else
      match code
      case AmountMismatch => !(r.action.inputAmountRaw == r.maxInputAmountRaw == f.amountRaw)
      case AmountZero => !(r.action.inputAmountRaw > 0 && r.maxInputAmountRaw > 0 && f.amountRaw > 0)
      case UnsupportedSolendProgram => r.action.solendProgramId != pins.solendProgram
      case UnsupportedInputMint => r.action.inputMint != pins.usdcMint
      case _ => false
  }

  predicate ClockBlocks(code: FindingCode, f: FundingSnapshot, r: WatchRule, clocks: PreflightClocks) {
    match code
    case WallClockExpired => f.expiresAtMs <= clocks.nowMs
    case SlotExpired => clocks.slot.Some? && r.expiresAtSlot <= clocks.slot.value
    case ConfirmedSlotUnavailable => clocks.slot.None?
    case _ => false
  }

  predicate ConditionBlocks(code: FindingCode, r: WatchRule) {
    if !r.action.SolendDeposit? then false
    else if !(r.conditionLogic == AllOf && |r.conditions| == 1 && r.conditions[0].SolendReserveSupplyRate?) then
      code.UnsupportedConditionShape?
    else
      var c := r.conditions[0];
      match code
      case ConditionActionMismatch =>
        (c.reservePubkey, c.lendingMarket, c.solendProgramId)
        != (r.action.reservePubkey, r.action.lendingMarket, r.action.solendProgramId)
      case UnsupportedRateKind => c.rateKind == Apy
      case UnsupportedFormulaVersion => c.formulaVersion != 1
      case UnsupportedConditionShape => c.maxReserveStalenessSlots != 16
      case RefreshNotRequired => !c.requiredRefreshSameTx
      case _ => false
  }

  /** The threshold is looked at only when the condition is of the reviewed kind. */
  predicate ThresholdBlocks(code: FindingCode, f: FundingSnapshot, r: WatchRule) {
    match code
    case ConditionFundingMismatch => RateConditionOk(r) && r.conditions[0].thresholdBps != f.thresholdBps
    case ThresholdOutOfRange => RateConditionOk(r) && !(0 < r.conditions[0].thresholdBps <= 10_000)
    case _ => false
  }

  predicate Blocks(code: FindingCode, lib: Library, pins: Pins, f: FundingSnapshot, r: WatchRule,
                   clocks: PreflightClocks) {
    || EnvelopeBlocks(code, r) || IdentityBlocks(code, lib, f, r) || ActionBlocks(code, pins, f, r)
    || ClockBlocks(code, f, r, clocks) || ConditionBlocks(code, r) || ThresholdBlocks(code, f, r)
  }

  lemma InWhen(holds: bool, code: FindingCode, c: FindingCode)
    ensures c in When(holds, code) <==> holds && c == code
  {
  }

  lemma InSum(a: Findings, b: Findings, code: FindingCode)
    ensures code in a + b <==> code in a || code in b
  {
  }

  lemma FiveParts(action: bool, kind: bool, version: bool, staleness: bool, refresh: bool, code: FindingCode)
    ensures
      code in When(action, ConditionActionMismatch) + When(kind, UnsupportedRateKind)
              + When(version, UnsupportedFormulaVersion) + When(staleness, UnsupportedConditionShape)
              + When(refresh, RefreshNotRequired)
      <==>
        match code
        case ConditionActionMismatch => action
        case UnsupportedRateKind => kind
        case UnsupportedFormulaVersion => version
        case UnsupportedConditionShape => staleness
        case RefreshNotRequired => refresh
        case _ => false
  {
    var a, b, c := When(action, ConditionActionMismatch), When(kind, UnsupportedRateKind),
                   When(version, UnsupportedFormulaVersion);
    var d, e := When(staleness, UnsupportedConditionShape), When(refresh, RefreshNotRequired);
    InSum(a + b + c + d, e, code);
    InSum(a + b + c, d, code);
    InSum(a + b, c, code);
    InSum(a, b, code);
    InWhen(action, ConditionActionMismatch, code);
    InWhen(kind, UnsupportedRateKind, code);
    InWhen(version, UnsupportedFormulaVersion, code);
    InWhen(staleness, UnsupportedConditionShape, code);
    InWhen(refresh, RefreshNotRequired, code);
  }

  lemma EnvelopeCodes(r: WatchRule, code: FindingCode)
    ensures code in EnvelopeFindings(r) <==> EnvelopeBlocks(code, r)
  {
  }

  lemma IdentityCodes(lib: Library, f: FundingSnapshot, r: WatchRule, code: FindingCode)
    ensures code in IdentityFindings(lib, f, r) <==> IdentityBlocks(code, lib, f, r)
  {
  }

  lemma ActionCodes(pins: Pins, f: FundingSnapshot, r: WatchRule, code: FindingCode)
    ensures code in ActionFindings(pins, f, r) <==> ActionBlocks(code, pins, f, r)
  {
  }

  lemma ClockCodes(f: FundingSnapshot, r: WatchRule, clocks: PreflightClocks, code: FindingCode)
    ensures code in ClockFindings(f, r, clocks) <==> ClockBlocks(code, f, r, clocks)
  {
  }

  lemma ConditionCodes(r: WatchRule, code: FindingCode)
    ensures code in ConditionFindings(r) <==> ConditionBlocks(code, r)
  {
    if r.action.SolendDeposit? && |r.conditions| == 1 && r.conditions[0].SolendReserveSupplyRate? {
      var c := r.conditions[0];
      FiveParts(c.reservePubkey != r.action.reservePubkey || c.lendingMarket != r.action.lendingMarket
                || c.solendProgramId != r.action.solendProgramId,
                c.rateKind != Apr, c.formulaVersion != 1, c.maxReserveStalenessSlots != 16, !c.requiredRefreshSameTx,
                code);
    }
  }

  /** The supported condition is the rule's own, and there is one exactly when it is of
      the reviewed kind. */
  lemma SupportedIff(r: WatchRule)
    ensures SupportedCondition(r).Some? <==> RateConditionOk(r)
    ensures
      RateConditionOk(r) ==>
        SupportedCondition(r).value == RateCondition(r.conditions[0].comparison, r.conditions[0].thresholdBps, 16)
  {
  }

  lemma ThresholdCodes(f: FundingSnapshot, r: WatchRule, code: FindingCode)
    ensures code in ThresholdFindings(f, SupportedCondition(r)) <==> ThresholdBlocks(code, f, r)
  {
    SupportedIff(r);
  }

  /** The static report holds exactly the findings that apply: none is missing, and none
      is taken for another. */
  lemma StaticFindingsIff(lib: Library, pins: Pins, f: FundingSnapshot, r: WatchRule, clocks: PreflightClocks,
                          code: FindingCode)
    ensures code in StaticFindings(lib, pins, f, r, clocks) <==> Blocks(code, lib, pins, f, r, clocks)
  {
    EnvelopeCodes(r, code);
    IdentityCodes(lib, f, r, code);
    ActionCodes(pins, f, r, code);
    ClockCodes(f, r, clocks, code);
    ConditionCodes(r, code);
    ThresholdCodes(f, r, code);
  }

  /** What the static phase reports, whether or not it blocks. */
  function StaticReport(lib: Library, pins: Pins, f: FundingSnapshot, r: WatchRule, clocks: PreflightClocks)
    : CandidateReport
  {
    match PreflightAnswer(lib, pins, f, r, clocks)
    case PreflightBlocked(report) => report
    case NeedsChain(prepared) => prepared.report
  }

  predicate ClocksAgree(c: ClockReport, findings: Findings) {
    && c.wallClockEligible == Some(WallClockExpired !in findings)
    && (c.slotClockEligible.None? <==> ConfirmedSlotUnavailable in findings)
    && (c.slotClockEligible.Some? ==> (c.slotClockEligible.value <==> SlotExpired !in findings))
  }

  predicate AmountsAgree(a: AmountReport, findings: Findings) {
    && (a.action.None? <==> UnsupportedAction in findings)
    && (a.allEqualAndNonzero <==>
          UnsupportedAction !in findings && AmountMismatch !in findings && AmountZero !in findings)
  }

  /** The flags of a static report say what its findings say, and its figures are those of
      the row, the rule and the clocks. */
  lemma StaticReportAgrees(lib: Library, pins: Pins, f: FundingSnapshot, r: WatchRule, clocks: PreflightClocks)
    ensures
      var report := StaticReport(lib, pins, f, r, clocks);
      && report.intentId == Some(f.intentId) && report.ruleIdHex == Some(HexLower(r.ruleId))
      && report.classification == MostUrgent(report.findings)
      && report.clocks.nowMs == clocks.nowMs && report.clocks.currentSlot == clocks.slot
      && report.clocks.fundingExpiresAtMs == Some(f.expiresAtMs)
      && report.clocks.ruleExpiresAtSlot == Some(r.expiresAtSlot)
      && ClocksAgree(report.clocks, report.findings)
      && report.amounts.Some? && AmountsAgree(report.amounts.value, report.findings)
      && report.amounts.value.ruleMax == Some(r.maxInputAmountRaw)
      && report.amounts.value.funding == Some(f.amountRaw)
      && (report.amounts.value.action.Some? ==> report.amounts.value.action.value == r.action.inputAmountRaw)
  {
    var findings := StaticFindings(lib, pins, f, r, clocks);
    StaticReportIs(lib, pins, f, r, clocks);
    forall code ensures code in findings <==> Blocks(code, lib, pins, f, r, clocks) {
      StaticFindingsIff(lib, pins, f, r, clocks, code);
    }
    ClockCodesOf(lib, pins, f, r, clocks, findings);
    AmountCodesOf(lib, pins, f, r, clocks, findings);
    ReportOfAgrees(f, r, clocks, findings);
  }

  lemma StaticReportIs(lib: Library, pins: Pins, f: FundingSnapshot, r: WatchRule, clocks: PreflightClocks)
    ensures StaticReport(lib, pins, f, r, clocks) == ReportOf(f, r, clocks, StaticFindings(lib, pins, f, r, clocks))
  {
  }

  lemma ClockCodesOf(lib: Library, pins: Pins, f: FundingSnapshot, r: WatchRule, clocks: PreflightClocks,
                     findings: Findings)
    requires forall code :: code in findings <==> Blocks(code, lib, pins, f, r, clocks)
    ensures WallClockExpired in findings <==> f.expiresAtMs <= clocks.nowMs
    ensures SlotExpired in findings <==> clocks.slot.Some? && r.expiresAtSlot <= clocks.slot.value
    ensures ConfirmedSlotUnavailable in findings <==> clocks.slot.None?
  {
  }

  lemma AmountCodesOf(lib: Library, pins: Pins, f: FundingSnapshot, r: WatchRule, clocks: PreflightClocks,
                      findings: Findings)
    requires forall code :: code in findings <==> Blocks(code, lib, pins, f, r, clocks)
    ensures UnsupportedAction in findings <==> !r.action.SolendDeposit?
    ensures
      UnsupportedAction !in findings && AmountMismatch !in findings && AmountZero !in findings <==>
        r.action.SolendDeposit? && r.action.inputAmountRaw == r.maxInputAmountRaw == f.amountRaw > 0
  {
  }

  lemma ReportOfAgrees(f: FundingSnapshot, r: WatchRule, clocks: PreflightClocks, findings: Findings)
    requires WallClockExpired in findings <==> f.expiresAtMs <= clocks.nowMs
    requires SlotExpired in findings <==> clocks.slot.Some? && r.expiresAtSlot <= clocks.slot.value
    requires ConfirmedSlotUnavailable in findings <==> clocks.slot.None?
    requires UnsupportedAction in findings <==> !r.action.SolendDeposit?
    requires
      UnsupportedAction !in findings && AmountMismatch !in findings && AmountZero !in findings <==>
        r.action.SolendDeposit? && r.action.inputAmountRaw == r.maxInputAmountRaw == f.amountRaw > 0
    ensures
      var report := ReportOf(f, r, clocks, findings);
      && report.intentId == Some(f.intentId) && report.ruleIdHex == Some(HexLower(r.ruleId))
      && report.classification == MostUrgent(report.findings)
      && report.clocks.nowMs == clocks.nowMs && report.clocks.currentSlot == clocks.slot
      && report.clocks.fundingExpiresAtMs == Some(f.expiresAtMs)
      && report.clocks.ruleExpiresAtSlot == Some(r.expiresAtSlot)
      && ClocksAgree(report.clocks, findings) && report.findings == findings
      && report.amounts.Some? && AmountsAgree(report.amounts.value, findings)
      && report.amounts.value.ruleMax == Some(r.maxInputAmountRaw)
      && report.amounts.value.funding == Some(f.amountRaw)
      && (report.amounts.value.action.Some? ==> report.amounts.value.action.value == r.action.inputAmountRaw)
  {
    CascadeIsMostUrgent(findings);
  }

  /** A condition is reported exactly when it is of the reviewed kind, with its threshold
      as a fraction of 10^18. */
  lemma StaticConditionAgrees(lib: Library, pins: Pins, f: FundingSnapshot, r: WatchRule, clocks: PreflightClocks)
    ensures
      var report := StaticReport(lib, pins, f, r, clocks);
      && (report.condition.Some? <==> RateConditionOk(r))
      && (report.condition.Some? ==>
            var c := report.condition.value;
            && c.comparison == r.conditions[0].comparison && c.thresholdBps == r.conditions[0].thresholdBps
            && c.thresholdWad * 10_000 == c.thresholdBps * 1_000_000_000_000_000_000
            && c.observedAprWad.None? && c.observedAprFloorBps.None? && c.met.None?)
      && report.clocks.maxStalenessSlots == if RateConditionOk(r) then Some(16) else None
  {
    SupportedIff(r);
  }

  // ---- The chain phase -----------------------------------------------------------------------

  predicate DeadlineBlocks(code: FindingCode, expiresAtMs: i64, expiresAtSlot: u64, clocks: Clocks) {
    match code
    case WallClockExpired => expiresAtMs <= clocks.nowMs
    case SlotExpired => expiresAtSlot <= clocks.slot
    case _ => false
  }

  predicate AccountBlocks(code: FindingCode, a: ActionSpec, wallet: PubkeyBytes, reserve: ReserveFacts,
                          obligation: ObligationFacts)
    requires a.SolendDeposit?
  {
    match code
    case ReserveIdentityMismatch =>
      (reserve.address, reserve.accountOwner, reserve.lendingMarket, reserve.liquidityMint)
      != (a.reservePubkey, a.solendProgramId, a.lendingMarket, a.inputMint)
    case UnsupportedMintDecimals => reserve.liquidityMintDecimals != 6
    case ObligationIdentityMismatch =>
      (obligation.address, obligation.accountOwner, obligation.lendingMarket, obligation.obligationOwner)
      != (a.targetObligation, a.solendProgramId, a.lendingMarket, wallet)
    case _ => false
  }

  /** A token account of this program, mint and owner that can be used. */
  predicate Usable(t: TokenFacts, program: PubkeyBytes, mint: PubkeyBytes, owner: PubkeyBytes) {
    (t.accountOwner, t.mint, t.tokenOwner, t.initialized, t.frozen) == (program, mint, owner, true, false)
  }

  predicate SourceBlocks(code: FindingCode, pins: Pins, p: Prepared, derived: Derived, source: Option<TokenFacts>)
    requires p.action.SolendDeposit?
  {
    match code
    case SourceAtaMismatch =>
      || derived.sourceLiquidityAta != p.funding.controlledUsdcAta
      || (source.Some? && source.value.address != derived.sourceLiquidityAta)
    case UnsupportedTokenProgram => derived.tokenProgram != pins.tokenProgram
    case AccountMissing => source.None?
    case SourceTokenMismatch =>
      source.Some? && !Usable(source.value, derived.tokenProgram, p.action.inputMint, p.delegatedWallet)
    case SourceBalanceInsufficient => source.Some? && source.value.amountRaw < p.action.inputAmountRaw
    case _ => false
  }

  predicate CollateralBlocks(code: FindingCode, p: Prepared, derived: Derived, collateralMint: PubkeyBytes,
                             collateral: Option<TokenFacts>) {
    match code
    case AtaMissing => collateral.None?
    case CollateralAtaMismatch => collateral.Some? && collateral.value.address != derived.collateralAta
    case CollateralTokenMismatch =>
      collateral.Some? && !Usable(collateral.value, derived.tokenProgram, collateralMint, p.delegatedWallet)
    case _ => false
  }

  predicate FreshnessBlocks(code: FindingCode, reserve: ReserveFacts, maxStalenessSlots: u32, slot: u64) {
    match code
    case ReserveSlotAhead => slot < reserve.lastUpdateSlot
    case ReserveExplicitlyStale => reserve.lastUpdateStale
    case ReserveTooOld => slot > reserve.lastUpdateSlot + maxStalenessSlots
    case _ => false
  }

  /** Everything found before the rate is looked at. */
  predicate ChainBlocks(code: FindingCode, pins: Pins, p: Prepared, facts: ChainFacts, expiresAtMs: i64,
                        expiresAtSlot: u64, clocks: Clocks)
    requires p.action.SolendDeposit?
  {
    || DeadlineBlocks(code, expiresAtMs, expiresAtSlot, clocks)
    || AccountBlocks(code, p.action, p.delegatedWallet, facts.reserve, facts.obligation)
    || SourceBlocks(code, pins, p, facts.derived, facts.sourceLiquidity)
    || CollateralBlocks(code, p, facts.derived, facts.reserve.collateralMint, facts.collateral)
    || FreshnessBlocks(code, facts.reserve, p.condition.maxStalenessSlots, clocks.slot)
  }

  /** Nothing is wrong with the reserve: it is the right one, and fresh. */
  predicate ReserveUsable(p: Prepared, reserve: ReserveFacts, slot: u64)
    requires p.action.SolendDeposit?
  {
    && (reserve.address, reserve.accountOwner, reserve.lendingMarket, reserve.liquidityMint)
       == (p.action.reservePubkey, p.action.solendProgramId, p.action.lendingMarket, p.action.inputMint)
    && reserve.liquidityMintDecimals == 6 && FreshEnough(reserve, p.condition.maxStalenessSlots, slot)
  }

  lemma DeadlineCodes(expiresAtMs: i64, expiresAtSlot: u64, clocks: Clocks, code: FindingCode)
    ensures code in DeadlineFindings(expiresAtMs, expiresAtSlot, clocks) <==>
              DeadlineBlocks(code, expiresAtMs, expiresAtSlot, clocks)
  {
  }

  lemma AccountCodes(a: ActionSpec, wallet: PubkeyBytes, reserve: ReserveFacts, obligation: ObligationFacts,
                     code: FindingCode)
    requires a.SolendDeposit?
    ensures code in AccountFindings(a, wallet, reserve, obligation) <==>
              AccountBlocks(code, a, wallet, reserve, obligation)
  {
  }

  lemma SourceCodes(pins: Pins, p: Prepared, facts: ChainFacts, code: FindingCode)
    requires p.action.SolendDeposit?
    ensures code in SourceFindings(pins, p, facts) <==>
              SourceBlocks(code, pins, p, facts.derived, facts.sourceLiquidity)
  {
    var rest := match facts.sourceLiquidity
      case None => [AccountMissing]
      case Some(source) => SourceAccountFindings(p, facts.derived, source);
    if facts.sourceLiquidity.Some? {
      SourceAccountCodes(p, facts.derived, facts.sourceLiquidity.value, code);
    }
    InSum(When(facts.derived.sourceLiquidityAta != p.funding.controlledUsdcAta, SourceAtaMismatch)
          + When(facts.derived.tokenProgram != pins.tokenProgram, UnsupportedTokenProgram), rest, code);
  }

  lemma SourceAccountCodes(p: Prepared, derived: Derived, source: TokenFacts, code: FindingCode)
    requires p.action.SolendDeposit?
    ensures
      code in SourceAccountFindings(p, derived, source) <==>
        match code
        case SourceAtaMismatch => source.address != derived.sourceLiquidityAta
        case SourceTokenMismatch => !Usable(source, derived.tokenProgram, p.action.inputMint, p.delegatedWallet)
        case SourceBalanceInsufficient => source.amountRaw < p.action.inputAmountRaw
        case _ => false
  {
  }

  lemma CollateralCodes(p: Prepared, facts: ChainFacts, code: FindingCode)
    ensures code in CollateralFindings(p, facts) <==>
              CollateralBlocks(code, p, facts.derived, facts.reserve.collateralMint, facts.collateral)
  {
  }

  lemma FreshnessCodes(reserve: ReserveFacts, maxStalenessSlots: u32, clocks: Clocks, code: FindingCode)
    ensures code in FreshnessFindings(reserve, maxStalenessSlots, clocks) <==>
              FreshnessBlocks(code, reserve, maxStalenessSlots, clocks.slot)
  {
  }

  lemma AccountsAndClocksCodes(pins: Pins, p: Prepared, facts: ChainFacts, expiresAtMs: i64, expiresAtSlot: u64,
                               clocks: Clocks, code: FindingCode)
    requires p.action.SolendDeposit? && p.report.findings == []
    ensures code in AccountsAndClocks(pins, p, facts, expiresAtMs, expiresAtSlot, clocks) <==>
              ChainBlocks(code, pins, p, facts, expiresAtMs, expiresAtSlot, clocks)
  {
    DeadlineCodes(expiresAtMs, expiresAtSlot, clocks, code);
    AccountCodes(p.action, p.delegatedWallet, facts.reserve, facts.obligation, code);
    SourceCodes(pins, p, facts, code);
    CollateralCodes(p, facts, code);
    FreshnessCodes(facts.reserve, p.condition.maxStalenessSlots, clocks, code);
  }

  lemma TrustedIffUsable(pins: Pins, p: Prepared, facts: ChainFacts, expiresAtMs: i64, expiresAtSlot: u64,
                         clocks: Clocks)
    requires p.action.SolendDeposit? && p.report.findings == []
    ensures ReserveTrusted(AccountsAndClocks(pins, p, facts, expiresAtMs, expiresAtSlot, clocks)) <==>
              ReserveUsable(p, facts.reserve, clocks.slot)
  {
    var findings := AccountsAndClocks(pins, p, facts, expiresAtMs, expiresAtSlot, clocks);
    forall code ensures code in findings <==> ChainBlocks(code, pins, p, facts, expiresAtMs, expiresAtSlot, clocks) {
      AccountsAndClocksCodes(pins, p, facts, expiresAtMs, expiresAtSlot, clocks, code);
    }
    ReserveCodesOf(pins, p, facts, expiresAtMs, expiresAtSlot, clocks, findings);
    TrustedIffNone(findings);
  }

  lemma ReserveCodesOf(pins: Pins, p: Prepared, facts: ChainFacts, expiresAtMs: i64, expiresAtSlot: u64,
                       clocks: Clocks, findings: Findings)
    requires p.action.SolendDeposit?
    requires
      forall code :: code in findings <==> ChainBlocks(code, pins, p, facts, expiresAtMs, expiresAtSlot, clocks)
    ensures
      ReserveIdentityMismatch in findings <==>
        (facts.reserve.address, facts.reserve.accountOwner, facts.reserve.lendingMarket, facts.reserve.liquidityMint)
        != (p.action.reservePubkey, p.action.solendProgramId, p.action.lendingMarket, p.action.inputMint)
    ensures UnsupportedMintDecimals in findings <==> facts.reserve.liquidityMintDecimals != 6
    ensures ReserveSlotAhead in findings <==> clocks.slot < facts.reserve.lastUpdateSlot
    ensures ReserveExplicitlyStale in findings <==> facts.reserve.lastUpdateStale
    ensures
      ReserveTooOld in findings <==> clocks.slot > facts.reserve.lastUpdateSlot + p.condition.maxStalenessSlots
  {
  }

  lemma TrustedIffNone(findings: Findings)
    ensures
      ReserveTrusted(findings) <==>
        && ReserveIdentityMismatch !in findings && UnsupportedMintDecimals !in findings
        && ReserveExplicitlyStale !in findings && ReserveSlotAhead !in findings && ReserveTooOld !in findings
  {
    forall i | 0 <= i < |findings| ensures findings[i] in findings {
    }
  }

  /** The chain report holds exactly the findings that apply; the rate is judged only
      when nothing is wrong with the reserve it was read from. */
  lemma ChainFindingsIff(pins: Pins, p: Prepared, facts: ChainFacts, expiresAtMs: i64, expiresAtSlot: u64,
                         clocks: Clocks, code: FindingCode)
    requires p.action.SolendDeposit? && p.report.findings == []
    ensures
      code in ChainFindings(pins, p, facts, expiresAtMs, expiresAtSlot, clocks) <==>
        || ChainBlocks(code, pins, p, facts, expiresAtMs, expiresAtSlot, clocks)
        || (code.ConditionNotMet? && ReserveUsable(p, facts.reserve, clocks.slot)
            && !RateHolds(facts.nativeSupplyAprWad, p.condition.comparison, p.condition.thresholdBps))
  {
    var findings := AccountsAndClocks(pins, p, facts, expiresAtMs, expiresAtSlot, clocks);
    AccountsAndClocksCodes(pins, p, facts, expiresAtMs, expiresAtSlot, clocks, code);
    TrustedIffUsable(pins, p, facts, expiresAtMs, expiresAtSlot, clocks);
    CompareIsExact(facts.nativeSupplyAprWad, p.condition.comparison, p.condition.thresholdBps);
    InSum(findings, When(ReserveTrusted(findings) && !RateMet(p, facts), ConditionNotMet), code);
  }

  /** The report of the chain phase, as it comes out of the validator. */
  function FinalReport(pins: Pins, p: Prepared, facts: ChainFacts, clocks: Clocks): CandidateReport
    requires WellPrepared(p)
  {
    var expiresAtMs, expiresAtSlot := p.report.clocks.fundingExpiresAtMs.value, p.report.clocks.ruleExpiresAtSlot.value;
    var trusted := ReserveTrusted(AccountsAndClocks(pins, p, facts, expiresAtMs, expiresAtSlot, clocks));
    ChainReport(p, facts, clocks, ChainFindings(pins, p, facts, expiresAtMs, expiresAtSlot, clocks),
                if trusted then Some(RateMet(p, facts)) else None)
  }

  predicate ObservationAgrees(c: ConditionReport, aprWad: u128, usable: bool, findings: Findings) {
    && (c.met.Some? <==> usable)
    && (usable ==>
          && (c.met.value <==> ConditionNotMet !in findings)
          && c.observedAprWad == Some(aprWad) && c.observedAprFloorBps.Some?
          && c.observedAprFloorBps.value == aprWad / 100_000_000_000_000)
  }

  /** The flags of the final report say what its findings say at the later clock reading;
      the observed rate is reported exactly when it could be trusted. */
  lemma FinalReportAgrees(pins: Pins, p: Prepared, facts: ChainFacts, clocks: Clocks)
    requires WellPrepared(p) && p.report.condition.value.met.None?
    ensures
      var report := FinalReport(pins, p, facts, clocks);
      && report.intentId == p.report.intentId && report.ruleIdHex == p.report.ruleIdHex
      && report.amounts == p.report.amounts
      && report.classification == MostUrgent(report.findings)
      && report.clocks.nowMs == clocks.nowMs && report.clocks.currentSlot == Some(clocks.slot)
      && ClocksAgree(report.clocks, report.findings)
      && report.clocks.reserveLastUpdateSlot == Some(facts.reserve.lastUpdateSlot)
      && (report.clocks.reserveAgeSlots.None? <==> ReserveSlotAhead in report.findings)
      && (report.clocks.reserveAgeSlots.Some? ==>
            facts.reserve.lastUpdateSlot + report.clocks.reserveAgeSlots.value == clocks.slot)
      && report.condition.Some?
      && ObservationAgrees(report.condition.value, facts.nativeSupplyAprWad,
                           ReserveUsable(p, facts.reserve, clocks.slot), report.findings)
  {
    var expiresAtMs, expiresAtSlot := p.report.clocks.fundingExpiresAtMs.value, p.report.clocks.ruleExpiresAtSlot.value;
    CascadeIsMostUrgent(FinalReport(pins, p, facts, clocks).findings);
    TrustedIffUsable(pins, p, facts, expiresAtMs, expiresAtSlot, clocks);
    CompareIsExact(facts.nativeSupplyAprWad, p.condition.comparison, p.condition.thresholdBps);
    var findings := ChainFindings(pins, p, facts, expiresAtMs, expiresAtSlot, clocks);
    var rejected := ReserveUsable(p, facts.reserve, clocks.slot)
                    && !RateHolds(facts.nativeSupplyAprWad, p.condition.comparison, p.condition.thresholdBps);
    forall code
      ensures code in findings <==>
                ChainBlocks(code, pins, p, facts, expiresAtMs, expiresAtSlot, clocks) || (code.ConditionNotMet? && rejected)
    {
      ChainFindingsIff(pins, p, facts, expiresAtMs, expiresAtSlot, clocks, code);
    }
    FinalCodesOf(pins, p, facts, expiresAtMs, expiresAtSlot, clocks, findings, rejected);
  }

  lemma FinalCodesOf(pins: Pins, p: Prepared, facts: ChainFacts, expiresAtMs: i64, expiresAtSlot: u64, clocks: Clocks,
                     findings: Findings, rejected: bool)
    requires p.action.SolendDeposit?
    requires
      forall code ::
        code in findings <==>
          ChainBlocks(code, pins, p, facts, expiresAtMs, expiresAtSlot, clocks) || (code.ConditionNotMet? && rejected)
    ensures WallClockExpired in findings <==> expiresAtMs <= clocks.nowMs
    ensures SlotExpired in findings <==> expiresAtSlot <= clocks.slot
    ensures ConfirmedSlotUnavailable !in findings
    ensures ReserveSlotAhead in findings <==> clocks.slot < facts.reserve.lastUpdateSlot
    ensures ConditionNotMet in findings <==> rejected
  {
  }
}
