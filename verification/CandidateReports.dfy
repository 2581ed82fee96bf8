// Findings, their primary classification, and the full-precision rate test.
module CandidateReports {
  import opened Prelude
  import opened Arith
  import opened WatchRules

  datatype Classification =
    | Ready
    | OrphanFundingOnlyClass
    | OrphanRuleOnlyClass
    | EmptyCandidateClass
    | UnsupportedActionClass
    | UnsupportedRuleEnvelope
    | UnsupportedCondition
    | HashMismatch
    | IdentityMismatch
    | AmountMismatchClass
    | WallClockExpiredClass
    | SlotExpiredClass
    | ClockUnavailable
    | ReserveStale
    | AtaMissingClass
    | AccountMissingClass
    | AccountMismatch
    | SourceBalanceInsufficientClass
    | ConditionNotMetClass

  datatype FindingCode =
    | OrphanFundingOnly
    | OrphanRuleOnly
    | EmptyCandidate
    | UnsupportedAction
    | UnsupportedSchemaVersion
    | MultiUseRule
    | UsedAmountNonZero
    | ThresholdOutOfRange
    | ControlledWalletEnvelopeMismatch
    | UnsupportedConditionShape
    | UnsupportedFormulaVersion
    | UnsupportedRateKind
    | RefreshNotRequired
    | ConditionActionMismatch
    | ConditionFundingMismatch
    | ControlledWalletMismatch
    | RuleIdMismatch
    | CanonicalHashMismatch
    | AmountMismatch
    | AmountZero
    | WallClockExpired
    | SlotExpired
    | ConfirmedSlotUnavailable
    | ReserveExplicitlyStale
    | ReserveSlotAhead
    | ReserveTooOld
    | AccountMissing
    | AtaMissing
    | ReserveIdentityMismatch
    | ObligationIdentityMismatch
    | SourceAtaMismatch
    | SourceTokenMismatch
    | SourceBalanceInsufficient
    | CollateralAtaMismatch
    | CollateralTokenMismatch
    | UnsupportedMintDecimals
    | UnsupportedSolendProgram
    | UnsupportedInputMint
    | UnsupportedTokenProgram
    | ConditionNotMet

  type Findings = seq<FindingCode>

  /** The codes that one test of the cascade asks for. */
  predicate Asks(test: Classification, code: FindingCode) {
    match test
    case OrphanFundingOnlyClass => code.OrphanFundingOnly?
    case OrphanRuleOnlyClass => code.OrphanRuleOnly?
    case EmptyCandidateClass => code.EmptyCandidate?
    case UnsupportedActionClass => code.UnsupportedAction?
    case UnsupportedRuleEnvelope =>
      code.UnsupportedSchemaVersion? || code.MultiUseRule? || code.UsedAmountNonZero? || code.ThresholdOutOfRange?
      || code.ControlledWalletEnvelopeMismatch? || code.UnsupportedSolendProgram? || code.UnsupportedInputMint?
    case UnsupportedCondition =>
      code.UnsupportedConditionShape? || code.UnsupportedFormulaVersion? || code.UnsupportedRateKind?
      || code.RefreshNotRequired?
    case HashMismatch => code.CanonicalHashMismatch?
    case IdentityMismatch =>
      code.RuleIdMismatch? || code.ConditionActionMismatch? || code.ConditionFundingMismatch?
      || code.ControlledWalletMismatch?
    case AmountMismatchClass => code.AmountMismatch? || code.AmountZero?
    case WallClockExpiredClass => code.WallClockExpired?
    case SlotExpiredClass => code.SlotExpired?
    case ClockUnavailable => code.ConfirmedSlotUnavailable?
    case ReserveStale => code.ReserveExplicitlyStale? || code.ReserveSlotAhead? || code.ReserveTooOld?
    case AtaMissingClass => code.AtaMissing?
    case AccountMissingClass => code.AccountMissing?
    case AccountMismatch =>
      code.ReserveIdentityMismatch? || code.ObligationIdentityMismatch? || code.SourceAtaMismatch?
      || code.SourceTokenMismatch? || code.CollateralAtaMismatch? || code.CollateralTokenMismatch?
      || code.UnsupportedMintDecimals? || code.UnsupportedTokenProgram?
    case SourceBalanceInsufficientClass => code.SourceBalanceInsufficient?
    case ConditionNotMetClass => code.ConditionNotMet?
    case Ready => false
  }

  predicate Meets(findings: Findings, test: Classification) {
    exists i :: 0 <= i < |findings| && Asks(test, findings[i])
  }

  /** The cascade of tests, in the order the source asks them. */
  function PrimaryClassification(findings: Findings): Classification {
    if Meets(findings, OrphanFundingOnlyClass) then OrphanFundingOnlyClass
    else if Meets(findings, OrphanRuleOnlyClass) then OrphanRuleOnlyClass
    else if Meets(findings, EmptyCandidateClass) then EmptyCandidateClass
    else if Meets(findings, UnsupportedActionClass) then UnsupportedActionClass
    else if Meets(findings, UnsupportedRuleEnvelope) then UnsupportedRuleEnvelope
    else if Meets(findings, UnsupportedCondition) then UnsupportedCondition
    else if Meets(findings, HashMismatch) then HashMismatch
    else if Meets(findings, IdentityMismatch) then IdentityMismatch
    else if Meets(findings, AmountMismatchClass) then AmountMismatchClass
    else if Meets(findings, WallClockExpiredClass) then WallClockExpiredClass
    else if Meets(findings, SlotExpiredClass) then SlotExpiredClass
    else if Meets(findings, ClockUnavailable) then ClockUnavailable
    else if Meets(findings, ReserveStale) then ReserveStale
    else if Meets(findings, AtaMissingClass) then AtaMissingClass
    else if Meets(findings, AccountMissingClass) then AccountMissingClass
    else if Meets(findings, AccountMismatch) then AccountMismatch
    else if Meets(findings, SourceBalanceInsufficientClass) then SourceBalanceInsufficientClass
    else if Meets(findings, ConditionNotMetClass) then ConditionNotMetClass
    else Ready
  }

  // ---- What the cascade means ----------------------------------------------------------

  /** The class that one finding alone belongs to. */
  function ClassOf(code: FindingCode): Classification {
    match code
    case OrphanFundingOnly => OrphanFundingOnlyClass
    case OrphanRuleOnly => OrphanRuleOnlyClass
    case EmptyCandidate => EmptyCandidateClass
    case UnsupportedAction => UnsupportedActionClass
    case CanonicalHashMismatch => HashMismatch
    case AmountMismatch => AmountMismatchClass
    case AmountZero => AmountMismatchClass
    case WallClockExpired => WallClockExpiredClass
    case SlotExpired => SlotExpiredClass
    case ConfirmedSlotUnavailable => ClockUnavailable
    case AtaMissing => AtaMissingClass
    case AccountMissing => AccountMissingClass
    case SourceBalanceInsufficient => SourceBalanceInsufficientClass
    case ConditionNotMet => ConditionNotMetClass
    case UnsupportedSchemaVersion | MultiUseRule | UsedAmountNonZero | ThresholdOutOfRange => UnsupportedRuleEnvelope
    case ControlledWalletEnvelopeMismatch | UnsupportedSolendProgram | UnsupportedInputMint => UnsupportedRuleEnvelope
    case UnsupportedConditionShape | UnsupportedFormulaVersion => UnsupportedCondition
    case UnsupportedRateKind | RefreshNotRequired => UnsupportedCondition
    case RuleIdMismatch | ConditionActionMismatch => IdentityMismatch
    case ConditionFundingMismatch | ControlledWalletMismatch => IdentityMismatch
    case ReserveExplicitlyStale | ReserveSlotAhead | ReserveTooOld => ReserveStale
    case ReserveIdentityMismatch | ObligationIdentityMismatch | SourceAtaMismatch => AccountMismatch
    case SourceTokenMismatch | CollateralAtaMismatch | CollateralTokenMismatch => AccountMismatch
    case UnsupportedMintDecimals | UnsupportedTokenProgram => AccountMismatch
  }

  /** Smaller is more urgent; ready comes last. */
  function Rank(c: Classification): nat {
    match c
    case OrphanFundingOnlyClass => 0
    case OrphanRuleOnlyClass => 1
    case EmptyCandidateClass => 2
    case UnsupportedActionClass => 3
    case UnsupportedRuleEnvelope => 4
    case UnsupportedCondition => 5
    case HashMismatch => 6
    case IdentityMismatch => 7
    case AmountMismatchClass => 8
    case WallClockExpiredClass => 9
    case SlotExpiredClass => 10
    case ClockUnavailable => 11
    case ReserveStale => 12
    case AtaMissingClass => 13
    case AccountMissingClass => 14
    case AccountMismatch => 15
    case SourceBalanceInsufficientClass => 16
    case ConditionNotMetClass => 17
    case Ready => 18
  }

  /** The most urgent class among the findings, computed one finding at a time. */
  function MostUrgent(findings: Findings): (c: Classification)
    ensures c == Ready || exists i :: 0 <= i < |findings| && ClassOf(findings[i]) == c
    ensures forall i :: 0 <= i < |findings| ==> Rank(c) <= Rank(ClassOf(findings[i]))
  {
    if findings == [] then Ready
    else
      var rest := MostUrgent(findings[1..]);
      var first := ClassOf(findings[0]);
      assert forall i :: 1 <= i < |findings| ==> findings[i] == findings[1..][i - 1];
      if Rank(first) <= Rank(rest) then first else rest
  }

  /** The tests partition the findings into the classes. */
  lemma TestsAreClasses(code: FindingCode, c: Classification)
    ensures Asks(c, code) <==> ClassOf(code) == c
  {
  }

  lemma CascadeStopsInTime(findings: Findings, i: nat)
    requires i < |findings|
    ensures Rank(PrimaryClassification(findings)) <= Rank(ClassOf(findings[i]))
  {
    var c := ClassOf(findings[i]);
    TestsAreClasses(findings[i], c);
    assert Meets(findings, c);
  }

  lemma CascadeFindsItsClass(findings: Findings)
    ensures
      var c := PrimaryClassification(findings);
      c == Ready || exists i :: 0 <= i < |findings| && ClassOf(findings[i]) == c
  {
    var c := PrimaryClassification(findings);
    if c != Ready {
      assert Meets(findings, c);
      var i :| 0 <= i < |findings| && Asks(c, findings[i]);
      TestsAreClasses(findings[i], c);
    }
  }

  /** The cascade picks the most urgent class present. */
  lemma CascadeIsMostUrgent(findings: Findings)
    ensures PrimaryClassification(findings) == MostUrgent(findings)
  {
    var c, d := PrimaryClassification(findings), MostUrgent(findings);
    CascadeFindsItsClass(findings);
    if d != Ready {
      var i :| 0 <= i < |findings| && ClassOf(findings[i]) == d;
      CascadeStopsInTime(findings, i);
    }
    SameRankSameClass(c, d);
  }

  /** Ready means no finding at all. */
  lemma ReadyIffNoFindings(findings: Findings)
    ensures PrimaryClassification(findings) == Ready <==> findings == []
  {
    CascadeIsMostUrgent(findings);
    if findings != [] {
      assert Rank(MostUrgent(findings)) <= Rank(ClassOf(findings[0])) < 18;
    }
  }

  /** Neither the order nor the multiplicity of findings matters. */
  lemma ClassificationIgnoresOrder(a: Findings, b: Findings)
    requires forall code :: code in a <==> code in b
    ensures PrimaryClassification(a) == PrimaryClassification(b)
  {
    CascadeIsMostUrgent(a);
    CascadeIsMostUrgent(b);
    NoMoreUrgent(a, b);
    NoMoreUrgent(b, a);
    SameRankSameClass(MostUrgent(a), MostUrgent(b));
  }

  lemma NoMoreUrgent(a: Findings, b: Findings)
    requires forall code :: code in a ==> code in b
    ensures Rank(MostUrgent(b)) <= Rank(MostUrgent(a))
  {
    var c := MostUrgent(a);
    if c != Ready {
      var i :| 0 <= i < |a| && ClassOf(a[i]) == c;
      assert a[i] in b;
    }
  }

  lemma SameRankSameClass(c: Classification, d: Classification)
    requires Rank(c) == Rank(d)
    ensures c == d
  {
  }

  // ---- The rate test --------------------------------------------------------------------

  const BPS_WAD: nat := 100_000_000_000_000

  /** The threshold product fits the machine width, so nothing wraps. */
  function ThresholdWad(thresholdBps: u32): u128 {
    thresholdBps * BPS_WAD
  }

  function CompareWad(observedWad: u128, comparison: Comparison, thresholdBps: u32): bool {
    var thresholdWad := ThresholdWad(thresholdBps);
    match comparison
    case Lt => observedWad < thresholdWad
    case Lte => observedWad <= thresholdWad
    case Gt => observedWad > thresholdWad
    case Gte => observedWad >= thresholdWad
  }

  /** The rate, observedWad / 10^18, against the threshold, thresholdBps / 10^4, compared
      as exact fractions. */
  predicate RateHolds(observedWad: nat, comparison: Comparison, thresholdBps: nat) {
    var observed, threshold := observedWad * 10_000, thresholdBps * 1_000_000_000_000_000_000;
    match comparison
    case Lt => observed < threshold
    case Lte => observed <= threshold
    case Gt => observed > threshold
    case Gte => observed >= threshold
  }

  /** The integer test is the comparison of the two fractions: no rounding, no wrapping. */
  lemma CompareIsExact(observedWad: u128, comparison: Comparison, t: u32)
    ensures CompareWad(observedWad, comparison, t) <==> RateHolds(observedWad, comparison, t)
    ensures ThresholdWad(t) * 10_000 == t * 1_000_000_000_000_000_000
  {
  }

  /** How the full-precision test differs from comparing whole basis points: a
      strict test from above also passes on a fraction of a basis point, and a
      non-strict one from below does not. */
  lemma FractionsCount(observedWad: u128, t: u32)
    ensures
      var bps, rest := observedWad / 100_000_000_000_000, observedWad % 100_000_000_000_000;
      && (CompareWad(observedWad, Gt, t) <==> bps > t || (bps == t && rest > 0))
      && (CompareWad(observedWad, Gte, t) <==> bps >= t)
      && (CompareWad(observedWad, Lt, t) <==> bps < t)
      && (CompareWad(observedWad, Lte, t) <==> bps < t || (bps == t && rest == 0))
  {
    var bps := observedWad / BPS_WAD;
    DivDef(observedWad, BPS_WAD);
    if bps > t {
      MulMono(t + 1, bps, BPS_WAD);
    } else if bps < t {
      MulMono(bps + 1, t, BPS_WAD);
    }
  }
}
