// Finalizing a draft into a watch rule and a funding row, deliberately without a
// transaction: consume the draft, read the market, write the rule, index its
// hash, write the funding row, read it back. As elsewhere, the tool is a state
// machine of pure transitions and a method that follows it.
module Finalize {
  import opened Prelude
  import opened FixedPoint
  import opened Codecs
  import opened WatchRules
  import opened StateStore
  import opened FundingProof
  import opened Proposals
  import opened Sidecar

  const WATCH_RULE_EXPIRY_SLOTS: nat := 480
  const FUNDING_WINDOW_MS: nat := 180_000

  /** The reviewed protocol identities, as keys. */
  datatype FinalizePins = FinalizePins(
    controlled: PubkeyBytes,
    reserve: PubkeyBytes,
    lendingMarket: PubkeyBytes,
    solendProgram: PubkeyBytes,
    usdcMint: PubkeyBytes,
    obligation: PubkeyBytes)

  // ---- The rule a draft stands for --------------------------------------------------------

  function DeriveRuleId(thresholdBps: u32, amountRaw: u64, controlled: PubkeyBytes): RuleId {
    ToLittleEndian(thresholdBps, 4) + ToLittleEndian(amountRaw, 8) + controlled[..4]
  }

  /** The same, filled into a 16-byte buffer slice by slice. */
  method DeriveRuleIdInPlace(thresholdBps: u32, amountRaw: u64, controlled: PubkeyBytes) returns (id: RuleId)
    ensures id == DeriveRuleId(thresholdBps, amountRaw, controlled)
  {
    var buffer := new u8[16](_ => 0);
    CopySlice(buffer, 0, ToLittleEndian(thresholdBps, 4));
    CopySlice(buffer, 4, ToLittleEndian(amountRaw, 8));
    CopySlice(buffer, 12, controlled[..4]);
    assert buffer[..] == buffer[..4] + buffer[4..12] + buffer[12..16];
    id := buffer[..];
  }

  method CopySlice(buffer: array<u8>, from: nat, source: bytes)
    requires from + |source| <= buffer.Length
    modifies buffer
    ensures buffer[from..from + |source|] == source
    ensures buffer[..from] == old(buffer[..from])
    ensures buffer[from + |source|..] == old(buffer[from + |source|..])
  {
    for k := 0 to |source|
      invariant buffer[from..from + k] == source[..k]
      invariant buffer[..from] == old(buffer[..from])
      invariant buffer[from + |source|..] == old(buffer[from + |source|..])
    {
      buffer[from + k] := source[k];
      assert source[..k + 1] == source[..k] + [source[k]];
    }
    assert source[..|source|] == source;
  }

  /** The id determines the threshold and the amount. */
  lemma RuleIdInjective(t: u32, a: u64, t': u32, a': u64, controlled: PubkeyBytes)
    requires DeriveRuleId(t, a, controlled) == DeriveRuleId(t', a', controlled)
    ensures t == t' && a == a'
  {
    var id, id' := DeriveRuleId(t, a, controlled), DeriveRuleId(t', a', controlled);
    assert id[..4] == ToLittleEndian(t, 4) && id[4..12] == ToLittleEndian(a, 8);
    assert id'[..4] == ToLittleEndian(t', 4) && id'[4..12] == ToLittleEndian(a', 8);
    WordWidths();
    LittleEndianRoundTrip(t, 4);
    LittleEndianRoundTrip(t', 4);
    LittleEndianRoundTrip(a, 8);
    LittleEndianRoundTrip(a', 8);
  }

  function SaturatingSlot(slot: u64): u64 {
    if slot + WATCH_RULE_EXPIRY_SLOTS < TWO_64 then slot + WATCH_RULE_EXPIRY_SLOTS else TWO_64 - 1
  }

  /** Nothing but the threshold, the amount and the slot goes into a rule. */
  function RuleFor(pins: FinalizePins, thresholdBps: u32, amountRaw: u64, slot: u64): WatchRule {
    WatchRule(
      2, DeriveRuleId(thresholdBps, amountRaw, pins.controlled), pins.controlled, pins.controlled, pins.controlled,
      slot, SaturatingSlot(slot), true, AllOf,
      [SolendReserveSupplyRate(pins.reserve, pins.lendingMarket, pins.solendProgram, Gt, thresholdBps, Apr, 1, 16, true)],
      SolendDeposit(pins.obligation, pins.reserve, pins.lendingMarket, pins.solendProgram, pins.usdcMint, amountRaw),
      amountRaw, 0, pins.controlled, 0)
  }

  predicate IsCanonicalDraft(d: Draft) {
    d.expirySeconds == EXPIRY_SECONDS && d.controlledWallet == CONTROLLED_WALLET
    && d.controlledUsdcAta == CONTROLLED_USDC_ATA
  }

  function BuildWatchRule(pins: FinalizePins, d: Draft, slot: u64): Option<WatchRule> {
    if IsCanonicalDraft(d) then Some(RuleFor(pins, d.thresholdBps, d.amountRaw, slot)) else None
  }

  /** A rule that some draft could have been turned into. */
  predicate IsBuilt(pins: FinalizePins, r: WatchRule) {
    && |r.conditions| == 1 && r.conditions[0].SolendReserveSupplyRate?
    && r == RuleFor(pins, r.conditions[0].thresholdBps, r.maxInputAmountRaw, r.createdAtSlot)
  }

  /** A built rule found under a draft's id is that draft's rule at its own slot. */
  lemma RecoveredRuleIsDrafts(pins: FinalizePins, d: Draft, slot: u64, stored: WatchRule)
    requires IsCanonicalDraft(d) && IsBuilt(pins, stored)
    requires stored.ruleId == RuleFor(pins, d.thresholdBps, d.amountRaw, slot).ruleId
    ensures BuildWatchRule(pins, d, stored.createdAtSlot) == Some(stored)
  {
    RuleIdInjective(stored.conditions[0].thresholdBps, stored.maxInputAmountRaw, d.thresholdBps, d.amountRaw,
                    pins.controlled);
  }

  function CanonicalAmount(r: WatchRule): Option<u64> {
    if r.action.SolendDeposit? && r.action.inputAmountRaw == r.maxInputAmountRaw then Some(r.maxInputAmountRaw)
    else None
  }

  // ---- Requests and answers -----------------------------------------------------------------

  datatype Snapshot = Snapshot(lastCheckedSlot: u64, saveDisplayApyBps: u32, nativeOnchainAprBps: u32)

  datatype Request = Request(proposal: Proposal, draftId: string, draftHash: string, userWallet: string)

  /** A request past every check that precedes the claim. */
  datatype Admitted = Admitted(draft: Draft, draftId: string, draftHash: string, wallet: PubkeyBytes)

  datatype Outside = Outside(lib: Library, pins: FinalizePins, messageHash: string -> string,
                             draftHash: Draft -> string, marketConfigured: bool)

  datatype FinalizeAnswer =
    | InvalidDraft(error: ProposeError)
    | HashMismatchAnswer
    | InvalidDraftId
    | CanonicalActionUnsupported
    | ConfigMissingAnswer
    | InvalidUserWallet
    | AlreadyFinalized
    | DraftIdConflict
    | SidecarUnavailable
    | MarketDataError
    | ExistingRuleConflict
    | RuleUnconfirmed(status: Status)
    | ExistingIntentConflict
    | NotActionable(status: Status)
    | Actionable(terms: FundingTerms, nowMs: i64)
    | StoreFailed
  {
    predicate BeforeClaim() {
      InvalidDraft? || HashMismatchAnswer? || InvalidDraftId? || CanonicalActionUnsupported? || ConfigMissingAnswer?
      || InvalidUserWallet?
    }
  }

  datatype FinalizePc =
    | AtClaim(c: Admitted)
    | AtMarket(c: Admitted)
    | AtInsertRule(c: Admitted, built: WatchRule, snap: Snapshot)
    | AtReadRule(c: Admitted, built: WatchRule, snap: Snapshot)
    | AtIndex(c: Admitted, rule: WatchRule, snap: Snapshot)
    | AtInsertFunding(c: Admitted, rule: WatchRule, persisted: bool, snap: Snapshot)
    | AtReadFunding(c: Admitted, rule: WatchRule, persisted: bool, terms: FundingTerms, inserted: bool)
    | Finished(answer: FinalizeAnswer)
    | FinalizeCrashed

  // ---- Transitions -----------------------------------------------------------------------------

  function Admit(o: Outside, r: Request): FinalizePc {
    match ValidateDraft(o.lib, o.messageHash, r.proposal)
    case Err(e) => Finished(InvalidDraft(e))
    case Ok(draft) =>
      if o.draftHash(draft) != r.draftHash then Finished(HashMismatchAnswer)
      else if !IsV4Uuid(r.draftId) then Finished(InvalidDraftId)
      else if !IsCanonicalDraft(draft) then Finished(CanonicalActionUnsupported)
      else if !o.marketConfigured then Finished(ConfigMissingAnswer)
      else
        match o.lib.parseKey(Trim(r.userWallet))
        case None => Finished(InvalidUserWallet)
        case Some(wallet) => AtClaim(Admitted(draft, r.draftId, r.draftHash, wallet))
  }

  function AfterClaim(c: Admitted, outcome: ClaimOutcome): FinalizePc {
    match outcome
    case Claimed => AtMarket(c)
    case AlreadyConsumed => Finished(AlreadyFinalized)
    case ClaimConflict => Finished(DraftIdConflict)
    case ClaimUnavailable => Finished(SidecarUnavailable)
  }

  function AfterMarket(pins: FinalizePins, c: Admitted, snap: Option<Snapshot>): FinalizePc {
    match snap
    case None => Finished(MarketDataError)
    case Some(s) =>
      match BuildWatchRule(pins, c.draft, s.lastCheckedSlot)
      case None => Finished(CanonicalActionUnsupported)
      case Some(built) => AtInsertRule(c, built, s)
  }

  /** A persisted rule must be the draft's rule at its own slot. */
  function Confirmed(pins: FinalizePins, c: Admitted, rule: WatchRule, snap: Snapshot): FinalizePc {
    if BuildWatchRule(pins, c.draft, rule.createdAtSlot) != Some(rule) || CanonicalAmount(rule).None? then
      Finished(ExistingRuleConflict)
    else AtIndex(c, rule, snap)
  }

  function AfterInsertRule(pins: FinalizePins, c: Admitted, built: WatchRule, snap: Snapshot, ok: bool): FinalizePc {
    if ok then Confirmed(pins, c, built, snap) else AtReadRule(c, built, snap)
  }

  type RuleRead = Result<Option<RuleRow>, StoreError>
  type RowRead = Result<Option<FundingRow>, StoreError>

  /** Without a readable rule the call goes on, unconfirmed, with its own. */
  function AfterReadRule(pins: FinalizePins, c: Admitted, built: WatchRule, snap: Snapshot, read: RuleRead)
    : FinalizePc
  {
    match read
    case Ok(Some(row)) => Confirmed(pins, c, row.rule, snap)
    case Ok(None) => AtInsertFunding(c, built, false, snap)
    case Err(_) => AtInsertFunding(c, built, false, snap)
  }

  function RuleHashHex(lib: Library, rule: WatchRule): string {
    HexLower(lib.ruleHash(rule))
  }

  function SaturatingDeadline(nowMs: i64): i64 {
    if nowMs + FUNDING_WINDOW_MS < TWO_63 then nowMs + FUNDING_WINDOW_MS else TWO_63 - 1
  }

  /** What validation promises of every draft it lets through. */
  predicate InRange(d: Draft) {
    MIN_AMOUNT_RAW <= d.amountRaw <= MAX_AMOUNT_RAW && 1 <= d.thresholdBps <= MAX_THRESHOLD
  }

  /** An admitted call carries a canonical draft in range; every other answer is one
      of the early rejections. */
  lemma AdmittedIsCanonical(o: Outside, r: Request)
    ensures Admit(o, r).AtClaim? ==> IsCanonicalDraft(Admit(o, r).c.draft) && InRange(Admit(o, r).c.draft)
    ensures Admit(o, r).AtClaim? || (Admit(o, r).Finished? && Admit(o, r).answer.BeforeClaim())
    ensures Admit(o, r) != Finished(CanonicalActionUnsupported)
  {
  }

  /** The row the call would write at this moment. */
  function NewTerms(o: Outside, c: Admitted, rule: WatchRule, snap: Snapshot, nowMs: i64): FundingTerms {
    var id := HexLower(rule.ruleId);
    FundingTerms(
      id, id, RuleHashHex(o.lib, rule), o.lib.keyText(c.wallet),
      o.lib.keyText(o.lib.tokenAccount(c.wallet, o.pins.usdcMint)), CONTROLLED_WALLET, CONTROLLED_USDC_ATA,
      rule.maxInputAmountRaw, c.draft.thresholdBps, snap.saveDisplayApyBps, snap.nativeOnchainAprBps, nowMs,
      SaturatingDeadline(nowMs))
  }

  predicate RowMatchesIdentity(o: Outside, t: FundingTerms, rule: WatchRule) {
    var id, user := HexLower(rule.ruleId), o.lib.parseKey(t.userWallet);
    && t.intentId == id && t.ruleIdHex == id
    && Lower(t.canonicalRuleHashHex) == Lower(RuleHashHex(o.lib, rule))
    && t.controlledWallet == CONTROLLED_WALLET && t.controlledUsdcAta == CONTROLLED_USDC_ATA
    && CanonicalAmount(rule) == Some(t.amountRaw)
    && |rule.conditions| > 0 && rule.conditions[0].SolendReserveSupplyRate?
    && t.thresholdBps == rule.conditions[0].thresholdBps
    && user.Some? && o.lib.keyText(o.lib.tokenAccount(user.value, o.pins.usdcMint)) == t.userUsdcAta
  }

  /** The answer from the row as it was read back. */
  function Respond(o: Outside, c: Admitted, rule: WatchRule, persisted: bool, row: FundingRow, inserted: bool,
                   nowMs: i64): FinalizeAnswer {
    if !persisted then RuleUnconfirmed(row.status)
    else if !RowMatchesIdentity(o, row.terms, rule) then ExistingIntentConflict
    else if !inserted && row.terms.userWallet != o.lib.keyText(c.wallet) then ExistingIntentConflict
    else if row.status != FundingRequired || row.terms.expiresAtMs <= nowMs then NotActionable(row.status)
    else Actionable(row.terms, nowMs)
  }

  function AfterReadFunding(o: Outside, c: Admitted, rule: WatchRule, persisted: bool, inserted: bool, read: RowRead,
                            nowMs: i64): FinalizePc {
    match read
    case Err(_) => Finished(StoreFailed)
    case Ok(None) => Finished(StoreFailed)
    case Ok(Some(row)) => Finished(Respond(o, c, rule, persisted, row, inserted, nowMs))
  }

  // ---- Moves on the data ------------------------------------------------------------------------

  /** The stores, and what has happened: how often each draft passed the claim, and
      the rows that were written for a rule that was not confirmed, with that rule. */
  datatype Data = Data(side: Side, rows: Rows, rules: Rules, claims: map<string, nat>,
                       unconfirmed: map<string, WatchRule>)

  function CountOf(claims: map<string, nat>, id: string): nat {
    if id in claims then claims[id] else 0
  }

  /** Everything the outside may decide about one step. */
  datatype Input = Input(fault: Fault, open: OpenAnswer, nowMs: i64, snapshot: Option<Snapshot>)

  function ClaimMove(d: Data, c: Admitted, i: Input): (Data, FinalizePc) {
    var call := ClaimCall(c.draftId, c.draftHash, i.nowMs);
    var (side, outcome) := ClaimOn(d.side, call, i.open, i.fault);
    (if outcome == Claimed then
       d.(side := side, claims := d.claims[NormalizedId(c) := CountOf(d.claims, NormalizedId(c)) + 1])
     else d.(side := side),
     AfterClaim(c, outcome))
  }

  function NormalizedId(c: Admitted): string {
    var id := NormalizeDraftId(c.draftId); if id.Some? then id.value else ""
  }

  function InsertRuleMove(o: Outside, d: Data, c: Admitted, built: WatchRule, snap: Snapshot, i: Input)
    : (Data, FinalizePc)
  {
    (if i.fault.LostBefore? then d else d.(rules := RuleInserted(d.rules, o.lib, built)),
     AfterInsertRule(o.pins, c, built, snap, i.fault.NoFault? && HexLower(built.ruleId) !in d.rules))
  }

  function IndexMove(o: Outside, d: Data, c: Admitted, rule: WatchRule, snap: Snapshot, i: Input): (Data, FinalizePc) {
    var call := IndexCall(RuleHashHex(o.lib, rule), HexLower(rule.ruleId), c.draftId, c.draftHash, i.nowMs);
    (d.(side := IndexOn(d.side, call, i.fault).0), AtInsertFunding(c, rule, true, snap))
  }

  function InsertFundingMove(o: Outside, d: Data, c: Admitted, rule: WatchRule, persisted: bool, snap: Snapshot,
                             i: Input): (Data, FinalizePc) {
    var terms := NewTerms(o, c, rule, snap, i.nowMs);
    var hit := !i.fault.LostBefore? && terms.intentId !in d.rows;
    (d.(rows := if hit then Inserted(d.rows, terms) else d.rows,
        unconfirmed := if hit && !persisted then d.unconfirmed[terms.intentId := rule] else d.unconfirmed),
     AtReadFunding(c, rule, persisted, terms, hit && i.fault.NoFault?))
  }

  function Move(o: Outside, d: Data, pc: FinalizePc, i: Input): (Data, FinalizePc) {
    match pc
    case AtClaim(c) => ClaimMove(d, c, i)
    case AtMarket(c) => (d, AfterMarket(o.pins, c, i.snapshot))
    case AtInsertRule(c, built, snap) => InsertRuleMove(o, d, c, built, snap, i)
    case AtReadRule(c, built, snap) =>
      (d, AfterReadRule(o.pins, c, built, snap, RuleLookup(o.lib, d.rules, HexLower(built.ruleId), i.fault)))
    case AtIndex(c, rule, snap) => IndexMove(o, d, c, rule, snap, i)
    case AtInsertFunding(c, rule, persisted, snap) => InsertFundingMove(o, d, c, rule, persisted, snap, i)
    case AtReadFunding(c, rule, persisted, terms, inserted) =>
      (d, AfterReadFunding(o, c, rule, persisted, inserted, Lookup(d.rows, terms.intentId, i.fault), i.nowMs))
    case Finished(_) => (d, pc)
    case FinalizeCrashed => (d, pc)
  }

  // ---- Draft ids the tool accepts and the sidecar refuses --------------------------------------------

  /** A draft id past the tool's own check is refused by the sidecar exactly when it is
      braced, a URN, or not all lowercase. */
  lemma SidecarReadsLowercaseOnly(draftId: string)
    requires IsV4Uuid(draftId)
    ensures NormalizeDraftId(draftId).Some? <==> (|draftId| == 32 || |draftId| == 36) && Lower(draftId) == draftId
  {
    if |draftId| == 32 {
      LowerHexIff(draftId);
    } else if |draftId| == 36 {
      LowerHexIff(Compact(draftId));
      LowerCompact(draftId);
    }
  }

  /** And so such a call can get past its claim exactly when its id is spelled that way;
      otherwise it is told that the sidecar is unavailable, and nothing is claimed. */
  lemma ClaimableIff(c: Admitted)
    requires IsV4Uuid(c.draftId) && IsLowerHexOf(c.draftHash, 64)
    ensures
      (exists d, i :: ClaimMove(d, c, i).1 == AtMarket(c)) <==>
        (|c.draftId| == 32 || |c.draftId| == 36) && Lower(c.draftId) == c.draftId
    ensures
      !((|c.draftId| == 32 || |c.draftId| == 36) && Lower(c.draftId) == c.draftId) ==>
        forall d, i :: ClaimMove(d, c, i) == (d, Finished(SidecarUnavailable))
  {
    SidecarReadsLowercaseOnly(c.draftId);
    if NormalizeDraftId(c.draftId).Some? {
      var d := Data(Side(Ready, true, EMPTY_TABLES), map[], map[], map[], map[]);
      assert ClaimMove(d, c, Input(NoFault, OpenWorks, 0, None)).1 == AtMarket(c);
    } else {
      forall d, i ensures ClaimMove(d, c, i) == (d, Finished(SidecarUnavailable)) {
      }
    }
  }

  /** Such ids exist: any accepted id put in braces. */
  lemma BracedIsRefused(digits: string)
    requires |digits| == 32 && All(digits, IsHex) && digits[12] == '4'
    ensures IsV4Uuid("{" + Hyphenate(digits) + "}") && NormalizeDraftId("{" + Hyphenate(digits) + "}").None?
  {
    var text := "{" + Hyphenate(digits) + "}";
    assert text[1..37] == Hyphenate(digits);
    HyphenateAt(digits);
    CompactHyphenated(digits);
  }
}
