// When the finalize tool gives which answer: an undisturbed call for a new draft issues
// funding instructions, a reused row is actionable under an exact condition, and every
// rejection names what it is for.
module FinalizeAnswers {
  import opened Prelude
  import opened Codecs
  import opened WatchRules
  import opened StateStore
  import opened Proposals
  import opened Sidecar
  import opened Finalize
  import opened FinalizeProgram

  // ---- Admission ------------------------------------------------------------------------

  /** Everything that keeps a request from its claim, by the answer that names it; the later
      ones speak of the draft that the proposal validates to. */
  predicate Objects(o: Outside, r: Request, answer: FinalizeAnswer) {
    var validated := ValidateDraft(o.lib, o.messageHash, r.proposal);
    match answer
    case InvalidDraft(e) => validated == Err(e)
    case HashMismatchAnswer => validated.Ok? && r.draftHash != o.draftHash(validated.value)
    case InvalidDraftId => !IsV4Uuid(r.draftId)
    case ConfigMissingAnswer => !o.marketConfigured
    case InvalidUserWallet => o.lib.parseKey(Trim(r.userWallet)).None?
    case _ => false
  }

  function Precedence(answer: FinalizeAnswer): nat {
    match answer
    case InvalidDraft(_) => 0
    case HashMismatchAnswer => 1
    case InvalidDraftId => 2
    case ConfigMissingAnswer => 3
    case _ => 4
  }

  /** A request is admitted, with its own draft, id, hash and wallet, exactly when nothing
      objects to it; otherwise it is told the first objection. */
  lemma AdmittedIffNoObjection(o: Outside, r: Request)
    ensures
      match Admit(o, r)
      case AtClaim(c) =>
        && (forall answer :: !Objects(o, r, answer))
        && Ok(c.draft) == ValidateDraft(o.lib, o.messageHash, r.proposal)
        && c.draftId == r.draftId && c.draftHash == r.draftHash && Some(c.wallet) == o.lib.parseKey(Trim(r.userWallet))
      case Finished(answer) =>
        Objects(o, r, answer) && forall other :: Objects(o, r, other) ==> Precedence(answer) <= Precedence(other)
      case _ => false
  {
    AdmittedIsCanonical(o, r);
  }

  // ---- The claim and the market ----------------------------------------------------------------

  /** Whose draft id it is, if anybody's. */
  function Owner(d: Data, c: Admitted): Option<string> {
    if NormalizeDraftId(c.draftId).Some? && NormalizeDraftId(c.draftId).value in d.side.tables.drafts then
      Some(d.side.tables.drafts[NormalizeDraftId(c.draftId).value])
    else None
  }

  /** The sidecar can answer the claim, and does. */
  predicate Served(d: Data, c: Admitted, i: Input) {
    && NormalizeDraftId(c.draftId).Some? && IsLowerHexOf(c.draftHash, 64) && i.nowMs >= 0
    && Opens(d.side, i.open) && i.fault.NoFault?
  }

  /** The answers of the claim: finalized already if this draft was claimed before, in
      conflict if another one has its id, unavailable if the sidecar could not say; and the
      call goes on exactly for an id that was free. */
  lemma ClaimAnswers(d: Data, c: Admitted, i: Input)
    ensures
      var pc := ClaimMove(d, c, i).1;
      if !Served(d, c, i) then pc == Finished(SidecarUnavailable)
      else
        match Owner(d, c)
        case None => pc == AtMarket(c)
        case Some(hash) => pc == Finished(if hash == c.draftHash then AlreadyFinalized else DraftIdConflict)
  {
    ClaimOutcomes(d.side, ClaimCall(c.draftId, c.draftHash, i.nowMs), i.open, i.fault);
  }

  /** Without a market snapshot the call ends; with one, a canonical draft always goes on,
      with its rule at the snapshot's slot. */
  lemma MarketAnswers(o: Outside, d: Data, c: Admitted, i: Input)
    requires IsCanonicalDraft(c.draft)
    ensures
      Move(o, d, AtMarket(c), i) ==
      (d, match i.snapshot
          case None => Finished(MarketDataError)
          case Some(snap) =>
            AtInsertRule(c, RuleFor(o.pins, c.draft.thresholdBps, c.draft.amountRaw, snap.lastCheckedSlot), snap))
  {
  }

  // ---- The rule and the row --------------------------------------------------------------------

  /** What a rule for these figures says, in the words of the design: schema 2, for the
      controlled wallet on every side, once, from this slot for 480 slots, to deposit the
      amount as soon as the reserve's rate is above the threshold. */
  predicate RuleSays(pins: FinalizePins, thresholdBps: u32, amountRaw: u64, slot: u64, r: WatchRule) {
    && r.schemaVersion == 2 && r.oneShot && r.usedAmountRaw == 0 && r.slippageBps == 0
    && r.user == r.executor == r.delegatedWallet == r.destination == pins.controlled
    && r.createdAtSlot == slot && r.expiresAtSlot == (if slot + 480 < TWO_64 then slot + 480 else TWO_64 - 1)
    && r.conditionLogic == AllOf && |r.conditions| == 1 && r.conditions[0].SolendReserveSupplyRate?
    && r.conditions[0].comparison == Gt && r.conditions[0].thresholdBps == thresholdBps
    && r.conditions[0].rateKind == Apr && r.conditions[0].requiredRefreshSameTx
    && r.conditions[0].maxReserveStalenessSlots == 16 && r.conditions[0].formulaVersion == 1
    && r.action.SolendDeposit? && r.action.inputAmountRaw == r.maxInputAmountRaw == amountRaw
    && r.action.inputMint == pins.usdcMint && r.action.targetObligation == pins.obligation
    && r.action.reservePubkey == r.conditions[0].reservePubkey == pins.reserve
    && r.action.lendingMarket == r.conditions[0].lendingMarket == pins.lendingMarket
    && r.action.solendProgramId == r.conditions[0].solendProgramId == pins.solendProgram
  }

  lemma RuleForSays(pins: FinalizePins, thresholdBps: u32, amountRaw: u64, slot: u64)
    ensures RuleSays(pins, thresholdBps, amountRaw, slot, RuleFor(pins, thresholdBps, amountRaw, slot))
  {
  }

  /** A stored rule is taken for the draft's own exactly when it says what the draft's rule
      says, at whatever slot, under the id derived from the draft; any other is a conflict. */
  lemma OwnRuleIff(o: Outside, c: Admitted, rule: WatchRule, snap: Snapshot)
    requires IsCanonicalDraft(c.draft)
    ensures
      Confirmed(o.pins, c, rule, snap) ==
      if RuleSays(o.pins, c.draft.thresholdBps, c.draft.amountRaw, rule.createdAtSlot, rule)
         && rule.ruleId == DeriveRuleId(c.draft.thresholdBps, c.draft.amountRaw, o.pins.controlled)
      then AtIndex(c, rule, snap) else Finished(ExistingRuleConflict)
  {
    var t, a := c.draft.thresholdBps, c.draft.amountRaw;
    RuleForSays(o.pins, t, a, rule.createdAtSlot);
    if RuleSays(o.pins, t, a, rule.createdAtSlot, rule) && rule.ruleId == DeriveRuleId(t, a, o.pins.controlled) {
      SaysOneRule(o.pins, t, a, rule.createdAtSlot, rule, RuleFor(o.pins, t, a, rule.createdAtSlot));
    }
  }

  lemma SaysOneRule(pins: FinalizePins, thresholdBps: u32, amountRaw: u64, slot: u64, r: WatchRule, r': WatchRule)
    requires RuleSays(pins, thresholdBps, amountRaw, slot, r) && RuleSays(pins, thresholdBps, amountRaw, slot, r')
    requires r.ruleId == r'.ruleId
    ensures r == r'
  {
    assert r.conditions == [r.conditions[0]] && r'.conditions == [r'.conditions[0]];
  }

  /** When the rule cannot be written, the stored one is judged if it can be read; and if it
      cannot, the call goes on with its own, unconfirmed. */
  lemma RuleReadAnswers(o: Outside, d: Data, c: Admitted, built: WatchRule, snap: Snapshot, i: Input)
    ensures
      var id, (d', pc) := HexLower(built.ruleId), Move(o, d, AtReadRule(c, built, snap), i);
      && d' == d
      && pc == (if i.fault.NoFault? && id in d.rules && Intact(o.lib, d.rules[id])
                then Confirmed(o.pins, c, d.rules[id].rule, snap) else AtInsertFunding(c, built, false, snap))
  {
  }

  /** What the quoted terms say: the draft's figures, the requester's accounts beside the
      controlled ones, the market's rates as displayed and as computed, and three minutes
      from the moment of writing. */
  predicate TermsSay(o: Outside, c: Admitted, rule: WatchRule, snap: Snapshot, nowMs: i64, t: FundingTerms) {
    && t.intentId == t.ruleIdHex == HexLower(rule.ruleId)
    && t.canonicalRuleHashHex == HexLower(o.lib.ruleHash(rule))
    && t.userWallet == o.lib.keyText(c.wallet)
    && t.userUsdcAta == o.lib.keyText(o.lib.tokenAccount(c.wallet, o.pins.usdcMint))
    && t.controlledWallet == CONTROLLED_WALLET && t.controlledUsdcAta == CONTROLLED_USDC_ATA
    && t.amountRaw == c.draft.amountRaw && t.thresholdBps == c.draft.thresholdBps
    && t.saveDisplayApyBps == snap.saveDisplayApyBps && t.nativeOnchainAprBps == snap.nativeOnchainAprBps
    && t.createdAtMs == nowMs && t.expiresAtMs == (if nowMs + 180_000 < TWO_63 then nowMs + 180_000 else TWO_63 - 1)
  }

  lemma NewTermsSay(o: Outside, c: Admitted, rule: WatchRule, snap: Snapshot, nowMs: i64)
    requires rule.maxInputAmountRaw == c.draft.amountRaw
    ensures TermsSay(o, c, rule, snap, nowMs, NewTerms(o, c, rule, snap, nowMs))
  {
  }

  /** When a stored row belongs to a built rule: by id, hash in any letter case, controlled
      accounts, amount and threshold, and the user's own derived token account. */
  lemma IdentityIff(o: Outside, t: FundingTerms, rule: WatchRule)
    requires IsBuilt(o.pins, rule)
    ensures
      RowMatchesIdentity(o, t, rule) <==>
        && (t.intentId, t.ruleIdHex) == (HexLower(rule.ruleId), HexLower(rule.ruleId))
        && Lower(t.canonicalRuleHashHex) == Lower(HexLower(o.lib.ruleHash(rule)))
        && (t.controlledWallet, t.controlledUsdcAta) == (CONTROLLED_WALLET, CONTROLLED_USDC_ATA)
        && (t.amountRaw, t.thresholdBps) == (rule.maxInputAmountRaw, rule.conditions[0].thresholdBps)
        && exists key :: o.lib.parseKey(t.userWallet) == Some(key)
                         && t.userUsdcAta == o.lib.keyText(o.lib.tokenAccount(key, o.pins.usdcMint))
  {
  }

  /** The answer for the row that was read back: actionable exactly when the rule was
      confirmed, the row belongs to it and, if it is reused, to the requester, and it still
      waits for its funding before its deadline. */
  lemma AnswersForRow(o: Outside, c: Admitted, rule: WatchRule, persisted: bool, inserted: bool, row: FundingRow,
                      nowMs: i64)
    ensures
      var pc := AfterReadFunding(o, c, rule, persisted, inserted, Ok(Some(row)), nowMs);
      var belongs := RowMatchesIdentity(o, row.terms, rule)
                     && (inserted || row.terms.userWallet == o.lib.keyText(c.wallet));
      var waits := row.status == FundingRequired && nowMs < row.terms.expiresAtMs;
      && (pc == Finished(RuleUnconfirmed(row.status)) <==> !persisted)
      && (pc == Finished(ExistingIntentConflict) <==> persisted && !belongs)
      && (pc == Finished(NotActionable(row.status)) <==> persisted && belongs && !waits)
      && (pc == Finished(Actionable(row.terms, nowMs)) <==> persisted && belongs && waits)
  {
  }

  /** A row that cannot be read back is a store failure. */
  lemma UnreadableRowFails(o: Outside, c: Admitted, rule: WatchRule, persisted: bool, inserted: bool, read: RowRead,
                           nowMs: i64)
    requires !(read.Ok? && read.value.Some?)
    ensures AfterReadFunding(o, c, rule, persisted, inserted, read, nowMs) == Finished(StoreFailed)
  {
  }

  // ---- An undisturbed call for a new draft ------------------------------------------------------

  /** Every call is answered, the market has a snapshot, and the row is read back in time. */
  predicate GoesWell(s: Inputs) {
    && s.claim.fault.NoFault? && s.claim.open == OpenWorks && s.claim.nowMs >= 0 && s.market.snapshot.Some?
    && s.insertRule.fault.NoFault? && s.insertFunding.fault.NoFault? && s.readFunding.fault.NoFault?
    && s.readFunding.nowMs < SaturatingDeadline(s.insertFunding.nowMs)
  }

  /** A draft id nobody has claimed yet, spelled as the sidecar reads it. */
  predicate IsNewDraft(d: Data, c: Admitted) {
    && NormalizeDraftId(c.draftId).Some? && IsLowerHexOf(c.draftHash, 64) && Owner(d, c).None?
    && d.side.state != Unavailable
  }

  function BuiltFor(o: Outside, c: Admitted, s: Inputs): WatchRule
    requires s.market.snapshot.Some?
  {
    RuleFor(o.pins, c.draft.thresholdBps, c.draft.amountRaw, s.market.snapshot.value.lastCheckedSlot)
  }

  function TermsFor(o: Outside, c: Admitted, s: Inputs): FundingTerms
    requires s.market.snapshot.Some?
  {
    NewTerms(o, c, BuiltFor(o, c, s), s.market.snapshot.value, s.insertFunding.nowMs)
  }

  /** Where the first two steps lead. */
  lemma NewDraftReachesItsRule(o: Outside, d: Data, c: Admitted, s: Inputs)
    requires GoesWell(s) && IsNewDraft(d, c) && IsCanonicalDraft(c.draft)
    ensures
      var d1 := ClaimMove(d, c, s.claim).0;
      && Solo(o, d, AtClaim(c), s, 7)
         == Solo(o, d1, AtInsertRule(c, BuiltFor(o, c, s), s.market.snapshot.value), s, 5)
      && d1.rows == d.rows && d1.rules == d.rules
  {
    ClaimAnswers(d, c, s.claim);
    var d1 := ClaimMove(d, c, s.claim).0;
    assert Move(o, d, AtClaim(c), s.claim) == (d1, AtMarket(c));
    MarketAnswers(o, d1, c, s.market);
    assert Solo(o, d, AtClaim(c), s, 7) == Solo(o, d1, AtMarket(c), s, 6);
    assert Solo(o, d1, AtMarket(c), s, 6)
        == Solo(o, d1, AtInsertRule(c, BuiltFor(o, c, s), s.market.snapshot.value), s, 5);
  }

  /** The rule is new: it is written and indexed. */
  lemma NewRuleIsWritten(o: Outside, d: Data, c: Admitted, s: Inputs)
    requires GoesWell(s) && IsCanonicalDraft(c.draft) && HexLower(BuiltFor(o, c, s).ruleId) !in d.rules
    ensures
      var rule, snap := BuiltFor(o, c, s), s.market.snapshot.value;
      var d1 := d.(rules := d.rules[HexLower(rule.ruleId) := FreshRuleRow(o.lib, rule)]);
      var d2 := IndexMove(o, d1, c, rule, snap, s.index).0;
      && Solo(o, d, AtInsertRule(c, rule, snap), s, 5) == Solo(o, d2, AtInsertFunding(c, rule, true, snap), s, 3)
      && d2.rows == d.rows && d2.rules == d1.rules
  {
    var rule, snap := BuiltFor(o, c, s), s.market.snapshot.value;
    var d1 := d.(rules := d.rules[HexLower(rule.ruleId) := FreshRuleRow(o.lib, rule)]);
    assert Move(o, d, AtInsertRule(c, rule, snap), s.insertRule) == (d1, AtIndex(c, rule, snap));
    assert Solo(o, d, AtInsertRule(c, rule, snap), s, 5) == Solo(o, d1, AtIndex(c, rule, snap), s, 4);
  }

  /** The row is new: it is written, read back, and quoted. */
  lemma NewRowIsQuoted(o: Outside, d: Data, c: Admitted, s: Inputs)
    requires GoesWell(s) && IsCanonicalDraft(c.draft) && o.lib.parseKey(o.lib.keyText(c.wallet)) == Some(c.wallet)
    requires HexLower(BuiltFor(o, c, s).ruleId) !in d.rows
    ensures
      var rule, snap, terms := BuiltFor(o, c, s), s.market.snapshot.value, TermsFor(o, c, s);
      var (d', pc) := Solo(o, d, AtInsertFunding(c, rule, true, snap), s, 3);
      && pc == Finished(Actionable(terms, s.readFunding.nowMs))
      && d'.rows == d.rows[terms.intentId := FreshFundingRow(terms)] && d'.rules == d.rules
  {
    var rule, snap, terms := BuiltFor(o, c, s), s.market.snapshot.value, TermsFor(o, c, s);
    var d1 := InsertFundingMove(o, d, c, rule, true, snap, s.insertFunding).0;
    assert Move(o, d, AtInsertFunding(c, rule, true, snap), s.insertFunding)
        == (d1, AtReadFunding(c, rule, true, terms, true));
    NewTermsSay(o, c, rule, snap, s.insertFunding.nowMs);
    IdentityIff(o, terms, rule);
    AnswersForRow(o, c, rule, true, true, FreshFundingRow(terms), s.readFunding.nowMs);
    var last := Finished(Actionable(terms, s.readFunding.nowMs));
    assert Move(o, d1, AtReadFunding(c, rule, true, terms, true), s.readFunding) == (d1, last);
    assert Solo(o, d, AtInsertFunding(c, rule, true, snap), s, 3) == Solo(o, d1, last, s, 1);
    FinishedStays(o, d1, Actionable(terms, s.readFunding.nowMs), s, 1);
  }

  /** The ordinary first call: a request nothing objects to, for a draft that is new and a
      rule and row that are not there yet, undisturbed, is answered with funding
      instructions for the row it wrote, whenever it is read back before the deadline. */
  lemma NewDraftIsActionable(o: Outside, d: Data, r: Request, s: Inputs)
    requires Admit(o, r).AtClaim? && GoesWell(s) && IsNewDraft(d, Admit(o, r).c)
    requires o.lib.parseKey(o.lib.keyText(Admit(o, r).c.wallet)) == Some(Admit(o, r).c.wallet)
    requires
      var id := HexLower(BuiltFor(o, Admit(o, r).c, s).ruleId);
      id !in d.rules && id !in d.rows
    ensures
      var c := Admit(o, r).c;
      var rule, terms := BuiltFor(o, c, s), TermsFor(o, c, s);
      var (d', pc) := Solo(o, d, Admit(o, r), s, FINALIZE_STEPS);
      && pc == Finished(Actionable(terms, s.readFunding.nowMs))
      && TermsSay(o, c, rule, s.market.snapshot.value, s.insertFunding.nowMs, terms)
      && RuleSays(o.pins, c.draft.thresholdBps, c.draft.amountRaw, s.market.snapshot.value.lastCheckedSlot, rule)
      && d'.rows == d.rows[terms.intentId := FreshFundingRow(terms)]
      && d'.rules == d.rules[terms.intentId := FreshRuleRow(o.lib, rule)]
  {
    var c := Admit(o, r).c;
    var rule, snap := BuiltFor(o, c, s), s.market.snapshot.value;
    AdmittedIsCanonical(o, r);
    NewDraftReachesItsRule(o, d, c, s);
    var d1 := ClaimMove(d, c, s.claim).0;
    NewRuleIsWritten(o, d1, c, s);
    var d2 := d1.(rules := d1.rules[HexLower(rule.ruleId) := FreshRuleRow(o.lib, rule)]);
    var d3 := IndexMove(o, d2, c, rule, snap, s.index).0;
    NewRowIsQuoted(o, d3, c, s);
    NewTermsSay(o, c, rule, snap, s.insertFunding.nowMs);
    RuleForSays(o.pins, c.draft.thresholdBps, c.draft.amountRaw, snap.lastCheckedSlot);
  }

  /** A confirmed rule is indexed by its hash under the draft that was claimed for it, if
      neither the hash nor the intent was indexed before. */
  lemma ConfirmedRuleIsIndexed(o: Outside, d: Data, c: Admitted, rule: WatchRule, snap: Snapshot, i: Input)
    requires d.side.state == Ready && NormalizeDraftId(c.draftId).Some? && Owner(d, c) == Some(c.draftHash)
    requires IsLowerHexOf(c.draftHash, 64) && i.fault.NoFault? && i.nowMs >= 0 && |o.lib.ruleHash(rule)| == 32
    requires HexLower(o.lib.ruleHash(rule)) !in d.side.tables.index
    requires !IntentTaken(d.side.tables, HexLower(rule.ruleId))
    ensures
      var (d', pc) := Move(o, d, AtIndex(c, rule, snap), i);
      && pc == AtInsertFunding(c, rule, true, snap)
      && d'.side.tables.index
         == d.side.tables.index[HexLower(o.lib.ruleHash(rule)) :=
              IndexEntry(HexLower(rule.ruleId), NormalizeDraftId(c.draftId).value, c.draftHash)]
      && d'.rows == d.rows && d'.rules == d.rules
  {
    IndexOutcomes(d.side, IndexCall(RuleHashHex(o.lib, rule), HexLower(rule.ruleId), c.draftId, c.draftHash, i.nowMs),
                  i.fault);
  }
}
