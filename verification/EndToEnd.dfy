// What one tool stores, the next one accepts: the rows and rules that finalize
// writes, followed through confirmation, validation and execution, in every run of
// all the tools together.
module EndToEnd {
  import opened Prelude
  import opened Codecs
  import opened WatchRules
  import opened StateStore
  import opened FundingProof
  import opened ConfirmFunding
  import opened Proposals
  import opened Finalize
  import opened JointRuns
  import F = FinalizeSafety
  import FundedRules
  import LifecycleInvariant
  import LifecycleSafety
  import CandidateReports
  import Candidates
  import ExecutionPolicy

  // ---- The reviewed identities, in the forms the tools hold them -------------------------

  /** The two pinned texts denote keys, and the wallet's text is that of the key the
      rules are written for. */
  predicate PinsAgree(o: Outside) {
    && o.lib.parseKey(CONTROLLED_WALLET) == Some(o.pins.controlled)
    && o.lib.keyText(o.pins.controlled) == CONTROLLED_WALLET
    && o.lib.parseKey(CONTROLLED_USDC_ATA).Some?
  }

  /** The validator pins the program and the mint that finalize wrote. */
  predicate SamePins(o: Outside, pins: Candidates.Pins) {
    pins.solendProgram == o.pins.solendProgram && pins.usdcMint == o.pins.usdcMint
  }

  /** A funding row as the validator sees it, unless one of its keys is malformed. */
  function FundingSnapshotOf(lib: Library, t: FundingTerms): Option<Candidates.FundingSnapshot> {
    match (lib.parseKey(t.controlledWallet), lib.parseKey(t.controlledUsdcAta))
    case (Some(wallet), Some(ata)) =>
      Some(Candidates.FundingSnapshot(t.intentId, t.ruleIdHex, t.canonicalRuleHashHex, wallet, ata, t.amountRaw,
                                      t.thresholdBps, t.expiresAtMs))
    case (_, _) => None
  }

  /** The snapshot is the row field by field, with its two controlled keys parsed. */
  lemma SnapshotIff(lib: Library, t: FundingTerms, f: Candidates.FundingSnapshot)
    ensures
      FundingSnapshotOf(lib, t) == Some(f) <==>
        && (f.intentId, f.ruleIdHex, f.canonicalRuleHashHex) == (t.intentId, t.ruleIdHex, t.canonicalRuleHashHex)
        && lib.parseKey(t.controlledWallet) == Some(f.controlledWallet)
        && lib.parseKey(t.controlledUsdcAta) == Some(f.controlledUsdcAta)
        && (f.amountRaw, f.thresholdBps, f.expiresAtMs) == (t.amountRaw, t.thresholdBps, t.expiresAtMs)
  {
  }

  /** Finalize's data after a joint run. */
  function Left(o: Outside, actions: seq<Action>): Data {
    Run(o, actions).f.d
  }

  /** A row of a confirmed rule: not written by a call that could not confirm it. */
  predicate HasConfirmedRow(o: Outside, actions: seq<Action>, id: string) {
    id in Left(o, actions).rows && id !in Left(o, actions).unconfirmed
  }

  /** Such a row, and the rule stored beside it. */
  ghost predicate Finalized(o: Outside, d: Data, id: string) {
    && id in d.rows && id in d.rules
    && d.rows[id].terms.intentId == d.rows[id].terms.ruleIdHex == id
    && F.RuleOk(o, id, d.rules[id]) && F.TermsFit(o, d.rows[id].terms, d.rules[id].rule)
  }

  lemma RunsFinalize(o: Outside, actions: seq<Action>, id: string)
    requires HasConfirmedRow(o, actions, id)
    ensures Finalized(o, Left(o, actions), id)
  {
    JointRunsProject(o, actions);
    F.InvariantHolds(o, FinalizeRun(o, actions));
    assert F.RuleOk(o, id, Left(o, actions).rules[id]);
  }

  // ---- Confirmation accepts what finalize stored -------------------------------------------

  lemma FinalizedMatches(o: Outside, d: Data, id: string)
    requires PinsAgree(o) && Finalized(o, d, id)
    ensures Intact(o.lib, d.rules[id]) && RuleMatchesIntent(o.lib, d.rules[id], d.rows[id].terms)
  {
  }

  /** A finalized row that still waits can be funded: an undisturbed confirmation with
      a transaction that pays for it reserves the row. */
  lemma FinalizedCanBeFunded(o: Outside, actions: seq<Action>, id: string, signature: string, c: ConfirmOutside,
                             tx: Observation)
    requires PinsAgree(o) && o.lib.isSignature(signature)
    requires c.faults == ConfirmFaults(NoFault, NoFault, NoFault, NoFault, NoFault)
    requires HasConfirmedRow(o, actions, id) && Left(o, actions).rows[id].status == FundingRequired
    requires c.reader == Some(ReadConfirmed(tx)) && Paid(o.lib, tx, Left(o, actions).rows[id].terms)
    ensures
      var d, p := Left(o, actions), Params(id, signature);
      var (rows, pc) := SoloConfirm(o.lib, p, c, d.rows, d.rules, Start(o.lib, p), CONFIRM_STEPS);
      && pc.Answered? && pc.answer.Reserved? && pc.answer.signature == signature
      && id in rows && rows[id].status == BudgetReserved && rows[id].terms == d.rows[id].terms
  {
    var d := Left(o, actions);
    RunsFinalize(o, actions, id);
    FinalizedMatches(o, d, id);
    UnfundedHasNoSignature(o, actions, id);
    DecodeRuleIdIff(id, d.rules[id].rule.ruleId);
    RetryReachesReserved(o.lib, Params(id, signature), c, d.rows, d.rules, tx);
  }

  lemma UnfundedHasNoSignature(o: Outside, actions: seq<Action>, id: string)
    requires id in Left(o, actions).rows && Left(o, actions).rows[id].status == FundingRequired
    ensures Left(o, actions).rows[id].fundingSignature.None?
  {
    JointRunsProject(o, actions);
    LifecycleInvariant.InvariantHolds(o.lib, LifecycleRun(o, actions));
    assert LifecycleInvariant.RowOk(Run(o, actions).l.d, id);
  }

  /** The memo that the tool quotes with its funding instructions. */
  function QuotedMemo(lib: Library, rule: WatchRule): string {
    "claw:w5h:" + HexLower(rule.ruleId) + ":" + HexLower(lib.ruleHash(rule))
  }

  /** The transaction does what the instructions say: the quoted memo and, signed by the
      user, the quoted transfer, which moves the quoted amount between the two accounts. */
  predicate Follows(lib: Library, rule: WatchRule, t: FundingTerms, tx: Observation) {
    && tx.succeeded && QuotedMemo(lib, rule) in tx.memos && t.userWallet in tx.signers
    && TransferChecked(t.userUsdcAta, t.controlledUsdcAta, USDC_MINT, t.userWallet, t.amountRaw, 6) in tx.transfers
    && MovedBy(tx, t.userUsdcAta, t.userWallet, -(t.amountRaw as int), false)
    && MovedBy(tx, t.controlledUsdcAta, t.controlledWallet, t.amountRaw, true)
  }

  /** Who follows the instructions of an actionable answer has paid: confirmation accepts the
      transaction, if the pinned token account is the one derived for the wallet. */
  lemma QuotedPaymentPays(o: Outside, c: Admitted, rule: WatchRule, persisted: bool, inserted: bool, row: FundingRow,
                          nowMs: i64, tx: Observation)
    requires Respond(o, c, rule, persisted, row, inserted, nowMs) == Actionable(row.terms, nowMs)
    requires PinsAgree(o) && o.lib.parseKey(USDC_MINT) == Some(o.pins.usdcMint)
    requires o.lib.keyText(o.lib.tokenAccount(o.pins.controlled, o.pins.usdcMint)) == CONTROLLED_USDC_ATA
    requires row.terms.canonicalRuleHashHex == HexLower(o.lib.ruleHash(rule)) && Follows(o.lib, rule, row.terms, tx)
    ensures Paid(o.lib, tx, row.terms)
  {
    TransferIff(tx.transfers, row.terms);
  }

  // ---- Validation accepts it until a deadline ------------------------------------------------

  /** The whole static conjunction comes down to the two clocks: a slot must be known,
      three minutes must not have passed since the row was written, nor 480 slots
      since the rule's own. */
  lemma FinalizedIsReadyInTime(o: Outside, actions: seq<Action>, id: string, pins: Candidates.Pins,
                               clocks: Candidates.PreflightClocks)
    requires PinsAgree(o) && SamePins(o, pins) && HasConfirmedRow(o, actions, id)
    ensures
      var d := Left(o, actions);
      && id in d.rules && FundingSnapshotOf(o.lib, d.rows[id].terms).Some?
      && var f, r := FundingSnapshotOf(o.lib, d.rows[id].terms).value, d.rules[id].rule;
         Candidates.PreflightAnswer(o.lib, pins, f, r, clocks).NeedsChain? <==>
           && clocks.slot.Some?
           && clocks.nowMs < d.rows[id].terms.createdAtMs + 180_000 && clocks.nowMs < TWO_63 - 1
           && clocks.slot.value < r.createdAtSlot + 480 && clocks.slot.value < TWO_64 - 1
  {
    RunsFinalize(o, actions, id);
    var d := Left(o, actions);
    var f, r := FundingSnapshotOf(o.lib, d.rows[id].terms).value, d.rules[id].rule;
    FinalizedParts(o, pins, d, id, f, r);
    Candidates.NeedsChainIffReady(o.lib, pins, f, r, clocks);
  }

  /** And its condition asks for a rate strictly above the threshold of the row. */
  lemma FinalizedAsksForMore(o: Outside, actions: seq<Action>, id: string, aprWad: u128)
    requires HasConfirmedRow(o, actions, id)
    ensures
      var d := Left(o, actions);
      && id in d.rules && |d.rules[id].rule.conditions| == 1 && d.rules[id].rule.conditions[0].SolendReserveSupplyRate?
      && var condition := d.rules[id].rule.conditions[0];
         (CandidateReports.CompareWad(aprWad, condition.comparison, condition.thresholdBps)
          <==> aprWad * 10_000 > d.rows[id].terms.thresholdBps * 1_000_000_000_000_000_000)
  {
    RunsFinalize(o, actions, id);
    var condition := Left(o, actions).rules[id].rule.conditions[0];
    CandidateReports.CompareIsExact(aprWad, condition.comparison, condition.thresholdBps);
  }

  lemma FinalizedParts(o: Outside, pins: Candidates.Pins, d: Data, id: string, f: Candidates.FundingSnapshot,
                       r: WatchRule)
    requires PinsAgree(o) && SamePins(o, pins) && Finalized(o, d, id) && r == d.rules[id].rule
    requires FundingSnapshotOf(o.lib, d.rows[id].terms) == Some(f)
    ensures Candidates.EnvelopeOk(r) && Candidates.IdentityOk(o.lib, f, r)
    ensures Candidates.DepositOk(pins, f, r) && Candidates.ConditionOk(f, r)
    ensures f.expiresAtMs == SaturatingDeadline(d.rows[id].terms.createdAtMs)
    ensures r.expiresAtSlot == SaturatingSlot(r.createdAtSlot)
  {
  }

  /** No finalized amount is the one that has no execution policy. */
  lemma FinalizedHasPolicy(o: Outside, actions: seq<Action>, id: string, pins: ExecutionPolicy.ExecutionPins,
                           c: ExecutionPolicy.Canonical)
    requires HasConfirmedRow(o, actions, id)
    requires c.inputAmountRaw == Left(o, actions).rows[id].terms.amountRaw
    ensures ExecutionPolicy.ExecutionPolicyFor(o.lib, pins, c).Some?
    ensures 100_000 <= c.inputAmountRaw <= 1_000_000
  {
    RunsFinalize(o, actions, id);
  }

  // ---- What is sent was approved and paid for -----------------------------------------------------

  /** Whatever the tools do together: a transaction is sent for an intent at most once,
      and then its stored rule is one that finalize builds from an approved draft,
      its row agrees with that rule, and the transaction read for the row's funding
      signature pays the row's amount. */
  lemma SentWasApprovedAndPaid(o: Outside, actions: seq<Action>, id: string)
    requires Run(o, actions).l.d.Log(id) != []
    ensures
      var d := Run(o, actions).l.d;
      && |d.Log(id)| == 1 && id in d.rows && id in d.rules
      && IsBuilt(o.pins, d.rules[id].rule)
      && RuleMatchesIntent(o.lib, d.rules[id], d.rows[id].terms)
      && d.rules[id].rule.action.inputAmountRaw == d.rows[id].terms.amountRaw
      && 100_000 <= d.rows[id].terms.amountRaw <= 1_000_000
      && d.rows[id].fundingSignature.Some?
      && LifecycleSafety.PaidOnRecord(o.lib, d, id, d.rows[id].fundingSignature.value)
  {
    JointRunsProject(o, actions);
    var d, ls := Run(o, actions).l.d, LifecycleRun(o, actions);
    LifecycleSafety.AtMostOneSend(o.lib, ls, id);
    LifecycleSafety.SendsArePaidFor(o.lib, ls, id);
    FundedRules.SendsMatchTheirRules(o.lib, ls, id);
    F.InvariantHolds(o, FinalizeRun(o, actions));
    assert F.RuleOk(o, id, d.rules[id]);
  }

  /** Every rule of a joint run is one that finalize builds. */
  lemma JointRulesAreBuilt(o: Outside, actions: seq<Action>, w: World, id: string)
    requires w == Run(o, actions) && id in w.l.d.rules
    ensures IsBuilt(o.pins, w.l.d.rules[id].rule)
  {
    JointRunsProject(o, actions);
    F.InvariantHolds(o, FinalizeRun(o, actions));
    assert F.RuleOk(o, id, w.f.d.rules[id]);
  }

  /** Going on with a joint run alters no terms and no rule. */
  lemma JointKeeps(o: Outside, before: seq<Action>, after: seq<Action>)
    ensures F.Keeps(Left(o, before), Left(o, before + after))
  {
    JointRunsProject(o, before);
    JointRunsProject(o, before + after);
    JointRunsExtend(o, before, after);
    var fs, fs' := FinalizeRun(o, before), FinalizeRun(o, before + after);
    assert fs + fs'[|fs|..] == fs';
    F.NothingIsAltered(o, fs, fs'[|fs|..]);
  }

  predicate Expired(row: FundingRow, rule: RuleRow, now: Candidates.Clocks) {
    now.nowMs >= row.terms.expiresAtMs || now.slot >= rule.rule.expiresAtSlot
  }

  /** A finalized row and its rule stay, with their terms and their content. */
  lemma FinalizedIsKept(o: Outside, before: seq<Action>, after: seq<Action>, id: string)
    requires PinsAgree(o) && HasConfirmedRow(o, before, id)
    ensures id in Left(o, before).rules && id in Left(o, before + after).rows && id in Left(o, before + after).rules
    ensures Left(o, before + after).rows[id].terms == Left(o, before).rows[id].terms
    ensures Left(o, before + after).rules[id].rule == Left(o, before).rules[id].rule
    ensures FundingSnapshotOf(o.lib, Left(o, before).rows[id].terms).Some?
  {
    RunsFinalize(o, before, id);
    JointKeeps(o, before, after);
  }

  /** Expiry is for ever: an intent past a deadline is blocked by both phases of
      validation at every later reading of the clocks, whatever the tools do in between;
      and past the row's own deadline it cannot be leased either. */
  lemma ExpiryIsForEver(o: Outside, before: seq<Action>, after: seq<Action>, id: string, pins: Candidates.Pins,
                        now: Candidates.Clocks, later: Candidates.Clocks)
    requires PinsAgree(o) && HasConfirmedRow(o, before, id)
    requires now.nowMs <= later.nowMs && now.slot <= later.slot
    requires
      id in Left(o, before).rules ==> Expired(Left(o, before).rows[id], Left(o, before).rules[id], now)
    ensures
      var d := Left(o, before + after);
      && id in d.rows && id in d.rules && FundingSnapshotOf(o.lib, d.rows[id].terms).Some?
      && var f, r := FundingSnapshotOf(o.lib, d.rows[id].terms).value, d.rules[id].rule;
         && Candidates.PreflightAnswer(o.lib, pins, f, r,
                                       Candidates.PreflightClocks(later.nowMs, Some(later.slot))).PreflightBlocked?
         && (forall p: Candidates.Prepared, facts: Candidates.ChainFacts :: p.action.SolendDeposit? ==>
               !Candidates.ChainReady(pins, p, facts, f.expiresAtMs, r.expiresAtSlot, later))
    ensures
      var d, row := Left(o, before + after), Left(o, before).rows[id];
      now.nowMs >= row.terms.expiresAtMs ==> !Allowed(d.rows[id], LeaseExecution(later.nowMs))
  {
    RunsFinalize(o, before, id);
    FinalizedIsKept(o, before, after, id);
    var d := Left(o, before + after);
    ExpiredStaysBlocked(o.lib, pins, d.rows[id].terms, d.rules[id].rule, now, later);
  }

  lemma ExpiredStaysBlocked(lib: Library, pins: Candidates.Pins, t: FundingTerms, r: WatchRule, now: Candidates.Clocks,
                            later: Candidates.Clocks)
    requires now.nowMs <= later.nowMs && now.slot <= later.slot
    requires FundingSnapshotOf(lib, t).Some? && (now.nowMs >= t.expiresAtMs || now.slot >= r.expiresAtSlot)
    ensures
      var f := FundingSnapshotOf(lib, t).value;
      && Candidates.PreflightAnswer(lib, pins, f, r,
                                    Candidates.PreflightClocks(later.nowMs, Some(later.slot))).PreflightBlocked?
      && (forall p: Candidates.Prepared, facts: Candidates.ChainFacts :: p.action.SolendDeposit? ==>
            !Candidates.ChainReady(pins, p, facts, f.expiresAtMs, r.expiresAtSlot, later))
  {
    Candidates.ExpiryPersists(lib, pins, FundingSnapshotOf(lib, t).value, r, now, later);
  }

  /** An actionable answer is honoured for ever: whatever happens after it, crashes and
      restarts included, the row keeps the quoted terms; anything sent for it was paid
      for by its funding transaction on those terms; and a row that says completed was
      executed exactly once, for that amount. */
  lemma ActionableIsHonoured(o: Outside, before: seq<Action>, after: seq<Action>, k: nat)
    requires k in Run(o, before).f.calls
    requires
      var pc := Run(o, before).f.calls[k].pc;
      pc.Finished? && pc.answer.Actionable?
    ensures
      var terms, d := Run(o, before).f.calls[k].pc.answer.terms, Run(o, before + after).l.d;
      var id := terms.intentId;
      && id in d.rows && d.rows[id].terms == terms
      && (d.Log(id) != [] ==>
            d.rows[id].fundingSignature.Some?
            && LifecycleSafety.PaidOnRecord(o.lib, d, id, d.rows[id].fundingSignature.value))
      && (d.rows[id].status == Completed ==>
            && |d.Log(id)| == 1 && d.rows[id].executionSignature == Some(d.Log(id)[0]) && d.Log(id)[0] in d.landed
            && id in d.rules && d.rules[id].completed && d.rules[id].usedAmountRaw == terms.amountRaw)
  {
    var terms := Run(o, before).f.calls[k].pc.answer.terms;
    var id := terms.intentId;
    JointRunsProject(o, before);
    JointRunsProject(o, before + after);
    F.ActionableIsTrue(o, FinalizeRun(o, before), k);
    JointKeeps(o, before, after);
    var ls := LifecycleRun(o, before + after);
    if Run(o, before + after).l.d.Log(id) != [] {
      LifecycleSafety.SendsArePaidFor(o.lib, ls, id);
    }
    if Run(o, before + after).l.d.rows[id].status == Completed {
      LifecycleSafety.CompletedIsTrue(o.lib, ls, id);
      FundedRules.CompletedUsedItsAmount(o.lib, ls, id);
    }
  }
}
