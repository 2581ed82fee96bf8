// The check and the review that the watch loop really makes: two-phase validation of
// the stored intent, and the wallet review of the transaction built for its plan. So
// every send leads back to a passed validation and to the builder's message.
module WatchDesk {
  import opened Prelude
  import opened Codecs
  import opened WatchRules
  import opened StateStore
  import opened CandidateReports
  import opened Candidates
  import opened ExecuteCycle
  import opened ExecutionPolicy
  import opened WalletReview
  import opened WatchRuns
  import Finalize
  import X = Execution
  import B = DepositBuilder
  import F = FinalizeSafety
  import J = JointRuns
  import E = EndToEnd

  /** What is fixed for a watcher process: the finalize side, the validator's pins, the
      wallet, the transaction builder, and how a signature is written. */
  datatype Desk = Desk(o: Finalize.Outside, pins: Candidates.Pins, review: Review,
                       build: PlanInputs -> Option<Transaction>, signatureText: Signature -> string)

  // ---- Inspection -------------------------------------------------------------------------

  /** The fresh inspection of a row and its rule, if both phases pass. */
  function InspectionOf(desk: Desk, t: FundingTerms, r: WatchRule, s: Reading): Option<Inspection> {
    var lib := desk.o.lib;
    match E.FundingSnapshotOf(lib, t)
    case None => None
    case Some(f) =>
      if PreflightAnswer(lib, desk.pins, f, r, s.before).PreflightBlocked? then None
      else
        PreparedIsWellPrepared(lib, desk.pins, f, r, s.before);
        var p := PreflightAnswer(lib, desk.pins, f, r, s.before).prepared;
        if !ChainReady(desk.pins, p, s.facts, f.expiresAtMs, r.expiresAtSlot, s.after) then None
        else
          var report := ChainReport(p, s.facts, s.after, [], Some(true));
          Some(Inspection(Row(true, false, report.intentId, report.ruleIdHex, Some(report)),
                          Some(PlanOf(p, s.facts, report))))
  }

  function CheckedBy(desk: Desk, t: FundingTerms, r: WatchRule, s: Reading): Option<Checked> {
    match InspectionOf(desk, t, r, s)
    case None => None
    case Some(inspection) =>
      match RevalidatedCandidate(inspection, t.intentId)
      case Err(_) => None
      case Ok(candidate) => Some(Checked(s, inspection.plan.value, candidate))
  }

  /** A passed check means: the static conjunction before, the chain conjunction after,
      both deadlines still ahead, the rate condition met, and a plan for the funded
      amount between the controlled accounts. */
  lemma CheckedMeans(desk: Desk, t: FundingTerms, r: WatchRule, s: Reading)
    requires CheckedBy(desk, t, r, s).Some?
    ensures
      var c, lib := CheckedBy(desk, t, r, s).value, desk.o.lib;
      && E.FundingSnapshotOf(lib, t).Some?
      && var f := E.FundingSnapshotOf(lib, t).value;
         && StaticallyReady(lib, desk.pins, f, r, s.before)
         && s.after.nowMs < t.expiresAtMs && s.after.slot < r.expiresAtSlot
         && FreshEnough(s.facts.reserve, 16, s.after.slot)
         && RateHolds(s.facts.nativeSupplyAprWad, r.conditions[0].comparison, t.thresholdBps)
         && c.plan.sourceLiquidity == f.controlledUsdcAta && c.plan.obligationOwner == f.controlledWallet
         && c.plan.userTransferAuthority == f.controlledWallet
    ensures
      var c := CheckedBy(desk, t, r, s).value;
      && c.reading == s && c.plan.inputAmountRaw == t.amountRaw == r.maxInputAmountRaw > 0
      && c.plan.solendProgramId == desk.pins.solendProgram && c.plan.inputMint == desk.pins.usdcMint
      && c.candidate == X.Candidate(t.intentId, r.ruleId, t.amountRaw)
  {
    var lib := desk.o.lib;
    var f := E.FundingSnapshotOf(lib, t).value;
    NeedsChainIffReady(lib, desk.pins, f, r, s.before);
    PreparedIsWellPrepared(lib, desk.pins, f, r, s.before);
    ValidatedPlanRevalidates(lib, desk.pins, f, r, s.before, s.facts, s.after);
  }

  /** And a check passes whenever the whole of that holds: a row whose keys parse, both
      phases' conjunctions, and the rate condition. */
  lemma CheckedIff(desk: Desk, t: FundingTerms, r: WatchRule, s: Reading)
    ensures
      CheckedBy(desk, t, r, s).Some? <==>
        && E.FundingSnapshotOf(desk.o.lib, t).Some?
        && var f := E.FundingSnapshotOf(desk.o.lib, t).value;
           && StaticallyReady(desk.o.lib, desk.pins, f, r, s.before)
           && s.after.nowMs < t.expiresAtMs && s.after.slot < r.expiresAtSlot
           && PreflightAnswer(desk.o.lib, desk.pins, f, r, s.before).NeedsChain?
           && var p := PreflightAnswer(desk.o.lib, desk.pins, f, r, s.before).prepared;
              && AccountsOk(desk.pins, p, s.facts) && TokensOk(desk.pins, p, s.facts)
              && FreshEnough(s.facts.reserve, 16, s.after.slot)
              && RateHolds(s.facts.nativeSupplyAprWad, r.conditions[0].comparison, t.thresholdBps)
  {
    var lib := desk.o.lib;
    if E.FundingSnapshotOf(lib, t).Some? {
      var f := E.FundingSnapshotOf(lib, t).value;
      NeedsChainIffReady(lib, desk.pins, f, r, s.before);
      if StaticallyReady(lib, desk.pins, f, r, s.before) {
        PreparedIsWellPrepared(lib, desk.pins, f, r, s.before);
        var p := PreflightAnswer(lib, desk.pins, f, r, s.before).prepared;
        if ChainReady(desk.pins, p, s.facts, f.expiresAtMs, r.expiresAtSlot, s.after) {
          ValidatedPlanRevalidates(lib, desk.pins, f, r, s.before, s.facts, s.after);
        }
      }
    }
  }

  // ---- Review ------------------------------------------------------------------------------

  /** The wallet review of the transaction built for a plan. */
  function Signs(desk: Desk, p: PlanInputs, outside: ReviewOutside): Option<Reviewed> {
    match desk.build(p)
    case None => None
    case Some(unsigned) =>
      ReviewOutcome(desk.review, unsigned, B.CanonicalOf(desk.review.wire, p, unsigned), outside)
  }

  /** The transaction that was signed: the builder's message for the plan, blockhash
      aside; a deposit of the plan's amount from the plan's account, with the audit
      record written and the controlled wallet's signature on it. */
  lemma SignedMeans(desk: Desk, p: PlanInputs, outside: ReviewOutside)
    requires Injective(desk.review.wire) && Signs(desk, p, outside).Some?
    ensures
      var r, wire := Signs(desk, p, outside).value, desk.review.wire;
      && desk.build(p).Some? && outside.auditWrites && outside.simulated.Some?
      && var tx := wire.decode(r.signedTransactionBytes);
         && tx.Some? && tx.value.message == outside.simulated.value.inner.message
         && tx.value.message.(recentBlockhash := ZERO_BLOCKHASH) == desk.build(p).value.message
         && wire.signaturesVerify(tx.value) && r.signer == desk.review.wallet
         && |tx.value.message.instructions| == 4
         && |tx.value.message.instructions[3].data| == 9
         && LittleEndian(tx.value.message.instructions[3].data[1..9]) == p.inputAmountRaw
         && InstructionAccount(tx.value.message, tx.value.message.instructions[3], 0) == Some(p.sourceLiquidity)
         && wire.decode(PayloadOf(LoopOf(desk), r).signedBytes) == tx
         && PayloadOf(LoopOf(desk), r).signature == desk.signatureText(r.signature)
  {
    var wire := desk.review.wire;
    var unsigned := desk.build(p).value;
    var r := Signs(desk, p, outside).value;
    var approved := outside.simulated.value.inner.message;
    SubmittedIsApproved(wire, r, approved);
    AcceptedIsBuilders(wire, approved, unsigned.message);
  }

  /** The desk builds with this compiler, and the compiler does its work on this plan. */
  predicate BuildsWith(desk: Desk, b: B.Compiler, p: PlanInputs) {
    && desk.build(p) == B.BuildUnsigned(b, desk.review.wire, desk.review.pins, p)
    && var ixs := B.PlanInstructions(b, desk.review.pins, p);
       B.Compiled(b.compile(ixs, p.obligationOwner), ixs, p.obligationOwner)
  }

  /** The signer left the message alone and put its signature into the wallet's slot, and
      what it left can be written out and verifies. */
  predicate SignedWell(wire: Wire, tx: Transaction, inner: InnerAnswer) {
    && inner.after.message == tx.message && wire.encode(inner.after).Some?
    && wire.decode(wire.encode(inner.after).value) == Some(inner.after) && wire.signaturesVerify(inner.after)
    && inner.signature != DEFAULT_SIGNATURE && |inner.after.signatures| > 0
    && inner.after.signatures[0] == inner.signature
  }

  /** The builder's transaction with some fresh blockhash, simulated successfully, audited
      and signed well, passes the whole review. */
  lemma WellSignedPasses(desk: Desk, b: B.Compiler, p: PlanInputs, outside: ReviewOutside, blockhash: bytes)
    requires B.PlanFor(desk.review.pins, desk.review.wallet, p) && p.inputAmountRaw < TWO_64 - 1
    requires BuildsWith(desk, b, p) && desk.build(p).Some?
    requires outside.simulated.Some? && outside.simulated.value.simulation.success && outside.auditWrites
    requires outside.simulated.value.inner == B.WithBlockhash(desk.build(p).value, blockhash)
    requires desk.review.wire.encode(outside.simulated.value.inner).Some?
    requires outside.inner.Some?
    requires SignedWell(desk.review.wire, outside.simulated.value.inner, outside.inner.value)
    ensures Signs(desk, p, outside).Some? && Signs(desk, p, outside).value.signature == outside.inner.value.signature
  {
    var v, unsigned, s := desk.review, desk.build(p).value, outside.simulated.value;
    var c := B.CanonicalOf(v.wire, p, unsigned);
    B.BuiltIsAccepted(b, v.wire, v.pins, v.wallet, p, blockhash);
    assert Approvable(v, unsigned, c, outside);
    SignatureIsTaken(v, s, outside.inner.value);
  }

  lemma SignatureIsTaken(v: Review, s: SimulatedTransaction, inner: InnerAnswer)
    requires SignedWell(v.wire, s.inner, inner)
    requires |s.inner.message.accountKeys| > 0 && s.inner.message.accountKeys[0] == v.wallet
    ensures SignedBy(v, s, Some(inner)).Some? && SignedBy(v, s, Some(inner)).value.signature == inner.signature
  {
    var approved := v.wire.messageBytes(s.inner.message);
    var reviewed :=
      Reviewed(inner.signature, v.wallet, s.lastValid, approved, approved, v.wire.encode(inner.after).value);
    assert SignsAt(inner.after, v.wallet, 0);
    SubmissionIff(v.wire, reviewed);
  }

  // ---- The loop of this desk -----------------------------------------------------------------

  function LoopOf(desk: Desk): Loop {
    Loop(desk.o, (t, r, s) => CheckedBy(desk, t, r, s), (p, outside) => Signs(desk, p, outside), desk.signatureText)
  }

  lemma DeskChecksItsOwn(desk: Desk)
    ensures ChecksItsOwn(LoopOf(desk))
  {
    forall t, r, s | CheckedBy(desk, t, r, s).Some?
      ensures
        var c := CheckedBy(desk, t, r, s).value;
        c.reading == s && c.candidate == X.Candidate(t.intentId, r.ruleId, t.amountRaw)
        && HexLower(r.ruleId) == t.intentId
    {
      CheckedMeans(desk, t, r, s);
    }
  }

  /** One executed intent, from its check to the bytes on the wire. */
  ghost predicate Executed(desk: Desk, t: FundingTerms, r: WatchRule, c: Checked, s: Signing) {
    var lib, wire, plan := desk.o.lib, desk.review.wire, c.plan;
    var snapshot, tx := E.FundingSnapshotOf(lib, t), wire.decode(s.reviewed.signedTransactionBytes);
    && snapshot.Some? && tx.Some?
    // validated, before and after reading the chain
    && StaticallyReady(lib, desk.pins, snapshot.value, r, c.reading.before)
    && c.reading.after.nowMs < t.expiresAtMs && c.reading.after.slot < r.expiresAtSlot
    && FreshEnough(c.reading.facts.reserve, 16, c.reading.after.slot)
    && RateHolds(c.reading.facts.nativeSupplyAprWad, r.conditions[0].comparison, t.thresholdBps)
    // the builder's transaction for the plan, blockhash aside, audited and signed
    && desk.build(plan).Some? && s.outside.auditWrites
    && tx.value.message.(recentBlockhash := ZERO_BLOCKHASH) == desk.build(plan).value.message
    && wire.signaturesVerify(tx.value) && s.reviewed.signer == desk.review.wallet
    // depositing the funded amount
    && |tx.value.message.instructions| == 4 && |tx.value.message.instructions[3].data| == 9
    && LittleEndian(tx.value.message.instructions[3].data[1..9]) == t.amountRaw == plan.inputAmountRaw
    && InstructionAccount(tx.value.message, tx.value.message.instructions[3], 0) == Some(plan.sourceLiquidity)
    && plan.sourceLiquidity == snapshot.value.controlledUsdcAta
  }

  /** A rule whose one condition asks for a rate strictly above its threshold. */
  predicate AsksForMore(r: WatchRule) {
    |r.conditions| == 1 && r.conditions[0].SolendReserveSupplyRate? && r.conditions[0].comparison == Gt
  }

  /** The rate that a plan was made for is strictly above the row's threshold. */
  predicate RateWasAbove(t: FundingTerms, c: Checked) {
    c.reading.facts.nativeSupplyAprWad * 10_000 > t.thresholdBps * 1_000_000_000_000_000_000
  }

  lemma TracedIsExecuted(desk: Desk, t: FundingTerms, r: WatchRule, c: Checked, s: Signing)
    requires Injective(desk.review.wire) && CheckedBy(desk, t, r, c.reading) == Some(c)
    requires Signs(desk, c.plan, s.outside) == Some(s.reviewed)
    ensures Executed(desk, t, r, c, s)
    ensures AsksForMore(r) ==> RateWasAbove(t, c)
  {
    CheckedMeans(desk, t, r, c.reading);
    SignedMeans(desk, c.plan, s.outside);
  }

  /** Whatever is sent for an intent was sent once, by an attempt whose plan passed both
      phases of validation against the stored row and rule, and it is the builder's
      transaction for that plan: audited, signed by the controlled wallet, depositing
      exactly the funded amount from the controlled token account; and the rate it was
      checked against was strictly above the row's threshold. */
  lemma SentWasCheckedAndReviewed(desk: Desk, actions: seq<Action>, id: string)
    requires Injective(desk.review.wire) && Run(LoopOf(desk), actions).j.l.d.Log(id) != []
    ensures
      var w := Run(LoopOf(desk), actions);
      && id in w.j.l.d.rows && id in w.j.l.d.rules && |w.j.l.d.Log(id)| == 1
      && exists k: nat ::
           && SentBy(LoopOf(desk), w, k, id)
           && Executed(desk, w.j.l.d.rows[id].terms, w.j.l.d.rules[id].rule, w.checked[k], w.signed[k])
           && RateWasAbove(w.j.l.d.rows[id].terms, w.checked[k])
  {
    DeskChecksItsOwn(desk);
    SentWasTraced(LoopOf(desk), actions, id);
    var w := Run(LoopOf(desk), actions);
    var k: nat :| SentBy(LoopOf(desk), w, k, id);
    RulesAskForMore(desk, actions, w.j, id);
    TracedIsExecuted(desk, w.j.l.d.rows[id].terms, w.j.l.d.rules[id].rule, w.checked[k], w.signed[k]);
  }

  /** Every rule of a run asks for a rate strictly above its threshold. */
  lemma RulesAskForMore(desk: Desk, actions: seq<Action>, j: J.World, id: string)
    requires j == Run(LoopOf(desk), actions).j && id in j.l.d.rules
    ensures AsksForMore(j.l.d.rules[id].rule)
  {
    RunsAreJoint(LoopOf(desk), actions);
    E.JointRulesAreBuilt(desk.o, JointRun(LoopOf(desk), actions), j, id);
  }
}
